/** The unit-1 lesson-5 server: a constant map from url to an HTML snippet, a
    200 text/html head for every request, and a welcome page for any url the
    map does not name. */
module SimpleRoutes {
  import opened Js
  import opened Http

  const ResponseMap: map<string, string> := map[
    "/info" := "<h1>Info Page</h1>",
    "/contact" := "<h1>Contact Us</h1>",
    "/about" := "<h1>Learn More About Us.</h1>",
    "/hello" := Hello,
    "/error" := "<h1>Sorry, the page you are looking for is not here.</h1>"
  ]

  const Hello := "<h1>Say hello by emailing us <a href=\"https://mail.google.com/\">here</a></h1>"
  const Welcome := "<h1>Welcome!</h1>"
  const HtmlType: Headers := ContentType("text/html")

  /** The answer to a url: always 200 text/html; the mapped snippet when the url
      is a key of the map, the welcome page otherwise. */
  function SimpleReply(url: string): (r: Reply)
    ensures r.status == OK && r.headers == HtmlType
    ensures url in ResponseMap ==> r.body == ResponseMap[url]
    ensures url !in ResponseMap ==> r.body == Welcome
  {
    var hit := Prop(ResponseMap, url);
    Reply(OK, HtmlType, if Truthy(hit) then hit.value else Welcome)
  }

  /** The request handler; the two-second timer before a hit is answered is
      collapsed, so the state shown is the one after it fires. */
  method Serve(url: string, res: ServerResponse)
    requires res.Untouched()
    modifies res
    ensures res.Observed() == Answered(SimpleReply(url))
    ensures res.writeHeadCalls == 1 && res.endCalls == 1
  {
    var ok := res.WriteHead(OK, HtmlType);
    if Truthy(Prop(ResponseMap, url)) {
      res.End(Some(ResponseMap[url]));
    } else {
      res.End(Some(Welcome));
    }
  }

  /** Every snippet in the map is non-empty, so the truthiness test is exactly
      key membership. */
  lemma TruthyIsMembership(url: string)
    ensures Truthy(Prop(ResponseMap, url)) <==> url in ResponseMap
  {
    if url in ResponseMap {
      assert ResponseMap[url] != "" by {
        assert url in {"/info", "/contact", "/about", "/hello", "/error"};
        if url == "/hello" {
          assert Hello != "";
        }
      }
    }
  }

  /** `/error` is an ordinary key: it is answered with status 200, and an unknown
      url is answered with 200 too, never 404. */
  lemma ErrorPageIsNotAnError(url: string)
    ensures SimpleReply("/error").status == OK
    ensures SimpleReply("/error").body == "<h1>Sorry, the page you are looking for is not here.</h1>"
    ensures SimpleReply(url).status != NOT_FOUND
  {
  }

  /** An illustration on two urls: `/info/` and `/info?x` get the welcome page.
      The general property is the contract of `SimpleReply`. */
  lemma TrailingCharactersMiss()
    ensures SimpleReply("/info/").body == Welcome
    ensures SimpleReply("/info?x").body == Welcome
  {
    assert "/info/" !in ResponseMap by {
      assert |"/info/"| == 6;
      assert "/info/"[1] == 'i' && "/info/" != "/info";
    }
    assert "/info?x" !in ResponseMap by {
      assert "/info?x" != "/info";
    }
  }
}
