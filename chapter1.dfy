/** The first Express-book server: four pages read into memory at start-up and
    a plain `http` handler that answers `/about`, `/contact` and `/` with their
    page and everything else with 404 and the not-found page. */
module Chapter1 {
  import opened Js
  import opened Http

  /** The four pages as loaded at start-up. */
  datatype Pages = Pages(home: string, about: string, contact: string, notFound: string)

  /** The synchronous reads at start-up: any unreadable file throws before the
      server exists, so there are pages only when all four files read. */
  function LoadPages(fs: FileSystem): (p: Option<Pages>)
    ensures p.Some? <==>
      ReadFile(fs, "index.html").Data? && ReadFile(fs, "about.html").Data? &&
      ReadFile(fs, "contact.html").Data? && ReadFile(fs, "notfound.html").Data?
    ensures p.Some? ==> p.value == Pages(ReadFile(fs, "index.html").contents, ReadFile(fs, "about.html").contents,
                                         ReadFile(fs, "contact.html").contents, ReadFile(fs, "notfound.html").contents)
  {
    match (ReadFile(fs, "index.html"), ReadFile(fs, "about.html"),
           ReadFile(fs, "contact.html"), ReadFile(fs, "notfound.html"))
    case (Data(h), Data(a), Data(c), Data(n)) => Some(Pages(h, a, c, n))
    case _ => None
  }

  predicate Known(url: string) {
    url == "/about" || url == "/contact" || url == "/"
  }

  /** The answer: a known url gets its page with the default 200 and no headers
      set; any other url gets 404 and the not-found page. */
  function Chapter1Reply(pages: Pages, url: string): (r: Reply)
    ensures r.headers == map[]
    ensures r.status == NOT_FOUND <==> !Known(url)
    ensures r.status == OK <==> Known(url)
    ensures url == "/about" ==> r.body == pages.about
    ensures url == "/contact" ==> r.body == pages.contact
    ensures url == "/" ==> r.body == pages.home
    ensures !Known(url) ==> r.body == pages.notFound
  {
    if url == "/about" then Reply(OK, map[], pages.about)
    else if url == "/contact" then Reply(OK, map[], pages.contact)
    else if url == "/" then Reply(OK, map[], pages.home)
    else Reply(NOT_FOUND, map[], pages.notFound)
  }

  /** The handler: `writeHead` is called only on the 404 path. */
  method Serve(pages: Pages, url: string, res: ServerResponse)
    requires res.Untouched()
    modifies res
    ensures res.Observed() == Answered(Chapter1Reply(pages, url))
    ensures res.writeHeadCalls == if Known(url) then 0 else 1
    ensures res.endCalls == 1
  {
    if url == "/about" {
      res.End(Some(pages.about));
    } else if url == "/contact" {
      res.End(Some(pages.contact));
    } else if url == "/" {
      res.End(Some(pages.home));
    } else {
      var ok := res.WriteHead(NOT_FOUND, map[]);
      res.End(Some(pages.notFound));
    }
  }

  /** An illustration on sample urls: a trailing slash or a query string is a
      miss. The general property is the contract of `Chapter1Reply`. */
  lemma ExactMatch(pages: Pages)
    ensures Chapter1Reply(pages, "/about/").status == NOT_FOUND
    ensures Chapter1Reply(pages, "/?x=1").status == NOT_FOUND
  {
    assert "/about/" != "/about" && "/about/" != "/contact" && "/about/" != "/";
    assert "/?x=1" != "/";
  }
}
