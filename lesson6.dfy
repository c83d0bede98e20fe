/** The four servers of the unit-1 lesson-6 script: a one-entry route map, a
    view server that maps `/x` to `views/x.html`, a static file server that picks
    a folder and a content type from the url's extension, and the handlers it
    registers with the exact-match router. Each handler is a method driving a
    `ServerResponse`; a function states the outcome it must produce. */
module Lesson6 {
  import opened Js
  import opened Http
  import Router

  const HtmlType: Headers := ContentType("text/html")
  const PlainText: Headers := ContentType("text/plain")

  // ---------------------------------------------------------------------------
  // First server: the route map

  const RouteMap: map<string, string> := map["/" := "views/index.html"]
  const SorryNotFound := "<h1>Sorry, not found.</h1>"

  /** What the route-map server does with a url. The head (200, text/html) is
      written before the lookup, so a miss is still a 200. A read error leaves
      `data` undefined and `res.write(undefined)` throws. */
  function RouteMapOutcome(url: string, fs: FileSystem): (o: Outcome)
    ensures url != "/" ==> o == Answered(Reply(OK, HtmlType, SorryNotFound))
    ensures url == "/" ==>
      match ReadFile(fs, "views/index.html")
      case Data(c) => o == Answered(Reply(OK, HtmlType, c))
      case ReadError => o == Crashed
    ensures o.Answered? ==> o.reply.status == OK && o.reply.headers == HtmlType
  {
    var target := Prop(RouteMap, url);
    if Truthy(target) then
      match ReadFile(fs, target.value)
      case Data(c) => Answered(Reply(OK, HtmlType, c))
      case ReadError => Crashed
    else Answered(Reply(OK, HtmlType, SorryNotFound))
  }

  method ServeRouteMap(url: string, fs: FileSystem, res: ServerResponse)
    requires res.Untouched()
    modifies res
    ensures res.Observed() == RouteMapOutcome(url, fs)
  {
    var ok := res.WriteHead(OK, HtmlType);
    var target := Prop(RouteMap, url);
    if Truthy(target) {
      var data := ReadFile(fs, target.value);
      ok := res.Write(if data.Data? then Some(data.contents) else None);
      if !ok {
        return;
      }
      res.End(None);
    } else {
      res.End(Some(SorryNotFound));
    }
  }

  // ---------------------------------------------------------------------------
  // Second server: views by name

  /** `getViewUrl`: `/about` names the file views/about.html. */
  function ViewUrl(url: string): (p: string)
    ensures |p| == |url| + 10
    ensures p[..5] == "views" && p[5..5 + |url|] == url && p[5 + |url|..] == ".html"
  {
    "views" + url + ".html"
  }

  const ViewNotFound := "<h1>FILE NOT FOUND</h1>"

  /** A read error gives 404 with no headers and the not-found text; otherwise 200
      text/html with the file's contents. */
  function ViewReply(url: string, fs: FileSystem): (r: Reply)
    ensures ReadFile(fs, ViewUrl(url)).ReadError? ==> r == Reply(NOT_FOUND, map[], ViewNotFound)
    ensures ReadFile(fs, ViewUrl(url)).Data? ==>
      r == Reply(OK, HtmlType, fs[Resolve(ViewUrl(url))].contents)
  {
    match ReadFile(fs, ViewUrl(url))
    case ReadError => Reply(NOT_FOUND, map[], ViewNotFound)
    case Data(c) => Reply(OK, HtmlType, c)
  }

  /** Either way the response is ended exactly once. */
  method ServeView(url: string, fs: FileSystem, res: ServerResponse)
    requires res.Untouched()
    modifies res
    ensures res.Observed() == Answered(ViewReply(url, fs))
    ensures res.endCalls == 1
  {
    var viewUrl := ViewUrl(url);
    var data := ReadFile(fs, viewUrl);
    var ok;
    if data.ReadError? {
      ok := res.WriteHead(NOT_FOUND, map[]);
      ok := res.Write(Some(ViewNotFound));
    } else {
      ok := res.WriteHead(OK, HtmlType);
      ok := res.Write(Some(data.contents));
    }
    res.End(None);
  }

  // ---------------------------------------------------------------------------
  // Third server: static files by extension

  datatype Asset = HtmlFile | Script | Stylesheet | Image

  /** The if/else chain on `url.indexOf(...) !== -1`: first `.html`, then `.js`,
      then `.css`, then `.png`; the first test that holds wins. */
  function Classify(url: string): (r: Option<Asset>)
    ensures r == Some(HtmlFile) <==> Contains(url, ".html")
    ensures r == Some(Script) <==> !Contains(url, ".html") && Contains(url, ".js")
    ensures r == Some(Stylesheet) <==>
      !Contains(url, ".html") && !Contains(url, ".js") && Contains(url, ".css")
    ensures r == Some(Image) <==>
      !Contains(url, ".html") && !Contains(url, ".js") && !Contains(url, ".css") && Contains(url, ".png")
  {
    if IndexOf(url, ".html") != -1 then Some(HtmlFile)
    else if IndexOf(url, ".js") != -1 then Some(Script)
    else if IndexOf(url, ".css") != -1 then Some(Stylesheet)
    else if IndexOf(url, ".png") != -1 then Some(Image)
    else None
  }

  function AssetType(a: Asset): Headers {
    match a
    case HtmlFile => ContentType("text/html")
    case Script => ContentType("text/javascript")
    case Stylesheet => ContentType("text/css")
    case Image => ContentType("image/png")
  }

  /** The folder prefixed to the whole url. */
  function AssetDir(a: Asset): string {
    match a
    case HtmlFile => "./views"
    case Script => "./public/js"
    case Stylesheet => "./public/css"
    case Image => "./public/images"
  }

  const FileNotFound := "<h1>File Not Found!</h1>"
  const NotFoundReply := Reply(NOT_FOUND, HtmlType, FileNotFound)

  /** Whether the file for `a` exists and reads without error. */
  predicate Servable(a: Asset, url: string, fs: FileSystem) {
    Exists(fs, AssetDir(a) + url) && ReadFile(fs, AssetDir(a) + url).Data?
  }

  /** The static file server's evident intent: a url with a known extension whose
      file exists and reads gets 200, the extension's content type and the file;
      every other url gets the 404 page. */
  function StaticReply(url: string, fs: FileSystem): (r: Reply)
    ensures Classify(url).None? ==> r == NotFoundReply
    ensures Classify(url).Some? && !Servable(Classify(url).value, url, fs) ==> r == NotFoundReply
    ensures Classify(url).Some? && Servable(Classify(url).value, url, fs) ==>
      var a := Classify(url).value;
      r == Reply(OK, AssetType(a), fs[Resolve(AssetDir(a) + url)].contents)
  {
    match Classify(url)
    case None => NotFoundReply
    case Some(a) =>
      if Servable(a, url, fs) then Reply(OK, AssetType(a), ReadFile(fs, AssetDir(a) + url).contents)
      else NotFoundReply
  }

  /** The static file server as written: the handler writes the 200 head before
      `customReadFile`, whose failure path calls `sendErrorResponse`, whose
      `writeHead(404)` then throws because the head is already stored. */
  function StaticOutcomeAsWritten(url: string, fs: FileSystem): Outcome {
    match Classify(url)
    case None => Answered(NotFoundReply)
    case Some(a) =>
      if Servable(a, url, fs) then Answered(Reply(OK, AssetType(a), ReadFile(fs, AssetDir(a) + url).contents))
      else Crashed
  }

  /** `sendErrorResponse`: 404 text/html with the not-found text. */
  method SendErrorResponse(res: ServerResponse) returns (ok: bool)
    modifies res
    ensures ok == !old(res.headerStored)
    ensures !ok ==> res.threw
    ensures ok && old(res.body) == "" && !old(res.finished) && !old(res.threw) ==>
      res.Observed() == Answered(NotFoundReply) && res.endCalls == old(res.endCalls) + 1
  {
    ok := res.WriteHead(NOT_FOUND, HtmlType);
    if !ok {
      return;
    }
    var written := res.Write(Some(FileNotFound));
    res.End(None);
  }

  /** `customReadFile` as written: it sends the file or the error response, and
      relies on its caller for the success head. */
  method CustomReadFileAsWritten(path: string, fs: FileSystem, res: ServerResponse)
    requires res.headerStored && !res.finished && !res.threw && res.body == ""
    modifies res
    ensures ReadFile(fs, path).Data? ==>
      res.Observed() == Answered(Reply(old(res.statusCode), old(res.headers), ReadFile(fs, path).contents))
    ensures ReadFile(fs, path).ReadError? ==> res.Observed() == Crashed
  {
    var ok;
    if Exists(fs, path) {
      var data := ReadFile(fs, path);
      if data.ReadError? {
        ok := SendErrorResponse(res);
        return;
      }
      ok := res.Write(Some(data.contents));
      res.End(None);
    } else {
      ok := SendErrorResponse(res);
    }
  }

  method ServeStaticAsWritten(url: string, fs: FileSystem, res: ServerResponse)
    requires res.Untouched()
    modifies res
    ensures res.Observed() == StaticOutcomeAsWritten(url, fs)
  {
    var kind := Classify(url);
    var ok;
    if kind.None? {
      ok := SendErrorResponse(res);
      return;
    }
    ok := res.WriteHead(OK, AssetType(kind.value));
    CustomReadFileAsWritten(AssetDir(kind.value) + url, fs, res);
  }

  /** The corrected `customReadFile`: it writes the success head itself, after the
      read, so the error path is the first to write a head. */
  method CustomReadFile(path: string, headers: Headers, fs: FileSystem, res: ServerResponse)
    requires res.Untouched()
    modifies res
    ensures ReadFile(fs, path).Data? ==>
      res.Observed() == Answered(Reply(OK, headers, ReadFile(fs, path).contents))
    ensures ReadFile(fs, path).ReadError? ==> res.Observed() == Answered(NotFoundReply)
    ensures res.endCalls == 1
  {
    var ok;
    if Exists(fs, path) {
      var data := ReadFile(fs, path);
      if data.ReadError? {
        ok := SendErrorResponse(res);
        return;
      }
      ok := res.WriteHead(OK, headers);
      ok := res.Write(Some(data.contents));
      res.End(None);
    } else {
      ok := SendErrorResponse(res);
    }
  }

  method ServeStatic(url: string, fs: FileSystem, res: ServerResponse)
    requires res.Untouched()
    modifies res
    ensures res.Observed() == Answered(StaticReply(url, fs))
    ensures res.endCalls == 1
  {
    var kind := Classify(url);
    if kind.None? {
      var ok := SendErrorResponse(res);
      return;
    }
    CustomReadFile(AssetDir(kind.value) + url, AssetType(kind.value), fs, res);
  }

  /** As written, the server agrees with its intent except where the intent is the
      404 for a known extension whose file is missing or unreadable: there it crashes. */
  lemma AsWrittenCrashesOnMissingFiles(url: string, fs: FileSystem)
    ensures StaticOutcomeAsWritten(url, fs) == Crashed <==>
            Classify(url).Some? && StaticReply(url, fs) == NotFoundReply
    ensures StaticOutcomeAsWritten(url, fs) != Crashed ==>
            StaticOutcomeAsWritten(url, fs) == Answered(StaticReply(url, fs))
  {
    if Classify(url).Some? && Servable(Classify(url).value, url, fs) {
      assert StaticReply(url, fs).status == OK;
    }
  }

  /** An illustration: a request for a stylesheet that does not exist. The
      general property is `AsWrittenCrashesOnMissingFiles`. */
  lemma MissingStylesheet()
    ensures Classify("/site.css") == Some(Stylesheet)
    ensures StaticOutcomeAsWritten("/site.css", map[]) == Crashed
    ensures StaticReply("/site.css", map[]) == NotFoundReply
  {
    assert OccursAt("/site.css", ".css", 5);
    assert ".html"[1] == 'h' && ".js"[1] == 'j';
    MissingChar("/site.css", ".html", 'h');
    MissingChar("/site.css", ".js", 'j');
  }

  /** Any url mentioning `.json`, and not `.html`, is served as JavaScript from public/js. */
  lemma JsonIsScript(url: string)
    requires Contains(url, ".json") && !Contains(url, ".html")
    ensures Classify(url) == Some(Script)
    ensures AssetDir(Script) == "./public/js" && AssetType(Script) == ContentType("text/javascript")
  {
    var i := IndexOf(url, ".json");
    assert url[i..i + 5] == ".json";
    assert url[i..i + 3] == url[i..i + 5][..3];
    assert OccursAt(url, ".js", i);
  }

  // ---------------------------------------------------------------------------
  // Fourth part: the exact-match router

  datatype Route = Index | IndexPage | Posted

  function HandlerOf(r: Route): Router.Handler {
    match r
    case Index => Router.Handler(0, false)
    case IndexPage => Router.Handler(1, false)
    case Posted => Router.Handler(2, false)
  }

  const Registrations: seq<Router.Registration> := [
    Router.Registration(Router.GET, "/", HandlerOf(Index)),
    Router.Registration(Router.GET, "/index.html", HandlerOf(IndexPage)),
    Router.Registration(Router.POST, "/", HandlerOf(Posted))
  ]

  /** The table the three registrations build: two GET entries and one POST entry. */
  lemma BuiltTable()
    ensures Router.Build(Registrations) ==
            Router.RouteTable(map["/" := HandlerOf(Index), "/index.html" := HandlerOf(IndexPage)],
                              map["/" := HandlerOf(Posted)])
  {
    var b1 := Router.Register(Router.Empty, Router.GET, "/", HandlerOf(Index));
    var b2 := Router.Register(b1, Router.GET, "/index.html", HandlerOf(IndexPage));
    assert Registrations[..1][..0] == [];
    assert Router.Build(Registrations[..1]) == b1;
    assert Registrations[..2][..1] == Registrations[..1];
    assert Router.Build(Registrations[..2]) == b2;
    assert Registrations[..2] == Registrations[..|Registrations| - 1];
  }

  /** The three registrations, in the order the script makes them. */
  method SetUpRouter() returns (router: Router.Router)
    ensures fresh(router)
    ensures router.Table() == Router.Build(Registrations)
  {
    router := new Router.Router();
    router.Get("/", HandlerOf(Index));
    router.Get("/index.html", HandlerOf(IndexPage));
    router.Post("/", HandlerOf(Posted));
    BuiltTable();
  }

  /** What each registered handler answers. The index page is read through the
      router's own `customReadFile`, which logs a read error and ends the
      response without data. */
  function RouteReply(r: Route, fs: FileSystem): Reply {
    match r
    case Index => Reply(OK, PlainText, "INDEX")
    case Posted => Reply(OK, PlainText, "POSTED")
    case IndexPage =>
      Reply(OK, HtmlType, match ReadFile(fs, "./views/index.html")
                          case Data(c) => c
                          case ReadError => "")
  }

  method RunRoute(r: Route, fs: FileSystem, res: ServerResponse)
    requires res.Untouched()
    modifies res
    ensures res.Observed() == Answered(RouteReply(r, fs))
    ensures res.endCalls == 1
  {
    var ok;
    match r
    case Index =>
      ok := res.WriteHead(OK, PlainText);
      res.End(Some("INDEX"));
    case Posted =>
      ok := res.WriteHead(OK, PlainText);
      res.End(Some("POSTED"));
    case IndexPage =>
      ok := res.WriteHead(OK, HtmlType);
      var data := ReadFile(fs, "./views/index.html");
      res.End(if data.Data? then Some(data.contents) else None);
  }

  /** GET / answers text/plain INDEX and POST / answers POSTED, each through its
      own table; GET /index.html runs the page handler; anything else falls back. */
  lemma RouterScenario(fs: FileSystem, u: string)
    requires u != "/" && u != "/index.html"
    ensures Router.Dispatch(Router.Build(Registrations), "GET", "/") == Router.Invoke(HandlerOf(Index))
    ensures Router.Dispatch(Router.Build(Registrations), "POST", "/") == Router.Invoke(HandlerOf(Posted))
    ensures Router.Dispatch(Router.Build(Registrations), "GET", "/index.html") ==
            Router.Invoke(HandlerOf(IndexPage))
    ensures Router.Dispatch(Router.Build(Registrations), "GET", u) == Router.ErrorPage
    ensures Router.Dispatch(Router.Build(Registrations), "POST", "/index.html") == Router.ErrorPage
    ensures RouteReply(Index, fs) == Reply(OK, PlainText, "INDEX")
    ensures RouteReply(Posted, fs) == Reply(OK, PlainText, "POSTED")
  {
    BuiltTable();
  }
}
