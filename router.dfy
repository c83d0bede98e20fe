/** The hand-written exact-match router: a table `{GET: {}, POST: {}}` from literal
    URL to handler, filled in place by `get`/`post`, and `handle`, which calls
    `routes[method][url]` inside a try/catch and answers every failure with the
    same error page. Handlers are opaque; each carries whether calling it throws. */
module Router {
  import opened Js
  import opened Http
  import ContentTypes

  /** A route handler: an identity, and whether running it throws synchronously. */
  datatype Handler = Handler(id: nat, throws: bool)

  /** The two methods the table has slots for. */
  datatype Verb = GET | POST

  function VerbName(v: Verb): string {
    match v
    case GET => "GET"
    case POST => "POST"
  }

  /** The contents of the two per-method tables. */
  datatype RouteTable = RouteTable(get: map<string, Handler>, post: map<string, Handler>)

  const Empty := RouteTable(map[], map[])

  /** What `handle` does with a request: call a handler, or answer with the
      fallback, whose body is served from the file `page`. */
  datatype Action = Invoke(handler: Handler) | Fallback(status: int, headers: Headers, page: string)

  /** The catch branch: `writeHead(200, contentTypes.html)` and the file views/error.html. */
  const ErrorPage: Action := Fallback(OK, ContentTypes.Html, "views/error.html")

  /** `routes[method][url]`: `undefined` when the method has no table or the url no entry. */
  function Lookup(t: RouteTable, reqMethod: string, url: string): (r: Option<Handler>)
    ensures reqMethod != "GET" && reqMethod != "POST" ==> r == None
    ensures reqMethod == "GET" ==> (r.Some? <==> url in t.get) && (r.Some? ==> r.value == t.get[url])
    ensures reqMethod == "POST" ==> (r.Some? <==> url in t.post) && (r.Some? ==> r.value == t.post[url])
  {
    if reqMethod == "GET" then Prop(t.get, url)
    else if reqMethod == "POST" then Prop(t.post, url)
    else None
  }

  /** The meaning of `handle`: call the handler found, unless there is none or it throws. */
  function Dispatch(t: RouteTable, reqMethod: string, url: string): (a: Action)
    ensures a.Invoke? <==> Lookup(t, reqMethod, url).Some? && !Lookup(t, reqMethod, url).value.throws
    ensures a.Invoke? ==> Lookup(t, reqMethod, url) == Some(a.handler)
    ensures a.Fallback? ==> a == ErrorPage
  {
    match Lookup(t, reqMethod, url)
    case Some(h) => if h.throws then ErrorPage else Invoke(h)
    case None => ErrorPage
  }

  /** `routes[verb][url] = action`. */
  function Register(t: RouteTable, v: Verb, url: string, action: Handler): RouteTable {
    match v
    case GET => t.(get := t.get[url := action])
    case POST => t.(post := t.post[url := action])
  }

  /** The route table object, updated in place by `get` and `post`. */
  class Router {
    var get: map<string, Handler>
    var post: map<string, Handler>

    function Table(): RouteTable
      reads this
    {
      RouteTable(get, post)
    }

    /** `const routes = { "GET": {}, "POST": {} }`. */
    constructor ()
      ensures Table() == Empty
    {
      get, post := map[], map[];
    }

    /** `exports.get`: `routes["GET"][url] = action`. */
    method Get(url: string, action: Handler)
      modifies this
      ensures Table() == Register(old(Table()), GET, url, action)
    {
      get := get[url := action];
    }

    /** `exports.post`: `routes["POST"][url] = action`. */
    method Post(url: string, action: Handler)
      modifies this
      ensures Table() == Register(old(Table()), POST, url, action)
    {
      post := post[url := action];
    }

    /** `exports.handle`: each way the guarded call can fail lands in the catch branch. */
    method Handle(reqMethod: string, url: string) returns (a: Action)
      ensures a == Dispatch(Table(), reqMethod, url)
    {
      var table: Option<map<string, Handler>> :=
        if reqMethod == "GET" then Some(get) else if reqMethod == "POST" then Some(post) else None;
      if table.None? {
        // reading `[req.url]` of undefined throws a TypeError
        return ErrorPage;
      }
      if url !in table.value {
        // calling undefined throws a TypeError
        return ErrorPage;
      }
      var h := table.value[url];
      if h.throws {
        return ErrorPage;
      }
      return Invoke(h);
    }
  }

  /** Before any registration every request falls back. */
  lemma EmptyTableFallsBack(reqMethod: string, url: string)
    ensures Dispatch(Empty, reqMethod, url) == ErrorPage
  {
  }

  /** After registering `action` for (verb, url), that exact request runs `action`,
      or falls back if `action` throws. */
  lemma RegisteredRouteRuns(t: RouteTable, v: Verb, url: string, action: Handler)
    ensures Lookup(Register(t, v, url, action), VerbName(v), url) == Some(action)
    ensures Dispatch(Register(t, v, url, action), VerbName(v), url) ==
            if action.throws then ErrorPage else Invoke(action)
  {
  }

  /** Registering the same (verb, url) twice keeps only the later handler. */
  lemma LastWriteWins(t: RouteTable, v: Verb, url: string, first: Handler, second: Handler)
    ensures Register(Register(t, v, url, first), v, url, second) == Register(t, v, url, second)
  {
  }

  /** A registration changes no other (method, url) entry: not the other method's
      entry for the same url, and not any other url of its own method. */
  lemma RegisterChangesOnlyItsEntry(t: RouteTable, v: Verb, url: string, action: Handler, reqMethod: string, u: string)
    requires reqMethod != VerbName(v) || u != url
    ensures Lookup(Register(t, v, url, action), reqMethod, u) == Lookup(t, reqMethod, u)
    ensures Dispatch(Register(t, v, url, action), reqMethod, u) == Dispatch(t, reqMethod, u)
  {
  }

  /** An illustration on one url, `/a?x=1`: a query string is not stripped. The
      general property is the contract of `Lookup`. */
  lemma QueryStringIsPartOfTheUrl(action: Handler)
    ensures Dispatch(Register(Empty, GET, "/a", action), "GET", "/a?x=1") == ErrorPage
  {
    assert "/a?x=1" != "/a";
  }

  /** An unregistered url, a method without a table and a throwing handler all get
      the same fallback: status 200 (never 404), html header, views/error.html. */
  lemma EveryFailureFallsBackTheSame(t: RouteTable, reqMethod: string, url: string)
    requires Lookup(t, reqMethod, url).None? || Lookup(t, reqMethod, url).value.throws
    ensures Dispatch(t, reqMethod, url) == ErrorPage
    ensures ErrorPage.status == 200 && ErrorPage.status != NOT_FOUND
    ensures ErrorPage.headers == ContentTypes.Table["html"]
    ensures ErrorPage.page == "views/error.html"
  {
  }

  /** One call of `get` or `post` during start-up. */
  datatype Registration = Registration(verb: Verb, url: string, action: Handler)

  /** The table after the given registrations, in order, starting from the empty table. */
  function Build(regs: seq<Registration>): RouteTable {
    if |regs| == 0 then Empty
    else
      var r := regs[|regs| - 1];
      Register(Build(regs[..|regs| - 1]), r.verb, r.url, r.action)
  }

  predicate Targets(r: Registration, reqMethod: string, url: string) {
    VerbName(r.verb) == reqMethod && r.url == url
  }

  /** After a sequence of registrations, a (method, url) has an entry exactly when
      some registration targeted it, and the entry is the action of the last one. */
  lemma {:induction false} BuildKeepsLatest(regs: seq<Registration>, reqMethod: string, url: string)
    ensures Lookup(Build(regs), reqMethod, url).None? <==>
            forall i :: 0 <= i < |regs| ==> !Targets(regs[i], reqMethod, url)
    ensures forall i :: 0 <= i < |regs| && Targets(regs[i], reqMethod, url) &&
                        (forall j :: i < j < |regs| ==> !Targets(regs[j], reqMethod, url)) ==>
                        Lookup(Build(regs), reqMethod, url) == Some(regs[i].action)
  {
    if |regs| > 0 {
      var n := |regs| - 1;
      var prefix, r := regs[..n], regs[n];
      BuildKeepsLatest(prefix, reqMethod, url);
      assert forall i :: 0 <= i < n ==> prefix[i] == regs[i];
      if Targets(r, reqMethod, url) {
        RegisteredRouteRuns(Build(prefix), r.verb, r.url, r.action);
        forall i | 0 <= i < |regs| && Targets(regs[i], reqMethod, url) &&
                   (forall j :: i < j < |regs| ==> !Targets(regs[j], reqMethod, url))
          ensures i == n
        {
        }
      } else {
        RegisterChangesOnlyItsEntry(Build(prefix), r.verb, r.url, r.action, reqMethod, url);
      }
    }
  }
}
