/** What the Express controllers see of a request and its response: the body
    fields, `req.user`, `req.skip`, the flash log, `res.locals`, the calls of
    `next`, `res.redirect` and `res.json`, and the document-store calls the
    controllers make together with the one in-memory effect that is modelled
    (the users' course-id lists that `$addToSet` updates). */
module Express {
  import opened Js

  /** The JavaScript values the controllers put into documents and parameter objects. */
  datatype JsValue =
    | Undefined
    | Str(s: string)
    | Bool(b: bool)
    | Id(hex: string)
    | Array(elems: seq<JsValue>)
    | Object(fields: map<string, JsValue>)

  /** A stored document or a plain parameter object. */
  type Doc = map<string, JsValue>

  /** `req.body` of a url-encoded form: every field that is present is a string. */
  type Body = map<string, string>

  /** `body.k`: the string, or `undefined` when the field is absent. */
  function Field(body: Body, k: string): (v: JsValue)
    ensures v == Undefined <==> k !in body
    ensures k in body ==> v == Str(body[k])
  {
    if k in body then Str(body[k]) else Undefined
  }

  /** An error object: its `name`, `message`, Mongo `code` and, for a validation
      error, the messages of its `errors` entries in order. */
  datatype JsError = JsError(name: string, message: Option<string>, code: Option<int>, fieldMessages: seq<string>)

  /** `new Error(msg)`. */
  function Error(msg: string): JsError {
    JsError("Error", Some(msg), None, [])
  }

  /** The TypeError a property read or a call on `undefined` throws. */
  function TypeError(msg: string): JsError {
    JsError("TypeError", Some(msg), None, [])
  }

  /** How a promise returned by the document store settles. */
  datatype Settled<T> = Done(value: T) | Failed(error: JsError)

  /** One call of `next`: `next()` or `next(error)`. An exception thrown
      synchronously by a handler is forwarded by Express as `next(error)`. */
  datatype NextCall = Continue | Forward(error: JsError)

  /** One `req.flash(kind, message)`. */
  datatype Flash = Flash(kind: string, message: string)

  /** The logged-in user as `res.locals.currentUser` holds it. */
  datatype User = User(id: string, courses: seq<string>)

  /** The fields of `res.locals` the controllers read or write. */
  datatype Locals = Locals(
    redirect: Option<string>,
    success: bool,
    course: Option<Doc>,
    courses: seq<Doc>,
    subscriber: Option<Doc>,
    user: Option<Doc>,
    currentUser: Option<User>)

  /** The object passed to `res.json`. */
  datatype JsonBody = DataBody(status: int, data: Locals) | ErrorBody(status: int, message: Option<string>)

  /** A call the controllers make into the document mapper or the auth plug-in. */
  datatype StoreCall =
    | CreateDoc(collection: string, params: Doc)
    | UpdateDoc(collection: string, id: string, params: Doc)
    | RemoveDoc(collection: string, id: string)
    | AddCourse(userId: string, courseId: string)
    | RegisterUser(params: Doc, password: JsValue)

  /** A snapshot of everything a controller can change. */
  datatype ExState = ExState(
    reqUser: Option<string>,
    skip: bool,
    flashes: seq<Flash>,
    locals: Locals,
    nexts: seq<NextCall>,
    redirects: seq<string>,
    responses: seq<JsonBody>,
    calls: seq<StoreCall>,
    enrolment: map<string, seq<string>>)

  /** `res.locals` at the start of a request chain. */
  const NoLocals := Locals(None, false, None, [], None, None, None)

  /** One request: `req`, `res` and the users collection's course lists. */
  class Exchange {
    var reqUser: Option<string>
    var skip: bool
    var flashes: seq<Flash>
    var locals: Locals
    var nexts: seq<NextCall>
    var redirects: seq<string>
    var responses: seq<JsonBody>
    var calls: seq<StoreCall>
    var enrolment: map<string, seq<string>>

    function State(): ExState
      reads this
    {
      ExState(reqUser, skip, flashes, locals, nexts, redirects, responses, calls, enrolment)
    }

    /** A request from `user` (if any) whose chain has set nothing yet. */
    constructor (user: Option<string>, currentUser: Option<User>, enrolled: map<string, seq<string>>)
      ensures State() == ExState(user, false, [], NoLocals.(currentUser := currentUser), [], [], [], [], enrolled)
    {
      reqUser, skip, flashes := user, false, [];
      locals := NoLocals.(currentUser := currentUser);
      nexts, redirects, responses, calls, enrolment := [], [], [], [], enrolled;
    }
  }

  // ---------------------------------------------------------------------------
  // redirectView

  /** What `redirectView` does: redirect to a path, or call `next()`. */
  datatype Step = RedirectTo(path: string) | CallNext

  /** The two tests the controllers use on `res.locals.redirect`. */
  datatype RedirectTest = Defined | Truthy

  /** `if (redirectPath !== undefined)` or `if (redirectPath)`. */
  function RedirectStep(test: RedirectTest, redirect: Option<string>): (st: Step)
    ensures test == Defined ==> (st.RedirectTo? <==> redirect.Some?)
    ensures test == Truthy ==> (st.RedirectTo? <==> redirect.Some? && redirect.value != "")
    ensures st.RedirectTo? ==> redirect == Some(st.path)
  {
    match test
    case Defined => if redirect.Some? then RedirectTo(redirect.value) else CallNext
    case Truthy => if Js.Truthy(redirect) then RedirectTo(redirect.value) else CallNext
  }

  /** The two tests disagree exactly on the empty path, which only the
      `!== undefined` test follows. */
  lemma RedirectTestsDiffer(redirect: Option<string>)
    ensures RedirectStep(Defined, redirect) != RedirectStep(Truthy, redirect) <==> redirect == Some("")
    ensures RedirectStep(Defined, Some("")) == RedirectTo("") && RedirectStep(Truthy, Some("")) == CallNext
  {
  }

  function RedirectViewEffect(s: ExState, test: RedirectTest): ExState {
    match RedirectStep(test, s.locals.redirect)
    case RedirectTo(p) => s.(redirects := s.redirects + [p])
    case CallNext => s.(nexts := s.nexts + [Continue])
  }

  /** The `redirectView` middleware. */
  method RedirectView(ex: Exchange, test: RedirectTest)
    modifies ex
    ensures ex.State() == RedirectViewEffect(old(ex.State()), test)
  {
    var redirectPath := ex.locals.redirect;
    var st := RedirectStep(test, redirectPath);
    if st.RedirectTo? {
      ex.redirects := ex.redirects + [st.path];
    } else {
      ex.nexts := ex.nexts + [Continue];
    }
  }

  /** Exactly one of a redirect and a `next()` happens, and nothing else changes. */
  lemma RedirectViewActsOnce(s: ExState, test: RedirectTest)
    ensures var t := RedirectViewEffect(s, test);
      |t.redirects| + |t.nexts| == |s.redirects| + |s.nexts| + 1 &&
      t.(redirects := s.redirects, nexts := s.nexts) == s &&
      (t.nexts == s.nexts + [Continue] <==> RedirectStep(test, s.locals.redirect) == CallNext)
  {
  }

  // ---------------------------------------------------------------------------
  // $addToSet

  /** Mongo's `$addToSet` on an array: append `x` unless it is already there. */
  function AddToSet(xs: seq<string>, x: string): (r: seq<string>)
    ensures x in r
    ensures forall y :: y in r <==> y in xs || y == x
    ensures x in xs ==> r == xs
    ensures x !in xs ==> r == xs + [x]
  {
    if x in xs then xs else xs + [x]
  }

  predicate NoDuplicates(xs: seq<string>) {
    forall i, j :: 0 <= i < j < |xs| ==> xs[i] != xs[j]
  }

  /** Adding twice is adding once, and a list without duplicates keeps none. */
  lemma AddToSetIdempotent(xs: seq<string>, x: string)
    ensures AddToSet(AddToSet(xs, x), x) == AddToSet(xs, x)
    ensures NoDuplicates(xs) ==> NoDuplicates(AddToSet(xs, x))
  {
  }
}
