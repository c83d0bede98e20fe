/** The lesson-29 users controller: the nested parameter object, the handler at
    the end of the `validate` chain, `create` (as written, and with the early
    return the skip flag evidently needs), `update`, `delete`, `logout` and the
    `!== undefined` `redirectView` (which is `Express.RedirectView` with `Defined`). */
module Users {
  import opened Js
  import opened Express

  const UserFields := {"name", "email", "password", "zipCode"}

  /** `getUserParams`: first and last nested under `name`; email, password and
      zipCode copied; nothing else. */
  function GetUserParams(body: Body): (r: Doc)
    ensures r.Keys == UserFields
    ensures r["name"] == Object(map["first" := Field(body, "first"), "last" := Field(body, "last")])
    ensures forall k :: k in r && k != "name" ==> r[k] == Field(body, k)
  {
    map["name" := Object(map["first" := Field(body, "first"), "last" := Field(body, "last")]),
        "email" := Field(body, "email"), "password" := Field(body, "password"), "zipCode" := Field(body, "zipCode")]
  }

  /** Only the five form fields matter, and `first`/`last` do not appear at the top level. */
  lemma GetUserParamsShape(b1: Body, b2: Body)
    requires forall k :: k in {"first", "last", "email", "password", "zipCode"} ==> Field(b1, k) == Field(b2, k)
    ensures GetUserParams(b1) == GetUserParams(b2)
    ensures "first" !in GetUserParams(b1) && "last" !in GetUserParams(b1)
  {
    var p1, p2 := GetUserParams(b1), GetUserParams(b2);
    assert forall k :: k in p1 ==> p1[k] == p2[k];
  }

  const NewUserPath := "/users/new"

  /** The last handler of `validate`; `messages` are the failed checks' messages in order. */
  function ValidateEffect(s: ExState, messages: seq<string>): ExState {
    if |messages| > 0 then
      s.(skip := true,
         flashes := s.flashes + [Flash("error", Js.Join(messages, " and "))],
         locals := s.locals.(redirect := Some(NewUserPath)),
         nexts := s.nexts + [Continue])
    else s.(nexts := s.nexts + [Continue])
  }

  method Validate(ex: Exchange, messages: seq<string>)
    modifies ex
    ensures ex.State() == ValidateEffect(old(ex.State()), messages)
  {
    if |messages| > 0 {
      ex.skip := true;
      ex.flashes := ex.flashes + [Flash("error", Js.Join(messages, " and "))];
      ex.locals := ex.locals.(redirect := Some(NewUserPath));
    }
    ex.nexts := ex.nexts + [Continue];
  }

  /** For every list of failed checks: the chain continues once; a non-empty list
      sets the skip flag, flashes the messages joined by " and " and sends the
      browser back to the form, and changes nothing else; the empty list changes
      only the `next()` log. The two-message case shows how the join reads. */
  lemma ValidateOutcomes(s: ExState, messages: seq<string>, a: string, b: string)
    ensures ValidateEffect(s, messages).nexts == s.nexts + [Continue]
    ensures |messages| > 0 ==>
      var t := ValidateEffect(s, messages);
      t.skip && t.flashes == s.flashes + [Flash("error", Js.Join(messages, " and "))] &&
      t.locals.redirect == Some(NewUserPath) &&
      t == s.(skip := true, flashes := t.flashes, locals := s.locals.(redirect := Some(NewUserPath)), nexts := t.nexts)
    ensures |messages| == 0 ==> ValidateEffect(s, messages) == s.(nexts := s.nexts + [Continue])
    ensures ValidateEffect(s, [a, b]).flashes == s.flashes + [Flash("error", a + " and " + b)]
  {
    assert [a, b][1..] == [b];
    assert Js.Join([a, b], " and ") == a + " and " + Js.Join([b], " and ");
  }

  /** The callback of `User.register`, given the new user's `fullName` or the error. */
  function RegisteredEffect(s: ExState, result: Settled<string>): ExState {
    match result
    case Done(fullName) =>
      s.(flashes := s.flashes + [Flash("success", fullName + "'s account created successfully!")],
         locals := s.locals.(redirect := Some("/users")),
         nexts := s.nexts + [Continue])
    case Failed(e) =>
      s.(flashes := s.flashes + [Flash("error", "Failed to create user account because: " + Show(e.message) + ".")],
         locals := s.locals.(redirect := Some(NewUserPath)),
         nexts := s.nexts + [Continue])
  }

  function Register(s: ExState, body: Body): ExState {
    s.(calls := s.calls + [RegisterUser(GetUserParams(body), Field(body, "password"))])
  }

  /** `create` as written: `if (req.skip) next();` has no `return`, so the user
      is registered after a failed validation too. */
  function CreateAsWrittenEffect(s: ExState, body: Body, result: Settled<string>): ExState {
    var s0 := if s.skip then s.(nexts := s.nexts + [Continue]) else s;
    RegisteredEffect(Register(s0, body), result)
  }

  method CreateAsWritten(ex: Exchange, body: Body, result: Settled<string>)
    modifies ex
    ensures ex.State() == CreateAsWrittenEffect(old(ex.State()), body, result)
  {
    if ex.skip {
      ex.nexts := ex.nexts + [Continue];
    }
    RegisterAndRespond(ex, body, result);
  }

  /** `create` with `return next()`: a skipped request registers nothing. */
  function CreateEffect(s: ExState, body: Body, result: Settled<string>): ExState {
    if s.skip then s.(nexts := s.nexts + [Continue])
    else RegisteredEffect(Register(s, body), result)
  }

  method Create(ex: Exchange, body: Body, result: Settled<string>)
    modifies ex
    ensures ex.State() == CreateEffect(old(ex.State()), body, result)
  {
    if ex.skip {
      ex.nexts := ex.nexts + [Continue];
      return;
    }
    RegisterAndRespond(ex, body, result);
  }

  /** `User.register(new User(getUserParams(req.body)), req.body.password, callback)`. */
  method RegisterAndRespond(ex: Exchange, body: Body, result: Settled<string>)
    modifies ex
    ensures ex.State() == RegisteredEffect(Register(old(ex.State()), body), result)
  {
    var newUser := GetUserParams(body);
    ex.calls := ex.calls + [RegisterUser(newUser, Field(body, "password"))];
    match result
    case Done(fullName) =>
      ex.flashes := ex.flashes + [Flash("success", fullName + "'s account created successfully!")];
      ex.locals := ex.locals.(redirect := Some("/users"));
      ex.nexts := ex.nexts + [Continue];
    case Failed(e) =>
      ex.flashes := ex.flashes + [Flash("error", "Failed to create user account because: " + Show(e.message) + ".")];
      ex.locals := ex.locals.(redirect := Some(NewUserPath));
      ex.nexts := ex.nexts + [Continue];
  }

  /** Without a prior validation failure both versions register once, call
      `next()` once, and redirect to `/users` or back to the form. */
  lemma CreateWhenValid(s: ExState, body: Body, result: Settled<string>)
    requires !s.skip
    ensures CreateAsWrittenEffect(s, body, result) == CreateEffect(s, body, result)
    ensures var t := CreateEffect(s, body, result);
      t.calls == s.calls + [RegisterUser(GetUserParams(body), Field(body, "password"))] &&
      t.nexts == s.nexts + [Continue] &&
      t.locals.redirect == Some(if result.Done? then "/users" else NewUserPath)
  {
  }

  /** As written, a signup that failed validation is still registered, `create`
      calls `next()` twice, and a successful registration replaces the redirect
      back to the form by `/users`. */
  lemma SkippedSignupStillRegisters(s: ExState, body: Body, messages: seq<string>, fullName: string)
    requires !s.skip && |messages| > 0
    ensures var v := ValidateEffect(s, messages);
      var t := CreateAsWrittenEffect(v, body, Done(fullName));
      t.calls == s.calls + [RegisterUser(GetUserParams(body), Field(body, "password"))] &&
      t.nexts == v.nexts + [Continue, Continue] &&
      v.locals.redirect == Some(NewUserPath) && t.locals.redirect == Some("/users")
  {
  }

  /** With the early return, a signup that failed validation calls nothing, calls
      `next()` once and keeps the redirect back to the form and the error flash. */
  lemma SkippedSignupIsNotRegistered(s: ExState, body: Body, messages: seq<string>, result: Settled<string>)
    requires !s.skip && |messages| > 0
    ensures var v := ValidateEffect(s, messages);
      var t := CreateEffect(v, body, result);
      t.calls == s.calls && t.nexts == v.nexts + [Continue] &&
      t.locals.redirect == Some(NewUserPath) && t.flashes == v.flashes
  {
  }

  function UpdateEffect(s: ExState, id: string, body: Body, result: Settled<Doc>): ExState {
    var s1 := s.(calls := s.calls + [UpdateDoc("users", id, GetUserParams(body))]);
    match result
    case Done(user) =>
      s1.(locals := s1.locals.(redirect := Some("/users/" + id), user := Some(user)), nexts := s1.nexts + [Continue])
    case Failed(e) => s1.(nexts := s1.nexts + [Forward(e)])
  }

  /** `update`: `$set` the user parameters on user `id`, then show the user. */
  method Update(ex: Exchange, id: string, body: Body, result: Settled<Doc>)
    modifies ex
    ensures ex.State() == UpdateEffect(old(ex.State()), id, body, result)
  {
    var userParams := GetUserParams(body);
    ex.calls := ex.calls + [UpdateDoc("users", id, userParams)];
    match result
    case Done(user) =>
      ex.locals := ex.locals.(redirect := Some("/users/" + id));
      ex.locals := ex.locals.(user := Some(user));
      ex.nexts := ex.nexts + [Continue];
    case Failed(e) =>
      ex.nexts := ex.nexts + [Forward(e)];
  }

  function DeleteEffect(s: ExState, id: string, result: Option<JsError>): ExState {
    var s1 := s.(calls := s.calls + [RemoveDoc("users", id)]);
    match result
    case None => s1.(locals := s1.locals.(redirect := Some("/users")), nexts := s1.nexts + [Continue])
    case Some(_) => s1.(nexts := s1.nexts + [Continue])
  }

  /** `delete`; a failure continues without an error and without a redirect. */
  method Delete(ex: Exchange, id: string, result: Option<JsError>)
    modifies ex
    ensures ex.State() == DeleteEffect(old(ex.State()), id, result)
  {
    ex.calls := ex.calls + [RemoveDoc("users", id)];
    if result.None? {
      ex.locals := ex.locals.(redirect := Some("/users"));
    }
    ex.nexts := ex.nexts + [Continue];
  }

  const LoggedOut := "You have been logged out!"

  /** The callback of `req.logout`, given its error if any. */
  function LogoutEffect(s: ExState, err: Option<JsError>): ExState {
    match err
    case Some(e) => s.(nexts := s.nexts + [Forward(e)])
    case None =>
      s.(flashes := s.flashes + [Flash("success", LoggedOut)],
         locals := s.locals.(redirect := Some("/")),
         nexts := s.nexts + [Continue])
  }

  method Logout(ex: Exchange, err: Option<JsError>)
    modifies ex
    ensures ex.State() == LogoutEffect(old(ex.State()), err)
  {
    if err.Some? {
      ex.nexts := ex.nexts + [Forward(err.value)];
      return;
    }
    ex.flashes := ex.flashes + [Flash("success", LoggedOut)];
    ex.locals := ex.locals.(redirect := Some("/"));
    ex.nexts := ex.nexts + [Continue];
  }

  /** Update shows the user's page, delete and a failed delete behave like the
      subscribers', and a logout goes home, or forwards its error untouched. */
  lemma RedirectTargets(s: ExState, id: string, body: Body, user: Doc, e: JsError)
    ensures UpdateEffect(s, id, body, Done(user)).locals.redirect == Some("/users/" + id)
    ensures DeleteEffect(s, id, None).locals.redirect == Some("/users")
    ensures DeleteEffect(s, id, Some(e)).locals == s.locals
    ensures LogoutEffect(s, None).locals.redirect == Some("/")
    ensures LogoutEffect(s, None).flashes == s.flashes + [Flash("success", LoggedOut)]
    ensures LogoutEffect(s, Some(e)) == s.(nexts := s.nexts + [Forward(e)])
  {
  }

  /** The users' `!== undefined` test follows an empty redirect that the courses
      and subscribers controllers of the same application skip. */
  lemma EmptyRedirect(s: ExState)
    requires s.locals.redirect == Some("")
    ensures RedirectViewEffect(s, Defined).redirects == s.redirects + [""]
    ensures RedirectViewEffect(s, Truthy).redirects == s.redirects
    ensures RedirectViewEffect(s, Truthy).nexts == s.nexts + [Continue]
  {
  }
}
