/** The lesson-29 subscribers controller: the allowed form fields, `create`
    with its flash message for each kind of failure, `update`, `delete` and
    the truthy `redirectView` (which is `Express.RedirectView` with `Truthy`). */
module Subscribers {
  import opened Js
  import opened Express

  const SubscriberFields := {"name", "email", "zipCode"}

  /** `getSubscriberParams`: name, email and zipCode copied from the body, nothing else. */
  function GetSubscriberParams(body: Body): (r: Doc)
    ensures r.Keys == SubscriberFields
    ensures forall k :: k in r ==> r[k] == Field(body, k)
  {
    map["name" := Field(body, "name"), "email" := Field(body, "email"), "zipCode" := Field(body, "zipCode")]
  }

  /** Fields outside the allowed three never reach the stored parameters. */
  lemma GetSubscriberParamsIgnoresOtherFields(b1: Body, b2: Body)
    requires forall k :: k in SubscriberFields ==> Field(b1, k) == Field(b2, k)
    ensures GetSubscriberParams(b1) == GetSubscriberParams(b2)
  {
    var p1, p2 := GetSubscriberParams(b1), GetSubscriberParams(b2);
    assert forall k :: k in p1 ==> p1[k] == p2[k];
  }

  const DUPLICATE_KEY := 11000
  const Duplicate := "Email address is already registered."
  const Created := "Subscriber created successfully!"
  const GenericPrefix := "Failed to create subscriber: "

  /** The flash message for a failed create: the duplicate-key code is tested first,
      then the validation error's field messages, then anything else. */
  function CreateErrorMessage(e: JsError): (msg: string)
    ensures e.code == Some(DUPLICATE_KEY) ==> msg == Duplicate
    ensures e.code != Some(DUPLICATE_KEY) && e.name == "ValidationError" ==> msg == Js.Join(e.fieldMessages, ", ")
    ensures e.code != Some(DUPLICATE_KEY) && e.name != "ValidationError" ==> msg == GenericPrefix + Show(e.message)
  {
    if e.code == Some(DUPLICATE_KEY) then Duplicate
    else if e.name == "ValidationError" then Js.Join(e.fieldMessages, ", ")
    else GenericPrefix + Show(e.message)
  }

  /** Illustrations: a duplicate key wins over the error's name, and a generic
      failure without a message reads "undefined". The general property is the
      contract of `CreateErrorMessage`. */
  lemma DuplicateKeyComesFirst(fieldMessages: seq<string>, message: Option<string>)
    ensures CreateErrorMessage(JsError("ValidationError", message, Some(DUPLICATE_KEY), fieldMessages)) == Duplicate
    ensures CreateErrorMessage(JsError("MongoServerError", None, None, [])) == GenericPrefix + "undefined"
  {
  }

  /** Illustrations: a validation error with one field message flashes exactly
      that message; with two, both joined by a comma and a space. */
  lemma ValidationMessages(name: string, a: string, b: string)
    ensures CreateErrorMessage(JsError("ValidationError", None, None, [a])) == a
    ensures CreateErrorMessage(JsError("ValidationError", None, None, [a, b])) == a + ", " + b
  {
    assert [a, b][1..] == [b];
    assert Js.Join([a, b], ", ") == a + ", " + Js.Join([b], ", ");
  }

  function CreateEffect(s: ExState, body: Body, result: Settled<Doc>): ExState {
    var s1 := s.(calls := s.calls + [CreateDoc("subscribers", GetSubscriberParams(body))]);
    match result
    case Done(sub) =>
      s1.(flashes := s1.flashes + [Flash("success", Created)],
          locals := s1.locals.(redirect := Some("/subscribers"), subscriber := Some(sub)),
          nexts := s1.nexts + [Continue])
    case Failed(e) =>
      s1.(flashes := s1.flashes + [Flash("error", CreateErrorMessage(e))],
          locals := s1.locals.(redirect := Some("/subscribers/new")),
          nexts := s1.nexts + [Continue])
  }

  /** `create`. */
  method Create(ex: Exchange, body: Body, result: Settled<Doc>)
    modifies ex
    ensures ex.State() == CreateEffect(old(ex.State()), body, result)
  {
    var subscriberParams := GetSubscriberParams(body);
    ex.calls := ex.calls + [CreateDoc("subscribers", subscriberParams)];
    match result
    case Done(sub) =>
      ex.flashes := ex.flashes + [Flash("success", Created)];
      ex.locals := ex.locals.(redirect := Some("/subscribers"));
      ex.locals := ex.locals.(subscriber := Some(sub));
      ex.nexts := ex.nexts + [Continue];
    case Failed(e) =>
      var message := CreateErrorMessage(e);
      ex.flashes := ex.flashes + [Flash("error", message)];
      ex.locals := ex.locals.(redirect := Some("/subscribers/new"));
      ex.nexts := ex.nexts + [Continue];
  }

  /** Every outcome of `create` flashes once and continues with `next()`; success
      goes to the list, every failure back to the form, and no failure is forwarded
      as an error. */
  lemma CreateAlwaysContinues(s: ExState, body: Body, result: Settled<Doc>)
    ensures var t := CreateEffect(s, body, result);
      t.nexts == s.nexts + [Continue] && |t.flashes| == |s.flashes| + 1 &&
      t.flashes[..|s.flashes|] == s.flashes &&
      (result.Done? ==> t.flashes[|s.flashes|] == Flash("success", Created) &&
                        t.locals.redirect == Some("/subscribers")) &&
      (result.Failed? ==> t.flashes[|s.flashes|] == Flash("error", CreateErrorMessage(result.error)) &&
                          t.locals.redirect == Some("/subscribers/new") &&
                          t.locals.subscriber == s.locals.subscriber)
  {
  }

  function UpdateEffect(s: ExState, id: string, body: Body, result: Settled<Doc>): ExState {
    var s1 := s.(calls := s.calls + [UpdateDoc("subscribers", id, GetSubscriberParams(body))]);
    match result
    case Done(sub) =>
      s1.(locals := s1.locals.(redirect := Some("/subscribers/" + id), subscriber := Some(sub)),
          nexts := s1.nexts + [Continue])
    case Failed(e) => s1.(nexts := s1.nexts + [Forward(e)])
  }

  /** `update`: `$set` the allowed fields on subscriber `id`, then show it. */
  method Update(ex: Exchange, id: string, body: Body, result: Settled<Doc>)
    modifies ex
    ensures ex.State() == UpdateEffect(old(ex.State()), id, body, result)
  {
    var subscriberParams := GetSubscriberParams(body);
    ex.calls := ex.calls + [UpdateDoc("subscribers", id, subscriberParams)];
    match result
    case Done(sub) =>
      ex.locals := ex.locals.(redirect := Some("/subscribers/" + id));
      ex.locals := ex.locals.(subscriber := Some(sub));
      ex.nexts := ex.nexts + [Continue];
    case Failed(e) =>
      ex.nexts := ex.nexts + [Forward(e)];
  }

  function DeleteEffect(s: ExState, id: string, result: Option<JsError>): ExState {
    var s1 := s.(calls := s.calls + [RemoveDoc("subscribers", id)]);
    match result
    case None => s1.(locals := s1.locals.(redirect := Some("/subscribers")), nexts := s1.nexts + [Continue])
    case Some(_) => s1.(nexts := s1.nexts + [Continue])
  }

  /** `delete`; `result` is the removal's error, if any. */
  method Delete(ex: Exchange, id: string, result: Option<JsError>)
    modifies ex
    ensures ex.State() == DeleteEffect(old(ex.State()), id, result)
  {
    ex.calls := ex.calls + [RemoveDoc("subscribers", id)];
    if result.None? {
      ex.locals := ex.locals.(redirect := Some("/subscribers"));
    }
    ex.nexts := ex.nexts + [Continue];
  }

  /** Update shows the subscriber's page; a failed delete sets no redirect and
      continues without an error, so the chain goes on past `redirectView`
      when nothing earlier set a path. */
  lemma RedirectTargets(s: ExState, id: string, body: Body, sub: Doc, e: JsError)
    ensures UpdateEffect(s, id, body, Done(sub)).locals.redirect == Some("/subscribers/" + id)
    ensures DeleteEffect(s, id, None).locals.redirect == Some("/subscribers")
    ensures DeleteEffect(s, id, Some(e)).locals == s.locals
    ensures DeleteEffect(s, id, Some(e)).nexts == s.nexts + [Continue]
    ensures s.locals.redirect.None? ==>
            RedirectViewEffect(DeleteEffect(s, id, Some(e)), Truthy).nexts == s.nexts + [Continue, Continue]
  {
  }
}
