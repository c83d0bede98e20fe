/** The courses controller in its two forms: the recipe application of lessons
    27 and 28 (whose two copies agree in everything modelled here) and the
    confetti-cuisine application of lesson 29. They differ in the parameters they
    store, in `errorJSON`, in the `redirectView` test, in what a failed delete
    does and in the message for a join without a user. */
module Courses {
  import opened Js
  import opened Express
  import Http

  datatype Variant = Recipe | Confetti

  // ---------------------------------------------------------------------------
  // Parameters

  /** `[req.body.items.split(",")]`: a one-element list holding the pieces, which
      join back to the input. */
  function Items(s: string): (items: seq<seq<string>>)
    ensures |items| == 1 && |items[0]| >= 1
    ensures Js.Join(items[0], ",") == s
    ensures forall i :: 0 <= i < |items[0]| ==> ',' !in items[0][i]
  {
    JoinSplit(s, ',');
    [Split(s, ',')]
  }

  /** Comma-free pieces, joined with commas and taken apart again, come back as
      the one element of `items`. */
  lemma ItemsOfJoin(parts: seq<string>)
    requires |parts| >= 1
    requires forall i :: 0 <= i < |parts| ==> ',' !in parts[i]
    ensures Items(Js.Join(parts, ",")) == [parts]
  {
    SplitJoin(parts, ',');
  }

  /** A list of strings as a JavaScript array. */
  function Strings(xs: seq<string>): (v: seq<JsValue>)
    ensures |v| == |xs| && forall i :: 0 <= i < |xs| ==> v[i] == Str(xs[i])
  {
    if |xs| == 0 then [] else [Str(xs[0])] + Strings(xs[1..])
  }

  function ItemsValue(items: seq<seq<string>>): JsValue
    requires |items| == 1
  {
    Array([Array(Strings(items[0]))])
  }

  /** The error `req.body.items.split` throws when the form has no `items` field. */
  const ItemsMissing := TypeError("Cannot read properties of undefined (reading 'split')")

  const RecipeFields := {"title", "description", "items", "zipCode"}
  const ConfettiFields := {"title", "description", "maxStudents", "cost"}

  /** The recipe application's `courseParams`; `None` when building it throws. */
  function RecipeParams(body: Body): (r: Option<Doc>)
    ensures r.None? <==> "items" !in body
    ensures r.Some? ==> r.value.Keys == RecipeFields
    ensures r.Some? ==> forall k :: k in r.value && k != "items" ==> r.value[k] == Field(body, k)
    ensures r.Some? ==> r.value["items"] == ItemsValue(Items(body["items"]))
  {
    if "items" !in body then None
    else Some(map["title" := Field(body, "title"), "description" := Field(body, "description"),
                  "items" := ItemsValue(Items(body["items"])), "zipCode" := Field(body, "zipCode")])
  }

  /** `getCourseParams`: the four allowed fields copied from the body, and nothing else. */
  function GetCourseParams(body: Body): (r: Doc)
    ensures r.Keys == ConfettiFields
    ensures forall k :: k in r ==> r[k] == Field(body, k)
  {
    map["title" := Field(body, "title"), "description" := Field(body, "description"),
        "maxStudents" := Field(body, "maxStudents"), "cost" := Field(body, "cost")]
  }

  /** Fields outside the allowed four never reach the stored parameters. */
  lemma GetCourseParamsIgnoresOtherFields(b1: Body, b2: Body)
    requires forall k :: k in ConfettiFields ==> Field(b1, k) == Field(b2, k)
    ensures GetCourseParams(b1) == GetCourseParams(b2)
  {
    var p1, p2 := GetCourseParams(b1), GetCourseParams(b2);
    assert forall k :: k in p1 ==> p1[k] == p2[k];
  }

  function CourseParams(v: Variant, body: Body): Option<Doc> {
    match v
    case Recipe => RecipeParams(body)
    case Confetti => Some(GetCourseParams(body))
  }

  // ---------------------------------------------------------------------------
  // create, update, delete

  function CreateEffect(v: Variant, s: ExState, body: Body, result: Settled<Doc>): ExState {
    match CourseParams(v, body)
    case None => s.(nexts := s.nexts + [Forward(ItemsMissing)])
    case Some(p) =>
      var s1 := s.(calls := s.calls + [CreateDoc("courses", p)]);
      match result
      case Done(course) =>
        s1.(locals := s1.locals.(redirect := Some("/courses"), course := Some(course)), nexts := s1.nexts + [Continue])
      case Failed(e) => s1.(nexts := s1.nexts + [Forward(e)])
  }

  /** `create`: build the parameters, store them, and on success set the redirect
      to `/courses` and the stored course; a failure is forwarded. */
  method Create(v: Variant, ex: Exchange, body: Body, result: Settled<Doc>)
    modifies ex
    ensures ex.State() == CreateEffect(v, old(ex.State()), body, result)
  {
    var courseParams := CourseParams(v, body);
    if courseParams.None? {
      ex.nexts := ex.nexts + [Forward(ItemsMissing)];
      return;
    }
    ex.calls := ex.calls + [CreateDoc("courses", courseParams.value)];
    match result
    case Done(course) =>
      ex.locals := ex.locals.(redirect := Some("/courses"));
      ex.locals := ex.locals.(course := Some(course));
      ex.nexts := ex.nexts + [Continue];
    case Failed(e) =>
      ex.nexts := ex.nexts + [Forward(e)];
  }

  function UpdateEffect(v: Variant, s: ExState, id: string, body: Body, result: Settled<Doc>): ExState {
    match CourseParams(v, body)
    case None => s.(nexts := s.nexts + [Forward(ItemsMissing)])
    case Some(p) =>
      var s1 := s.(calls := s.calls + [UpdateDoc("courses", id, p)]);
      match result
      case Done(course) =>
        s1.(locals := s1.locals.(redirect := Some("/courses/" + id), course := Some(course)),
            nexts := s1.nexts + [Continue])
      case Failed(e) => s1.(nexts := s1.nexts + [Forward(e)])
  }

  /** `update`: `$set` the parameters on course `id`, then redirect to its page. */
  method Update(v: Variant, ex: Exchange, id: string, body: Body, result: Settled<Doc>)
    modifies ex
    ensures ex.State() == UpdateEffect(v, old(ex.State()), id, body, result)
  {
    var courseParams := CourseParams(v, body);
    if courseParams.None? {
      ex.nexts := ex.nexts + [Forward(ItemsMissing)];
      return;
    }
    ex.calls := ex.calls + [UpdateDoc("courses", id, courseParams.value)];
    match result
    case Done(course) =>
      ex.locals := ex.locals.(redirect := Some("/courses/" + id));
      ex.locals := ex.locals.(course := Some(course));
      ex.nexts := ex.nexts + [Continue];
    case Failed(e) =>
      ex.nexts := ex.nexts + [Forward(e)];
  }

  function DeleteEffect(v: Variant, s: ExState, id: string, result: Option<JsError>): ExState {
    var s1 := s.(calls := s.calls + [RemoveDoc("courses", id)]);
    match result
    case None => s1.(locals := s1.locals.(redirect := Some("/courses")), nexts := s1.nexts + [Continue])
    case Some(e) =>
      match v
      case Recipe => s1.(nexts := s1.nexts + [Continue])
      case Confetti => s1.(nexts := s1.nexts + [Forward(e)])
  }

  /** `delete`: remove course `id`; `result` is the removal's error, if any. */
  method Delete(v: Variant, ex: Exchange, id: string, result: Option<JsError>)
    modifies ex
    ensures ex.State() == DeleteEffect(v, old(ex.State()), id, result)
  {
    ex.calls := ex.calls + [RemoveDoc("courses", id)];
    if result.None? {
      ex.locals := ex.locals.(redirect := Some("/courses"));
      ex.nexts := ex.nexts + [Continue];
    } else if v == Recipe {
      ex.nexts := ex.nexts + [Continue];
    } else {
      ex.nexts := ex.nexts + [Forward(result.value)];
    }
  }

  /** Where each successful operation sends the browser. */
  lemma RedirectTargets(v: Variant, s: ExState, id: string, body: Body, course: Doc)
    requires v == Confetti || "items" in body
    ensures CreateEffect(v, s, body, Done(course)).locals.redirect == Some("/courses")
    ensures UpdateEffect(v, s, id, body, Done(course)).locals.redirect == Some("/courses/" + id)
    ensures DeleteEffect(v, s, id, None).locals.redirect == Some("/courses")
    ensures CreateEffect(v, s, body, Done(course)).locals.course == Some(course)
  {
  }

  /** A failed store call leaves the redirect as it was. A failed create or update
      is forwarded; a failed delete is forwarded only in the confetti application,
      while the recipe application carries on with a plain `next()`. */
  lemma FailuresKeepTheRedirect(v: Variant, s: ExState, id: string, body: Body, e: JsError)
    requires CourseParams(v, body).Some?
    ensures CreateEffect(v, s, body, Failed(e)).locals == s.locals
    ensures CreateEffect(v, s, body, Failed(e)).nexts == s.nexts + [Forward(e)]
    ensures UpdateEffect(v, s, id, body, Failed(e)).locals == s.locals
    ensures UpdateEffect(v, s, id, body, Failed(e)).nexts == s.nexts + [Forward(e)]
    ensures DeleteEffect(v, s, id, Some(e)).locals == s.locals
    ensures DeleteEffect(v, s, id, Some(e)).nexts ==
            s.nexts + [if v == Recipe then Continue else Forward(e)]
  {
  }

  /** The recipe form without `items` throws before anything is stored. */
  lemma MissingItemsStoresNothing(s: ExState, id: string, body: Body, result: Settled<Doc>)
    requires "items" !in body
    ensures CreateEffect(Recipe, s, body, result) == s.(nexts := s.nexts + [Forward(ItemsMissing)])
    ensures UpdateEffect(Recipe, s, id, body, result) == s.(nexts := s.nexts + [Forward(ItemsMissing)])
  {
  }

  // ---------------------------------------------------------------------------
  // JSON responses

  /** `errorJSON`: the recipe application puts status 500 in both branches and
      "Unknown Error" when there is no error; the confetti application puts 200
      and "Unknown Error." there. */
  function ErrorJson(v: Variant, error: Option<JsError>): (r: JsonBody)
    ensures r.ErrorBody?
    ensures error.Some? ==> r == ErrorBody(Http.INTERNAL_SERVER_ERROR, error.value.message)
    ensures error.None? && v == Recipe ==> r == ErrorBody(Http.INTERNAL_SERVER_ERROR, Some("Unknown Error"))
    ensures error.None? && v == Confetti ==> r == ErrorBody(Http.OK, Some("Unknown Error."))
  {
    match error
    case Some(e) => ErrorBody(Http.INTERNAL_SERVER_ERROR, e.message)
    case None =>
      match v
      case Recipe => ErrorBody(Http.INTERNAL_SERVER_ERROR, Some("Unknown Error"))
      case Confetti => ErrorBody(Http.OK, Some("Unknown Error."))
  }

  /** Only the recipe application always reports 500; the confetti one reports
      500 exactly when there is an error. */
  lemma ErrorJsonStatus(error: Option<JsError>)
    ensures ErrorJson(Recipe, error).status == Http.INTERNAL_SERVER_ERROR
    ensures ErrorJson(Confetti, error).status == Http.INTERNAL_SERVER_ERROR <==> error.Some?
    ensures ErrorJson(Recipe, error) != ErrorJson(Confetti, error) <==> error.None?
  {
  }

  method ErrorJSON(v: Variant, ex: Exchange, error: Option<JsError>)
    modifies ex
    ensures ex.State() == old(ex.State()).(responses := old(ex.responses) + [ErrorJson(v, error)])
  {
    ex.responses := ex.responses + [ErrorJson(v, error)];
  }

  /** `respondJSON`: `{status: 200, data: res.locals}`. */
  method RespondJSON(ex: Exchange)
    modifies ex
    ensures ex.State() == old(ex.State()).(responses := old(ex.responses) + [DataBody(Http.OK, old(ex.locals))])
  {
    ex.responses := ex.responses + [DataBody(Http.OK, ex.locals)];
  }

  // ---------------------------------------------------------------------------
  // join

  function JoinMessage(v: Variant): string {
    match v
    case Recipe => "User must login first"
    case Confetti => "User must log in."
  }

  /** `result` is the error of the `$addToSet` update, if it failed. An update for
      a user id with no document matches nothing and still succeeds. */
  function JoinEffect(v: Variant, s: ExState, courseId: string, result: Option<JsError>): ExState {
    match s.reqUser
    case None => s.(nexts := s.nexts + [Forward(Error(JoinMessage(v)))])
    case Some(u) =>
      var s1 := s.(calls := s.calls + [AddCourse(u, courseId)]);
      match result
      case Some(e) => s1.(nexts := s1.nexts + [Forward(e)])
      case None =>
        s1.(enrolment := if u in s1.enrolment then s1.enrolment[u := AddToSet(s1.enrolment[u], courseId)]
                         else s1.enrolment,
            locals := s1.locals.(success := true),
            nexts := s1.nexts + [Continue])
  }

  /** `join`: a logged-in user is added to the course's set; anyone else gets an error. */
  method Join(v: Variant, ex: Exchange, courseId: string, result: Option<JsError>)
    modifies ex
    ensures ex.State() == JoinEffect(v, old(ex.State()), courseId, result)
  {
    var currentUser := ex.reqUser;
    if currentUser.None? {
      ex.nexts := ex.nexts + [Forward(Error(JoinMessage(v)))];
      return;
    }
    var u := currentUser.value;
    ex.calls := ex.calls + [AddCourse(u, courseId)];
    if result.Some? {
      ex.nexts := ex.nexts + [Forward(result.value)];
      return;
    }
    if u in ex.enrolment {
      ex.enrolment := ex.enrolment[u := AddToSet(ex.enrolment[u], courseId)];
    }
    ex.locals := ex.locals.(success := true);
    ex.nexts := ex.nexts + [Continue];
  }

  /** Without a logged-in user nothing is called or changed and the error names
      the missing login. */
  lemma JoinNeedsUser(v: Variant, s: ExState, courseId: string, result: Option<JsError>)
    requires s.reqUser.None?
    ensures var t := JoinEffect(v, s, courseId, result);
      t.enrolment == s.enrolment && t.calls == s.calls && t.locals == s.locals &&
      t.nexts == s.nexts + [Forward(Error(JoinMessage(v)))]
    ensures JoinMessage(Recipe) == "User must login first" && JoinMessage(Confetti) == "User must log in."
  {
  }

  /** A successful join puts the course in the user's list exactly once, sets
      `success`, and leaves every other user's list alone. */
  lemma JoinAddsOnce(v: Variant, s: ExState, courseId: string)
    requires s.reqUser.Some? && s.reqUser.value in s.enrolment
    ensures var u, t := s.reqUser.value, JoinEffect(v, s, courseId, None);
      u in t.enrolment && courseId in t.enrolment[u] &&
      (NoDuplicates(s.enrolment[u]) ==> NoDuplicates(t.enrolment[u])) &&
      t.locals.success && t.nexts == s.nexts + [Continue] &&
      t.enrolment.Keys == s.enrolment.Keys &&
      (forall w :: w in s.enrolment && w != u ==> t.enrolment[w] == s.enrolment[w])
  {
    AddToSetIdempotent(s.enrolment[s.reqUser.value], courseId);
  }

  /** Joining the same course twice leaves the same lists as joining it once. */
  lemma JoinIsIdempotent(v: Variant, s: ExState, courseId: string)
    ensures JoinEffect(v, JoinEffect(v, s, courseId, None), courseId, None).enrolment ==
            JoinEffect(v, s, courseId, None).enrolment
  {
    if s.reqUser.Some? && s.reqUser.value in s.enrolment {
      AddToSetIdempotent(s.enrolment[s.reqUser.value], courseId);
    }
  }

  // ---------------------------------------------------------------------------
  // filterUserCourses

  /** `currentUser.courses.some(c => c.equals(course._id))`. */
  function AnyMatches(ids: seq<string>, course: Doc): (b: bool)
    ensures b <==> exists i :: 0 <= i < |ids| && Prop(course, "_id") == Some(Id(ids[i]))
  {
    if |ids| == 0 then false
    else Prop(course, "_id") == Some(Id(ids[0])) || AnyMatches(ids[1..], course)
  }

  /** Whether `user` has joined `course`: its `_id` is one of the user's course ids. */
  predicate Joined(user: User, course: Doc) {
    "_id" in course && course["_id"].Id? && course["_id"].hex in user.courses
  }

  /** The map over the courses: each becomes a copy of itself with `joined`. */
  function MarkJoined(user: User, courses: seq<Doc>): (r: seq<Doc>)
    ensures |r| == |courses|
    ensures forall i :: 0 <= i < |r| ==> r[i].Keys == courses[i].Keys + {"joined"}
    ensures forall i, k :: 0 <= i < |r| && k in courses[i] && k != "joined" ==> r[i][k] == courses[i][k]
    ensures forall i :: 0 <= i < |r| ==> r[i]["joined"] == Bool(Joined(user, courses[i]))
  {
    if |courses| == 0 then []
    else
      var course := courses[0];
      assert AnyMatches(user.courses, course) == Joined(user, course) by {
        if Joined(user, course) {
          var i :| 0 <= i < |user.courses| && user.courses[i] == course["_id"].hex;
          assert Prop(course, "_id") == Some(Id(user.courses[i]));
        }
      }
      [course["joined" := Bool(AnyMatches(user.courses, course))]] + MarkJoined(user, courses[1..])
  }

  function FilterEffect(s: ExState): ExState {
    match s.locals.currentUser
    case None => s.(nexts := s.nexts + [Continue])
    case Some(u) => s.(locals := s.locals.(courses := MarkJoined(u, s.locals.courses)), nexts := s.nexts + [Continue])
  }

  /** `filterUserCourses`. */
  method FilterUserCourses(ex: Exchange)
    modifies ex
    ensures ex.State() == FilterEffect(old(ex.State()))
  {
    var currentUser := ex.locals.currentUser;
    if currentUser.Some? {
      var mappedCourses := MarkJoined(currentUser.value, ex.locals.courses);
      ex.locals := ex.locals.(courses := mappedCourses);
    }
    ex.nexts := ex.nexts + [Continue];
  }

  /** Without a user the courses are untouched; always exactly one `next()`. */
  lemma FilterWithoutUser(s: ExState)
    requires s.locals.currentUser.None?
    ensures FilterEffect(s) == s.(nexts := s.nexts + [Continue])
  {
  }

  /** With a user, the courses keep their number and order, and a course is
      marked joined exactly when its id is among the user's. */
  lemma FilterWithUser(s: ExState, u: User)
    requires s.locals.currentUser == Some(u)
    ensures var out := FilterEffect(s).locals.courses;
      |out| == |s.locals.courses| &&
      (forall i :: 0 <= i < |out| ==>
         (out[i]["joined"] == Bool(true) <==>
          "_id" in s.locals.courses[i] && s.locals.courses[i]["_id"].Id? && s.locals.courses[i]["_id"].hex in u.courses))
    ensures FilterEffect(s).nexts == s.nexts + [Continue]
  {
  }
}
