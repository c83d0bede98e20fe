# A verified model of the hand-written servers and controllers of a Node.js teaching repository

This project models, in Dafny, the parts of a Node.js course repository whose
behaviour can be stated without a database, a web framework or a network:

- **The exact-match router.** Three lessons carry the same `router.js` and two
  carry its `contentTypes.js`. The router holds a `{GET: {}, POST: {}}` table
  that `get`/`post` fill in place. `handle` calls `routes[method][url]` inside a
  try/catch, and every failure answers 200 with the html error page. Module
  `Router` models this: a `Router` class whose two map fields the methods update,
  a pure `RouteTable` value, and `Dispatch`. `ContentTypes` is the header table.
- **The first `http` servers.** These are the four servers of lesson 6 (route
  map, views by name, static files by extension, and registrations with the
  router), the constant route map of lesson 5 and the page chain of the book's
  chapter 1. Their handlers are methods that drive a `ServerResponse` class.
  That class models Node's `writeHead`/`write`/`end`, including the exception a
  second `writeHead` raises. Each handler is proved to produce the outcome a pure
  function states. File contents and read errors are inputs (`Http.FileSystem`).
- **The Express controllers.** These are the courses controllers of lessons 27,
  28 and 29 and the subscribers and users controllers of lesson 29. Each handler
  is a method over an `Express.Exchange` object, which holds `req.user`,
  `req.skip`, the flash log, `res.locals`, the `next`/`redirect`/`json` calls, the
  document-store calls and the users' course-id lists that `$addToSet` changes.
  Each handler is proved equal to an effect function on an `ExState` snapshot.
  Results of the document store and of the auth plug-in are parameters
  (`Settled`: `Done(value)` or `Failed(error)`).

The two copies of the recipe courses controller (lessons 27 and 28) agree in
everything modelled. `Courses.Variant` distinguishes them, as `Recipe`, from the
lesson-29 confetti-cuisine controller.

Template literals of `undefined` read "undefined" (`Js.Show`). `indexOf`,
`split` with one separator and `join` are defined in `Js`, with their own
properties.

## Model

| member | source | states |
|---|---|---|
| Js.Prop | Classwork/unit_4/lesson21/confetti_cuisine/router.js:19 | a property read is defined exactly for keys present, and then yields that key's value |
| Js.IndexFrom | Classwork/unit_1/lesson6/main.js:90-105 | the result is -1 exactly when the needle occurs nowhere from the start position; otherwise it is an occurrence with none before it |
| Js.Split | Classwork/unit_6/lesson27/recipe_app/controllers/coursesController.js:48 | `split` with one separator yields at least one piece and no piece contains the separator |
| Js.JoinSplit | Classwork/unit_6/lesson27/recipe_app/controllers/coursesController.js:48 | joining the pieces of `split(",")` with the same separator gives the input back |
| Js.SplitJoin | Classwork/unit_6/lesson28/recipe_app/controllers/coursesController.js:51 | splitting a join of separator-free pieces gives the pieces back |
| Http.ContentType | Classwork/unit_4/lesson21/confetti_cuisine/contentTypes.js:8-13 | a header table entry has the single key `Content-Type` with the given MIME type |
| Http.ReadFile | Classwork/unit_1/lesson6/main.js:27 | a read yields data exactly when the file exists and is readable, and then its contents |
| Http.ServerResponse.WriteHead | Classwork/unit_1/lesson6/main.js:77-79 | `writeHead` succeeds only while the head is not yet stored, and sets status and headers; otherwise it throws and changes neither |
| Http.ServerResponse.Write | Classwork/unit_1/lesson6/main.js:28 | `write` appends its chunk unless the chunk is undefined or the response has ended, which throws |
| Http.ServerResponse.End | Classwork/unit_1/lesson6/main.js:29 | `end` appends its chunk once, finishes the response and stores the head; a second `end` adds nothing, and a second `end` with a non-empty chunk throws like a write after `end` |
| ContentTypes.Lookup | Classwork/unit_4/lesson21/confetti_cuisine/contentTypes.js:7-14 | exactly the six names html, text, js, css, jpg, png are defined, each to its single `Content-Type` header |
| ContentTypes.SixEntries | Classwork/unit_3/lesson16/confetti_cuisine/contentTypes.js:5-12 | the table has exactly the six keys |
| ContentTypes.SingleHeaderEntries | Classwork/unit_4/lesson21/confetti_cuisine/contentTypes.js:8-13 | every value is a one-entry header map whose only key is `Content-Type` |
| ContentTypes.ImageTypes | Classwork/unit_3/lesson16/confetti_cuisine/contentTypes.js:9-10 | jpg maps to `image/jpg` (not `image/jpeg`) and png to `image/png` |
| ContentTypes.Injective | Classwork/unit_4/lesson21/confetti_cuisine/contentTypes.js:8-13 | no two names share a MIME type |
| Router.Lookup | Classwork/unit_4/lesson21/confetti_cuisine/router.js:19 | `routes[method][url]` is undefined for a method other than GET and POST, and otherwise is that method's entry for the url, if any |
| Router.Dispatch | Classwork/unit_3/lesson16/confetti_cuisine/router.js:12-22 | a handler is invoked exactly when the lookup finds one that does not throw; every other request gets the error page |
| Router.Router.constructor | Classwork/unit_4/lesson21/confetti_cuisine/router.js:11 | both method tables start empty |
| Router.Router.Get | Classwork/unit_4/lesson21/confetti_cuisine/router.js:30-32 | `get` sets the GET entry for the url and changes nothing else |
| Router.Router.Post | Classwork/unit_3/lesson16/confetti_cuisine/router.js:30-32 | `post` sets the POST entry for the url and changes nothing else |
| Router.Router.Handle | Classwork/unit_5/Lesson25/confetti_cuisine/router.js:11-21 | `handle` answers what `Dispatch` specifies for the current tables |
| Router.EmptyTableFallsBack | Classwork/unit_5/Lesson25/confetti_cuisine/router.js:8 | before any registration every request falls back |
| Router.RegisteredRouteRuns | Classwork/unit_5/Lesson25/confetti_cuisine/router.js:25-27 | after registering a handler for (method, url), that exact request runs it, or falls back if it throws |
| Router.LastWriteWins | Classwork/unit_3/lesson16/confetti_cuisine/router.js:25-32 | registering the same (method, url) twice keeps only the later handler |
| Router.RegisterChangesOnlyItsEntry | Classwork/unit_4/lesson21/confetti_cuisine/router.js:30-39 | a registration changes no other method's entry and no other url's entry |
| Router.QueryStringIsPartOfTheUrl | Classwork/unit_4/lesson21/confetti_cuisine/router.js:19 | matching is on the literal url, so `/a?x=1` does not reach the handler of `/a` |
| Router.EveryFailureFallsBackTheSame | Classwork/unit_4/lesson21/confetti_cuisine/router.js:15-25 | a miss, an unknown method and a throwing handler all give status 200 (never 404), the html header and views/error.html |
| Router.BuildKeepsLatest | Classwork/unit_5/Lesson25/confetti_cuisine/router.js:25-33 | after any sequence of registrations a key has an entry exactly when some registration targeted it, and it is the last such registration's handler |
| Lesson6.RouteMapOutcome | Classwork/unit_1/lesson6/main.js:12-34 | only `/` is mapped, to views/index.html; every other url gets the sorry page, still with 200 text/html; a failed read crashes the handler |
| Lesson6.ServeRouteMap | Classwork/unit_1/lesson6/main.js:17-35 | the handler's writes produce the outcome `RouteMapOutcome` states |
| Lesson6.ViewUrl | Classwork/unit_1/lesson6/main.js:44-46 | the view path is `views`, the url, `.html`; its length is the url's plus 10 |
| Lesson6.ViewReply | Classwork/unit_1/lesson6/main.js:53-66 | a read error gives 404 with no headers and the not-found text; success gives 200 text/html with the contents |
| Lesson6.ServeView | Classwork/unit_1/lesson6/main.js:49-67 | the handler answers `ViewReply` and ends the response exactly once |
| Lesson6.Classify | Classwork/unit_1/lesson6/main.js:90-112 | the extension tests run in the order .html, .js, .css, .png and the first that holds decides |
| Lesson6.StaticReply | Classwork/unit_1/lesson6/main.js:76-137 | a known extension whose file exists and reads gets 200, that extension's header and the file from its folder; anything else gets 404 text/html and the not-found page |
| Lesson6.SendErrorResponse | Classwork/unit_1/lesson6/main.js:76-82 | on a fresh head it answers 404 text/html with the not-found page; once a head is stored it throws |
| Lesson6.CustomReadFileAsWritten | Classwork/unit_1/lesson6/main.js:123-137 | a readable file is sent under the head already written; a missing or unreadable file crashes the handler |
| Lesson6.ServeStaticAsWritten | Classwork/unit_1/lesson6/main.js:85-113 | the static server as written crashes wherever its intent is a 404 for a known extension |
| Lesson6.CustomReadFile | Classwork/unit_1/lesson6/main.js:123-137 | with the success head written after the read, a missing or unreadable file gets the 404 page; the response ends once |
| Lesson6.ServeStatic | Classwork/unit_1/lesson6/main.js:85-113 | the corrected static server answers `StaticReply` and ends the response once |
| Lesson6.AsWrittenCrashesOnMissingFiles | Classwork/unit_1/lesson6/main.js:91-92 | the server as written agrees with its intent except that it crashes exactly where the intent is a 404 for a known extension |
| Lesson6.MissingStylesheet | Classwork/unit_1/lesson6/main.js:100-102 | a request for a missing /site.css crashes as written and gets the 404 page when corrected |
| Lesson6.JsonIsScript | Classwork/unit_1/lesson6/main.js:95-97 | a url containing `.json` and no `.html` is served as JavaScript from public/js |
| Lesson6.BuiltTable | Classwork/unit_1/lesson6/main.js:163-176 | the three registrations give two GET entries and one POST entry |
| Lesson6.SetUpRouter | Classwork/unit_1/lesson6/main.js:162-176 | registering in the script's order builds the table `Build` gives for those registrations |
| Lesson6.RunRoute | Classwork/unit_1/lesson6/main.js:153-176 | GET / answers text/plain INDEX, POST / answers POSTED, /index.html answers the page (empty on a read error); each ends once |
| Lesson6.RouterScenario | Classwork/unit_1/lesson6/main.js:163-176 | GET / and POST / reach their own handlers, GET /index.html the page handler, and any other request falls back |
| SimpleRoutes.SimpleReply | Classwork/unit_1/lesson5/simple_routes/index.js:22-36 | every answer is 200 text/html; a key of the map gets exactly its snippet, any other url the welcome page |
| SimpleRoutes.Serve | Classwork/unit_1/lesson5/simple_routes/index.js:21-37 | the handler writes the head once and ends once, answering `SimpleReply` |
| SimpleRoutes.TruthyIsMembership | Classwork/unit_1/lesson5/simple_routes/index.js:5-28 | every mapped snippet is non-empty, so the truthiness test is key membership |
| SimpleRoutes.ErrorPageIsNotAnError | Classwork/unit_1/lesson5/simple_routes/index.js:10 | `/error` is an ordinary key answered with 200, and no url is answered with 404 |
| SimpleRoutes.TrailingCharactersMiss | Classwork/unit_1/lesson5/simple_routes/index.js:28 | `/info/` and `/info?x` get the welcome page |
| Chapter1.LoadPages | BeginningNodeExpressMongo/classroom/chapter1/index.js:8-17 | the server has pages only when all four files read at start-up, and they hold those files' contents |
| Chapter1.Chapter1Reply | BeginningNodeExpressMongo/classroom/chapter1/index.js:20-39 | /about, /contact and / get their page with 200; every other url gets 404 and the not-found page; no headers are set |
| Chapter1.Serve | BeginningNodeExpressMongo/classroom/chapter1/index.js:20-39 | the handler answers `Chapter1Reply`, calls `writeHead` only on the miss branch and ends once |
| Chapter1.ExactMatch | BeginningNodeExpressMongo/classroom/chapter1/index.js:23 | `/about/` and `/?x=1` are misses |
| Express.Field | Classwork/unit_6/lesson29/confetti_cuisine/confetti_cuisine/controllers/subscribersController.js:7-9 | `body.k` is undefined exactly when the field is absent, and otherwise is its string |
| Express.RedirectStep | Classwork/unit_6/lesson27/recipe_app/controllers/coursesController.js:133-137 | the `!== undefined` test redirects exactly when a path is set; the truthy test only when it is set and non-empty |
| Express.RedirectTestsDiffer | Classwork/unit_6/lesson29/confetti_cuisine/confetti_cuisine/controllers/coursesController.js:59-63 | the two tests disagree exactly on the empty path |
| Express.RedirectView | Classwork/unit_6/lesson29/confetti_cuisine/confetti_cuisine/controllers/subscribersController.js:67-71 | `redirectView` redirects or calls `next()` as `RedirectStep` says |
| Express.RedirectViewActsOnce | Classwork/unit_6/lesson29/confetti_cuisine/confetti_cuisine/controllers/usersController.js:67-71 | exactly one of a redirect and a `next()` happens and nothing else changes |
| Express.AddToSet | Classwork/unit_6/lesson27/recipe_app/controllers/coursesController.js:172-174 | `$addToSet` leaves a list holding the id unchanged and appends an absent id |
| Express.AddToSetIdempotent | Classwork/unit_6/lesson28/recipe_app/controllers/coursesController.js:194-196 | adding twice is adding once, and a duplicate-free list stays duplicate-free |
| Courses.Items | Classwork/unit_6/lesson27/recipe_app/controllers/coursesController.js:48 | `items` is a one-element list of comma-free pieces that join back to the input |
| Courses.ItemsOfJoin | Classwork/unit_6/lesson28/recipe_app/controllers/coursesController.js:51 | comma-free pieces joined by commas come back as the one element of `items` |
| Courses.RecipeParams | Classwork/unit_6/lesson27/recipe_app/controllers/coursesController.js:45-50 | the parameters are exactly title, description, items and zipCode; without `items` building them throws |
| Courses.GetCourseParams | Classwork/unit_6/lesson29/confetti_cuisine/confetti_cuisine/controllers/coursesController.js:10-15 | the parameters are exactly title, description, maxStudents and cost, copied from the body |
| Courses.GetCourseParamsIgnoresOtherFields | Classwork/unit_6/lesson29/confetti_cuisine/confetti_cuisine/controllers/coursesController.js:10-15 | bodies that agree on the four fields give the same parameters |
| Courses.Create | Classwork/unit_6/lesson27/recipe_app/controllers/coursesController.js:44-62 | create stores the parameters, then sets redirect `/courses` and the course, or forwards the failure |
| Courses.Update | Classwork/unit_6/lesson28/recipe_app/controllers/coursesController.js:108-127 | update stores the parameters for the id, then redirects to `/courses/<id>`, or forwards the failure |
| Courses.Delete | Classwork/unit_6/lesson29/confetti_cuisine/confetti_cuisine/controllers/coursesController.js:115-126 | delete removes the id; success redirects to `/courses`; a failure continues (recipe) or is forwarded (confetti) |
| Courses.RedirectTargets | Classwork/unit_6/lesson29/confetti_cuisine/confetti_cuisine/controllers/coursesController.js:44-126 | create and delete redirect to `/courses`, update to `/courses/<id>` |
| Courses.FailuresKeepTheRedirect | Classwork/unit_6/lesson27/recipe_app/controllers/coursesController.js:119-130 | a failed store call leaves `res.locals` unchanged; only the recipe delete swallows its error |
| Courses.MissingItemsStoresNothing | Classwork/unit_6/lesson28/recipe_app/controllers/coursesController.js:47-53 | a recipe form without `items` throws before any store call |
| Courses.ErrorJson | Classwork/unit_6/lesson29/confetti_cuisine/confetti_cuisine/controllers/coursesController.js:137-151 | an error gives 500 and its message; without one the recipe body is 500 "Unknown Error" and the confetti body 200 "Unknown Error." |
| Courses.ErrorJsonStatus | Classwork/unit_6/lesson28/recipe_app/controllers/coursesController.js:169-184 | the recipe body always reports 500; the confetti body reports 500 exactly when there is an error |
| Courses.ErrorJSON | Classwork/unit_6/lesson27/recipe_app/controllers/coursesController.js:149-164 | `errorJSON` sends the `ErrorJson` body and changes nothing else |
| Courses.RespondJSON | Classwork/unit_6/lesson28/recipe_app/controllers/coursesController.js:158-163 | `respondJSON` sends status 200 with the locals as data and changes nothing else |
| Courses.Join | Classwork/unit_6/lesson29/confetti_cuisine/confetti_cuisine/controllers/coursesController.js:171-188 | join logs the add-to-set for the logged-in user and applies it on success, or forwards the login error |
| Courses.JoinNeedsUser | Classwork/unit_6/lesson27/recipe_app/controllers/coursesController.js:180-182 | without a user nothing is called or changed and the error is "User must login first" / "User must log in." |
| Courses.JoinAddsOnce | Classwork/unit_6/lesson28/recipe_app/controllers/coursesController.js:193-199 | a successful join puts the course in the user's list, keeps it duplicate-free, sets success and leaves other users alone |
| Courses.JoinIsIdempotent | Classwork/unit_6/lesson27/recipe_app/controllers/coursesController.js:172-175 | joining the same course twice leaves the lists as joining once |
| Courses.AnyMatches | Classwork/unit_6/lesson29/confetti_cuisine/confetti_cuisine/controllers/coursesController.js:158-160 | `some` holds exactly when one of the user's ids equals the course's `_id` |
| Courses.MarkJoined | Classwork/unit_6/lesson27/recipe_app/controllers/coursesController.js:191-197 | the map keeps length and order; each course keeps its fields and gains `joined`, true exactly when its id is the user's |
| Courses.FilterUserCourses | Classwork/unit_6/lesson28/recipe_app/controllers/coursesController.js:212-226 | `filterUserCourses` replaces the courses by `MarkJoined` when there is a user, and always calls `next()` once |
| Courses.FilterWithoutUser | Classwork/unit_6/lesson29/confetti_cuisine/confetti_cuisine/controllers/coursesController.js:165-167 | without a user the courses are unchanged |
| Courses.FilterWithUser | Classwork/unit_6/lesson27/recipe_app/controllers/coursesController.js:186-203 | with a user, length is kept and `joined` is true exactly when the course id is in the user's list |
| Subscribers.GetSubscriberParams | Classwork/unit_6/lesson29/confetti_cuisine/confetti_cuisine/controllers/subscribersController.js:6-10 | the parameters are exactly name, email and zipCode, copied from the body |
| Subscribers.GetSubscriberParamsIgnoresOtherFields | Classwork/unit_6/lesson29/confetti_cuisine/confetti_cuisine/controllers/subscribersController.js:6-10 | bodies that agree on the three fields give the same parameters |
| Subscribers.CreateErrorMessage | Classwork/unit_6/lesson29/confetti_cuisine/confetti_cuisine/controllers/subscribersController.js:51-59 | code 11000 gives the duplicate message; otherwise a ValidationError joins its messages with ", "; anything else gets the generic prefix and the message |
| Subscribers.DuplicateKeyComesFirst | Classwork/unit_6/lesson29/confetti_cuisine/confetti_cuisine/controllers/subscribersController.js:52-53 | code 11000 wins whatever the error's name; a generic error without a message reads "undefined" |
| Subscribers.ValidationMessages | Classwork/unit_6/lesson29/confetti_cuisine/confetti_cuisine/controllers/subscribersController.js:54-56 | one validation message is flashed as is; two are joined by ", " |
| Subscribers.Create | Classwork/unit_6/lesson29/confetti_cuisine/confetti_cuisine/controllers/subscribersController.js:39-64 | create stores the parameters and flashes and redirects as `CreateEffect` says |
| Subscribers.CreateAlwaysContinues | Classwork/unit_6/lesson29/confetti_cuisine/confetti_cuisine/controllers/subscribersController.js:42-63 | every outcome flashes once and calls `next()` without an error; success goes to `/subscribers`, failure to `/subscribers/new` |
| Subscribers.Update | Classwork/unit_6/lesson29/confetti_cuisine/confetti_cuisine/controllers/subscribersController.js:106-120 | update stores the parameters for the id, then redirects to `/subscribers/<id>`, or forwards the failure |
| Subscribers.Delete | Classwork/unit_6/lesson29/confetti_cuisine/confetti_cuisine/controllers/subscribersController.js:123-134 | delete removes the id; success redirects to `/subscribers`; a failure continues with no redirect |
| Subscribers.RedirectTargets | Classwork/unit_6/lesson29/confetti_cuisine/confetti_cuisine/controllers/subscribersController.js:110-133 | update goes to `/subscribers/<id>`; a failed delete leaves the locals unchanged and continues without an error |
| Users.GetUserParams | Classwork/unit_6/lesson29/confetti_cuisine/confetti_cuisine/controllers/usersController.js:10-20 | first and last are nested under name; email, password and zipCode are copied; nothing else |
| Users.GetUserParamsShape | Classwork/unit_6/lesson29/confetti_cuisine/confetti_cuisine/controllers/usersController.js:10-20 | only the five form fields matter, and first/last do not appear at the top level |
| Users.Validate | Classwork/unit_6/lesson29/confetti_cuisine/confetti_cuisine/controllers/usersController.js:154-165 | the validation handler changes the state as `ValidateEffect` says |
| Users.ValidateOutcomes | Classwork/unit_6/lesson29/confetti_cuisine/confetti_cuisine/controllers/usersController.js:156-164 | for every list of failed checks the chain continues once; a non-empty list sets skip, flashes the messages joined by " and ", redirects to `/users/new` and changes nothing else; the empty list only continues |
| Users.RegisterAndRespond | Classwork/unit_6/lesson29/confetti_cuisine/confetti_cuisine/controllers/usersController.js:51-63 | registration logs the call; success flashes the name and redirects to `/users`, failure flashes the message and goes back to the form |
| Users.CreateAsWritten | Classwork/unit_6/lesson29/confetti_cuisine/confetti_cuisine/controllers/usersController.js:49-64 | create as written: a skipped request calls `next()` and still registers |
| Users.Create | Classwork/unit_6/lesson29/confetti_cuisine/confetti_cuisine/controllers/usersController.js:49-64 | create with the early return: a skipped request only calls `next()` |
| Users.CreateWhenValid | Classwork/unit_6/lesson29/confetti_cuisine/confetti_cuisine/controllers/usersController.js:53-62 | without a skip both versions agree: one registration, one `next()`, redirect `/users` or `/users/new` |
| Users.SkippedSignupStillRegisters | Classwork/unit_6/lesson29/confetti_cuisine/confetti_cuisine/controllers/usersController.js:50-57 | as written, a failed validation still registers the user, calls `next()` twice and replaces the redirect by `/users` |
| Users.SkippedSignupIsNotRegistered | Classwork/unit_6/lesson29/confetti_cuisine/confetti_cuisine/controllers/usersController.js:50 | corrected, a failed validation registers nothing, calls `next()` once and keeps the form redirect and flash |
| Users.Update | Classwork/unit_6/lesson29/confetti_cuisine/confetti_cuisine/controllers/usersController.js:106-119 | update stores the parameters for the id, then redirects to `/users/<id>`, or forwards the failure |
| Users.Delete | Classwork/unit_6/lesson29/confetti_cuisine/confetti_cuisine/controllers/usersController.js:122-133 | delete removes the id; success redirects to `/users`; a failure continues with no redirect |
| Users.Logout | Classwork/unit_6/lesson29/confetti_cuisine/confetti_cuisine/controllers/usersController.js:177-186 | logout forwards its error, or flashes the logged-out message and redirects to `/` |
| Users.RedirectTargets | Classwork/unit_6/lesson29/confetti_cuisine/confetti_cuisine/controllers/usersController.js:106-186 | update goes to `/users/<id>`, delete to `/users`, logout to `/`; a logout error is forwarded unchanged |
| Users.EmptyRedirect | Classwork/unit_6/lesson29/confetti_cuisine/confetti_cuisine/controllers/usersController.js:67-71 | the users' `!== undefined` test follows an empty path that the truthy test of the other lesson-29 controllers skips |

## Left out

- **Document store.** Mongoose calls (`find`, `findById`, `create`, `findByIdAndUpdate`, `findByIdAndRemove`) are foreign code. The model logs each call with its parameters and takes its settlement as an input. Only the `$addToSet` effect on a user's course list is modelled.
- **Read-only handlers.** `index`, `show`, `edit` and the view handlers only copy a store result into `res.locals` or render a template. Rendering is not modelled, so neither are these handlers.
- **Null results.** A `findById...` result of `null` (no such document) is not distinguished from a document.
- **Auth and validation plug-ins.** Passport (`User.register`, `authenticate`, `req.logout` clearing the session) and the express-validator checks are not modelled. Their outcome is an input: the registered user's `fullName` or error, the logout error, and the list of failed-check messages.
- **Flash, sessions and cookies.** The flash middleware appears only as a log of `(kind, message)` pairs.
- **Request processing and timing.** Console logging, `listen`, and the two-second `setTimeout` of the lesson-5 server are not modelled. That server is modelled as it is after the timer fires.
- **`utils.getFile`.** This is the router's file helper and is not part of this model. The fallback is modelled as the head it writes plus the name of the page it serves.
- **Handlers registered with the router.** These are opaque ids with a flag saying whether they throw synchronously. Partial writes before a throw are not modelled, and neither is what such a handler sends. So the rows about a throwing handler cover only handlers that throw before writing the head: one that calls `writeHead` and then throws makes the router's own `writeHead(200, …)` in its catch throw too, and that request crashes instead of getting the error page.
- **Lesson-6 script as a whole.** Line 143 reassigns the `const` `http`, so the script throws at that line before its router part runs. All its servers also listen on port 3000. Each server is therefore modelled on its own, and the router part as a scenario.
- **Inherited keys.** Properties inherited from `Object.prototype` (a url such as `/constructor` read from a plain-object table) are not modelled: tables are Dafny maps.
- **Request bodies.** Body fields are strings or absent. Nested or repeated fields of a parsed body are not modelled.
- **Chapter-1 page bodies.** These are Buffers, modelled as strings read once at start-up (`Chapter1.LoadPages`).
- Http.ServerResponse.Write: `write` is modelled to throw on `undefined` or after `end`, and `End` likewise throws for data after `end`. Node reports a write after end as an error event, which equally ends the handler's useful work.
- Users.Logout: Passport's own effect of the logout (clearing `req.user` and the session) is not stated.

## Findings

| source | as written | input that shows it | evidently intended | confidence | as-written member | corrected member |
|---|---|---|---|---|---|---|
| Classwork/unit_1/lesson6/main.js:91-92 | the static-file server writes the 200 head before `customReadFile`, whose error path calls `sendErrorResponse`, whose `writeHead(404)` then throws because the head is already stored | GET `/site.css` with no such file under public/css | a 404 text/html "File Not Found!" page for a missing or unreadable file | medium, not executed | Lesson6.ServeStaticAsWritten, Lesson6.MissingStylesheet | Lesson6.ServeStatic |
| Classwork/unit_6/lesson29/confetti_cuisine/confetti_cuisine/controllers/usersController.js:50 | `if (req.skip) next();` has no `return`, so a signup that failed validation is still registered and `next()` is called twice | a signup whose validation yields one message, followed by a registration that succeeds | `return next()`: a skipped request registers nothing and continues once | high, not executed | Users.CreateAsWritten, Users.SkippedSignupStillRegisters | Users.Create, Users.SkippedSignupIsNotRegistered |
