# MoodleApp-Backend in Dafny

A model of the backend that sits between a mobile Moodle client and a Moodle
site. The backend takes the user's Moodle token from the `Authorization`
header, forwards calls to Moodle's REST web services, stages assignment
files in Moodle's draft area, annotates the forums of a course with the
section they sit in, and offers username/password and Google sign-in.

The model covers:
- the credential extraction (`getUserAuth`);
- the web-service call (`moodleCall`);
- the e-mail check (`isEmailInMoodle`);
- the token gate (`requireAuth` and the inline middlewares);
- the assignment controller's parameter maps and its upload-then-commit sequence;
- the forum controller's section map and annotation;
- both Express servers: their route order against the token middleware, and their login, Google and save-file routes.

## How it is modelled

**Values.** JavaScript values are the datatype `JsValue.Value`. It has
`undefined`, `null`, booleans, integers, strings, arrays, and objects as
ordered property lists. The following are written out explicitly:
- truthiness and `||`;
- optional reads `v?.k`, and plain reads `v.k`, which throw the engine's TypeError on `null`/`undefined`;
- `String(v)`, object spread and property assignment;
- `String.prototype.trim`.

**Remote calls.** Every remote call is a `Remote.Call`:
- a web-service form post;
- a draft-area upload;
- a token request;
- a Google ID-token check.

A handler appends each call it makes to a trace. The remote side is an
oracle from the trace so far and the call to a `Reply`, which is either
resolved data or a rejection carrying an error. That is enough to state
"no call is made", "exactly one commit follows" and "the verifier is called
first".

**Handlers.** Each handler is a method with early returns. A function
(`...Spec`) gives its outcome: the response and the trace. The method's
postcondition ties it to that function, and the properties are lemmas
about the function.

**Inline copies.** `server.js` and `server-with-google.js` define their own
`getUserAuth` and `moodleCall` (server.js:30-56,
server-with-google.js:34-60). These are line for line those of
`helpers/moodle.js`, so one model, `MoodleHelpers`, stands for all three.
The inline save-file routes differ from the controller only in their reply
bodies. `Server.SaveFileRouteMatchesController` proves they make the same
calls and answer the same statuses.

**Simple routes.** The routes that only forward one call are
`Forwarding.Forward`, applied to the function, parameters and reply key
that `Server.ForwardedCall` gives for each route. These are contents,
status, save-text, submit, discussions, posts, reply and grades.

## Model

| member | source | states |
|---|---|---|
| MoodleHelpers.GetUserAuth | helpers/moodle.js:5-10 | no header or an empty one gives null; any other result is trimmed |
| MoodleHelpers.BearerHeaderYieldsRest | helpers/moodle.js:7 | a header starting with "Bearer " gives what follows the 7 characters, trimmed |
| MoodleHelpers.MissingHeaderYieldsNull | helpers/moodle.js:6-9 | an absent or empty header gives null |
| MoodleHelpers.OtherHeaderYieldsWholeTrimmed | helpers/moodle.js:7-8 | a non-empty header without the prefix is returned whole, trimmed |
| MoodleHelpers.PrefixTestedBeforeTrim | helpers/moodle.js:7-8 | the prefix is tested before trimming: " Bearer x" gives "Bearer x" |
| MoodleHelpers.PrefixIsCaseSensitive | helpers/moodle.js:7 | "bearer x" is not stripped |
| MoodleHelpers.BearerRoundTrip | helpers/moodle.js:7 | any trimmed non-empty token sent as "Bearer " + token comes back unchanged |
| MoodleHelpers.BareRoundTrip | helpers/moodle.js:8 | any trimmed non-empty token that does not start with "Bearer " comes back unchanged when sent bare |
| MoodleHelpers.HasTokenIff | helpers/moodle.js:14-15 | a token counts (is truthy) exactly when the header has a non-whitespace character after the optional prefix |
| JsString.TrimIsCore | helpers/moodle.js:7-8 | `trim` removes exactly the leading and trailing whitespace: the result is a slice with only spaces cut on both sides |
| JsString.TrimEmptyIffAllSpace | helpers/moodle.js:7-8 | `trim` gives "" exactly for all-whitespace strings |
| JsString.TrimIdempotent | helpers/moodle.js:7-8 | trimming twice is trimming once |
| JsValue.SetProp | helpers/moodle.js:18-23 | assigning a key sets it and leaves every other key's value unchanged |
| JsValue.SetPropKeys | controllers/forumsController.js:28-31 | an existing key keeps its place; a new key is added last |
| JsValue.AssignLookup | helpers/moodle.js:18-23 | in a spread, a key of the spread object takes its value from there, any other from the base |
| JsValue.AssignKeys | helpers/moodle.js:18-23 | a spread keeps the base's keys first and in order, adds only the spread keys, and keeps keys distinct |
| Remote.SerializeGet | helpers/moodle.js:18-25 | reading a key of the posted form gives the body's value for it converted by `String`, and nothing for a key the body lacks |
| MoodleHelpers.RpcBodyLookup | helpers/moodle.js:18-23 | the body's keys are the three fixed ones plus the params; a param overrides a fixed field of the same name |
| MoodleHelpers.RpcFormFields | helpers/moodle.js:18-23 | the form holds each param as a string, else wstoken = token, wsfunction, moodlewsrestformat = "json", and nothing else |
| MoodleHelpers.RpcFormFixedFirst | helpers/moodle.js:18-23 | the three fixed fields lead the form in their order, whatever the params |
| MoodleHelpers.MoodleCall | helpers/moodle.js:13-31 | the method's result and trace are those of `MoodleCallSpec` |
| MoodleHelpers.MoodleCallContract | helpers/moodle.js:14-30 | no usable token: fails with "Token no proporcionado" and sends nothing; otherwise exactly one form is posted; a truthy `exception` fails with `message`; any other reply is returned unchanged |
| MoodleHelpers.IsEmailInMoodle | helpers/moodle.js:34-64 | the method's result and trace are those of `IsEmailInMoodleSpec` |
| MoodleHelpers.EmailCheckFailsOpen | helpers/moodle.js:36-63 | no admin token: true with no call; a rejected call, `exception` or `errorcode`: true; for an array reply, truthy exactly when the array is non-empty |
| MoodleHelpers.EmailLookupFormFields | helpers/moodle.js:42-48 | the lookup posts the admin token, core_user_get_users_by_field, field = email and values[0] = the e-mail |
| AuthMiddleware.RequireAuthAdmitsExactly | middlewares/auth.js:4-9 | `next` exactly when a non-blank token is present; otherwise the 401 "Falta el token de sesión" reply and no `next` |
| AuthMiddleware.BlankCredentialsRejected | middlewares/auth.js:5-7 | no header, a blank header and "Bearer " plus spaces are all rejected with 401 |
| Forwarding.Forward | controllers/forumsController.js:40-49 | the method's response and trace are those of `ForwardSpec` |
| Forwarding.ForwardOutcome | controllers/assignmentsController.js:7-16 | at most one call; 200 with the data under its key exactly when the call succeeded; otherwise 500 with the error's message (a missing token is a 500 here) |
| Assignments.SaveTextForm | controllers/assignmentsController.js:22-27 | save-text sends assignmentid, the text, format 1 and itemid 0 under the user's token |
| Assignments.SubmitForm | controllers/assignmentsController.js:37-40 | submit sends mod_assign_submit_for_grading with assignmentid and acceptsubmissionstatement 1 |
| Assignments.CommitForm | controllers/assignmentsController.js:113-116 | the commit sends mod_assign_save_submission with plugindata[files_filemanager] = the item id |
| Assignments.ClassifyUpload | controllers/assignmentsController.js:97-110 | an upload reply succeeds exactly when it is a non-empty array whose first descriptor is not null; the result is then that descriptor's itemid |
| Assignments.UploadFailureClasses | controllers/assignmentsController.js:97-108 | an `error` field wins, tested before the array test; a reply that is not a non-empty array fails with `message` if `exception` is set, else with the generic draft-area message |
| Assignments.LaterDescriptorsIgnored | controllers/assignmentsController.js:110 | descriptors after the first do not change the outcome |
| Assignments.UploadAndCommit | controllers/assignmentsController.js:84-116 | the method's result and trace are those of `UploadAndCommitSpec` |
| Assignments.UploadThenCommitOnce | controllers/assignmentsController.js:90-116 | the upload comes first and once; exactly one save-submission call follows when the upload succeeded, none when it failed; it carries the first item id |
| Assignments.SaveAssignmentFile | controllers/assignmentsController.js:48-127 | the method's response and trace are those of `SaveAssignmentFileSpec` |
| Assignments.SaveAssignmentFileOutcome | controllers/assignmentsController.js:66-78 | token checked first (401 "Falta token"), then the file (400 "No se recibió archivo"), both with no call; then 200 exactly when upload and commit succeed, else 500 |
| Assignments.ControllerErrorMessagePreference | controllers/assignmentsController.js:123-125 | the error is the remote reply's `message`, else the error's message, else "Error desconocido" |
| Forums.SectionName | controllers/forumsController.js:19 | the name is never empty, and is "General" exactly for section 0 |
| Forums.BuildSectionMap | controllers/forumsController.js:17-25 | the nested loops end in the map, or the error, that `SectionMapOf` gives |
| Forums.OverlayLastWins | controllers/forumsController.js:18-25 | after writing pairs in order, a key is present iff some pair wrote it, and the last such pair decides its value |
| Forums.ModuleEntriesAreForums | controllers/forumsController.js:20-24 | a key is written exactly when some module with modname "forum" has that instance |
| Forums.AddModulesOverlay | controllers/forumsController.js:20-24 | the inner loop succeeds iff no module is null, and then writes exactly the forum modules' pairs in order |
| Forums.AddSectionsOverlay | controllers/forumsController.js:18-25 | the outer loop succeeds iff every section is well shaped, and then writes all their pairs in order |
| Forums.SectionMapSucceedsIff | controllers/forumsController.js:18-25 | the map is built exactly when the contents are an array of sections whose modules are arrays of non-null modules |
| Forums.SectionPairsAreForums | controllers/forumsController.js:18-24 | one section writes a key exactly when its modules are an array holding a forum module with that instance |
| Forums.SectionOverlayLastWins | controllers/forumsController.js:18-25 | a key no section writes keeps its old presence and value; otherwise it is present and holds the name of the last section holding a forum module with that instance |
| Forums.SectionMapLastWins | controllers/forumsController.js:18-25 | a key is mapped iff some section holds a forum module with that instance; its value is the name of the last such section and is never empty |
| Forums.Annotated | controllers/forumsController.js:28-31 | the annotated forum has sectionName = the mapped name or "Sin sección", and every other field as spread from the forum |
| Forums.AnnotateAll | controllers/forumsController.js:28-31 | same length and order as the forum list, each forum annotated; succeeds iff no forum is nullish |
| Forums.AnnotateAllStopsAtFirstNull | controllers/forumsController.js:28-31 | a failure is the TypeError for `id` of the first nullish forum |
| Forums.FalsyForumDataIsEmpty | controllers/forumsController.js:28 | null or absent forum data yields an empty list |
| Forums.AnnotatedForumShape | controllers/forumsController.js:28-31 | a forum keeps its fields and their order; sectionName is set last or overwritten in place; unmapped ids get "Sin sección" |
| Forums.SectionLabelValue | controllers/forumsController.js:30 | the label is the mapped name when there is a non-empty one, else "Sin sección" |
| Forums.GetCourseForums | controllers/forumsController.js:4-37 | the method's response and trace are those of `GetCourseForumsSpec` |
| Forums.GetCourseForumsCalls | controllers/forumsController.js:6-14 | without a token the handler answers 500 with no call; otherwise the contents call follows only a successful forums call |
| Forums.CourseForumsForms | controllers/forumsController.js:6-14 | the same course id is sent as courseids[0] and as courseid |
| Forums.GetCourseForumsSuccess | controllers/forumsController.js:17-33 | 200 exactly when both calls succeed, the contents are well shaped and the forums reply is falsy or an array of non-null forums; then one annotated forum per listed forum |
| Forums.ReplyForm | controllers/forumsController.js:68-74 | reply sends postid, subject, message, options[0][name] = "discussionsubscribe" and options[0][value] = "true" |
| Server.DispatchRoutes | server.js:105-289 | a stack of routes alone is handled by the matching route, else 404 |
| Server.DispatchAroundGate | server.js:98-103 | a route before the middleware needs no token; after it, no token means the 401 reply, a token means the route or 404 |
| Server.GatedStackRouting | server.js:98-103 | with the shared gated routes after the middleware: public routes always, gated routes only with a token, anything else 404 |
| Server.StandardRouting | server.js:60-103 | /health and /auth/login need no token; every later route needs one; the Google routes do not exist |
| Server.StandardGateBlocksWithoutToken | server.js:100-103 | without a token every route registered after the middleware answers the 401 and makes no call |
| Server.ContentsRouteSends | server.js:118-121 | `/course/:courseId/contents` sends core_course_get_contents with courseid = the route parameter and answers under `contents` |
| Server.StatusRouteSends | server.js:130-135 | `/assign/:assignId/status` sends mod_assign_get_submission_status with assignid = the route parameter and answers under `status` |
| Server.SaveTextRouteSends | server.js:142-151 | `/assign/:assignId/save-text` sends mod_assign_save_submission with assignmentid = the route parameter and the body's text as the online text, answering under `result` |
| Server.SubmitRouteSends | server.js:158-164 | `/assign/:assignId/submit` sends mod_assign_submit_for_grading with assignmentid = the route parameter, answering under `result` |
| Server.DiscussionsRouteSends | server.js:222-225 | `/forum/:forumId/discussions` sends mod_forum_get_forum_discussions with forumid = the route parameter and answers under `discussions` |
| Server.PostsRouteSends | server.js:231-234 | `/discussion/:discussionId/posts` sends mod_forum_get_discussion_posts with discussionid = the route parameter and answers under `posts` |
| Server.ReplyRouteSends | server.js:241-253 | `/forum/reply` sends mod_forum_add_discussion_post with the body's postid, subject and message, answering under `result` |
| Server.GradesRouteSends | server.js:260-263 | `/course/:courseId/grades` sends gradereport_user_get_grade_items with courseid = the route parameter and answers under `grades` |
| Server.ForwardedRoutesOnly | server.js:60-289 | a route is a plain forward exactly when it is none of /health, the login routes, /courses, save-file and /file |
| Server.StandardSaveFileNeverOwn401 | server.js:172-175 | the save-file handler is reached only with a token, so its own 401 cannot occur |
| Server.SaveFileStatusWithToken | server.js:172-218 | with a token the save-file route never answers 401 |
| Server.MoodleService | server.js:25 | the service is the configured name when it is non-empty, else "app_movil" |
| Server.MoodleLogin | server.js:68-81 | the method's outcome and trace are those of `MoodleLoginSpec` |
| Server.Login | server.js:63-96 | the method's response and trace are those of `LoginSpec` |
| Server.LoginTokenError | server.js:69-81 | the token request comes first; a token reply with `error` is a 401 with that error and no site-info call; otherwise the one site-info call is for the returned token |
| Server.MoodleLoginTrace | server.js:69-81 | the site-info request follows exactly when the token reply has no `error` and is not nullish; an `error` reply refuses the login |
| Server.SiteInfoFormFields | server.js:76-80 | the site-info request sends only the token, core_webservice_get_site_info and json |
| Server.LoginSuccessShape | server.js:83-92 | success returns the token; the user's id, full name and avatar come from site info, and the e-mail is the submitted username |
| Server.ListCourses | server.js:106-115 | the method's response and trace are those of `CoursesSpec` |
| Server.CoursesShape | server.js:111 | the reply's `courses`, or [] when absent or falsy; a null reply is a 500 TypeError |
| Server.SaveFileRoute | server.js:172-218 | the method's response and trace are those of `SaveFileRouteSpec` |
| Server.SaveFileRouteMatchesController | server.js:172-218 | the inline route and the controller make the same calls and answer the same status, with the same body on success |
| ServerWithGoogle.GoogleRouting | server-with-google.js:64-211 | the four auth routes need no token; every route after the middleware needs one |
| ServerWithGoogle.GoogleLogin | server-with-google.js:107-148 | the method's response and trace are those of `GoogleLoginSpec` |
| ServerWithGoogle.GoogleLoginOutcome | server-with-google.js:111-147 | a missing idToken is a 400 with no verifier call; otherwise one call; any failure is the fixed 500; success always has requiresLinking true and the Google e-mail, name and picture |
| ServerWithGoogle.GoogleLoginBodyFields | server-with-google.js:131-141 | the success body carries requiresLinking true, the Google user fields and the linking prompt |
| ServerWithGoogle.LinkGoogle | server-with-google.js:151-203 | the method's response and trace are those of `LinkGoogleSpec` |
| ServerWithGoogle.LinkGoogleOutcome | server-with-google.js:155-199 | the verifier comes first and Moodle only after it succeeds; a Moodle token `error` is the 401 "Credenciales de Moodle incorrectas"; on success the e-mail falls back to the username, the avatar to the Google picture, and linkedToGoogle is true |
| ServerWithGoogle.LinkBodyFields | server-with-google.js:188-199 | the link body's user has the `||` fallbacks for e-mail and avatar, the Google e-mail and linkedToGoogle true |
| ServerWithGoogle.ServersAgreeOnGatedRoutes | server-with-google.js:205-377 | both servers answer every route other than /health and the Google routes identically |

## Left out

- The `/file` download proxy and controllers/filesController.js are left out: URL decoding and parsing and response streaming are foreign calls and I/O. `Server.SharedHandler` answers `None` for that route.
- helpers/google.js is not part of this model; it is file I/O and `JSON.parse`.
- config/env.js is not part of this model. The values it provides become parameters:
  - the service name (`Server.MoodleService`);
  - the Google client id (`audience`);
  - the admin token.
- The HTTP transport is left out: axios, the URLs built from `MOODLE_BASE`, request headers, CORS, the JSON body limit and multer's parsing. A remote call is only its `Call` record and the oracle's `Reply`.
- The `FormData` that the upload route builds in place is represented by the token and file of the `Upload` call.
- The percent-encoding of `URLSearchParams` is left out. A form is the ordered list of key/value strings it encodes.
- JSON serialization of response bodies is left out: fields whose value is `undefined` are dropped when sent. Bodies are modelled as values before serialization.
- Express's default 404 page is left out: its body is `Undefined` in the model.
- Numbers are integers only; non-integer numbers and NaN are not modelled. `getCourseForums` takes the course id after `parseInt`, and its corner cases are not modelled.
- In real JavaScript objects, integer-like keys are ordered before the others. The model keeps plain insertion order.
- Inherited prototype keys are left out. A forum id such as "constructor" would read an inherited function from `sectionMap`, and a module instance "__proto__" would not be stored as a key (the write replaces the prototype) while a later read of it returns `Object.prototype`. The model's map is a plain dictionary holding exactly the keys the loops wrote.
- MoodleHelpers.PositiveLength: `length > 0` is modelled for numbers and booleans only. Other values, whose comparison goes through numeric conversion, count as not positive.
- `console.log`/`console.error` output is left out.
- Concurrent requests are left out. Each request is modelled on its own, with the trace of calls made before it.
- The destructuring of `req.body` is modelled with the body as an object, which is what the JSON parser leaves.
- Forums.GetCourseForumsSuccess states only that each listed forum has a `sectionName`. The full shape of each forum is in `Forums.AnnotatedForumShape` and `Forums.Annotated`.
