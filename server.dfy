/**
 * server.js: the stand-alone server. Its inline `getUserAuth` and
 * `moodleCall` (server.js:30-56) are the helpers of helpers/moodle.js line for
 * line, so they are modelled once, in MoodleHelpers. This module models the
 * order of the route stack against the token middleware, the `/auth/login`
 * handler, `/courses`, the inline save-file route, and which remote call each
 * remaining route forwards.
 */
module Server {
  import opened Wrappers
  import opened JsValue
  import opened Remote
  import opened MoodleHelpers
  import opened AuthMiddleware
  import opened Forwarding
  import opened Assignments
  import opened Forums

  const SiteInfo: string := "core_webservice_get_site_info"
  const EnrolledCourses: string := "core_course_get_enrolled_courses_by_timeline_classification"
  const DefaultService: string := "app_movil"

  // ----- the route stack -----

  /** The routes of both servers, each a method and a path. */
  datatype Endpoint =
    | Health            // GET  /health
    | AuthLogin         // POST /auth/login
    | AuthGoogle        // POST /auth/google
    | AuthLinkGoogle    // POST /auth/link-google-moodle
    | Courses           // GET  /courses
    | CourseContents    // GET  /course/:courseId/contents
    | AssignStatus      // GET  /assign/:assignId/status
    | AssignSaveText    // POST /assign/:assignId/save-text
    | AssignSubmit      // POST /assign/:assignId/submit
    | AssignSaveFile    // POST /assign/:assignId/save-file
    | ForumDiscussions  // GET  /forum/:forumId/discussions
    | DiscussionPosts   // GET  /discussion/:discussionId/posts
    | ForumReply        // POST /forum/reply
    | CourseGrades      // GET  /course/:courseId/grades
    | FileProxy         // GET  /file

  /** What `app.get/post` and `app.use` register, in registration order. */
  datatype Layer = Route(endpoint: Endpoint) | TokenGate

  datatype Dispatched = Handled(endpoint: Endpoint) | GateRejected(response: Response) | NotFound

  /** Express walks the stack in order: the first route that matches handles
      the request; the token middleware answers 401 or passes the request on. */
  function Dispatch(stack: seq<Layer>, e: Endpoint, authorization: Option<string>): Dispatched
    decreases |stack|
  {
    if |stack| == 0 then NotFound
    else
      match stack[0]
      case Route(r) => if r == e then Handled(e) else Dispatch(stack[1..], e, authorization)
      case TokenGate =>
        match RequireAuth(authorization)
        case Reject(reply) => GateRejected(reply)
        case Next => Dispatch(stack[1..], e, authorization)
  }

  /** The routes every server registers after its token middleware. */
  const GatedRoutes: seq<Layer> :=
    [Route(Courses), Route(CourseContents), Route(AssignStatus), Route(AssignSaveText),
     Route(AssignSubmit), Route(AssignSaveFile), Route(ForumDiscussions), Route(DiscussionPosts),
     Route(ForumReply), Route(CourseGrades), Route(FileProxy)]

  predicate IsGated(e: Endpoint) {
    Route(e) in GatedRoutes
  }

  const StandardStack: seq<Layer> := [Route(Health), Route(AuthLogin), TokenGate] + GatedRoutes

  lemma {:induction false} DispatchRoutes(routes: seq<Layer>, e: Endpoint, authorization: Option<string>)
    requires forall i :: 0 <= i < |routes| ==> routes[i].Route?
    ensures Dispatch(routes, e, authorization) == if Route(e) in routes then Handled(e) else NotFound
    decreases |routes|
  {
    if |routes| > 0 {
      DispatchRoutes(routes[1..], e, authorization);
      assert forall l :: l in routes <==> l == routes[0] || l in routes[1..];
    }
  }

  /** A stack of routes, a token middleware, then more routes: a route before
      the middleware is reached without a token; everything after it is
      reached only through the gate. */
  lemma {:induction false} DispatchAroundGate(pre: seq<Layer>, post: seq<Layer>, e: Endpoint,
                                              authorization: Option<string>)
    requires forall i :: 0 <= i < |pre| ==> pre[i].Route?
    requires forall i :: 0 <= i < |post| ==> post[i].Route?
    ensures Dispatch(pre + [TokenGate] + post, e, authorization) ==
            if Route(e) in pre then Handled(e)
            else if RequireAuth(authorization).Reject? then GateRejected(MissingSessionReply)
            else if Route(e) in post then Handled(e)
            else NotFound
    decreases |pre|
  {
    if |pre| == 0 {
      assert pre + [TokenGate] + post == [TokenGate] + post;
      assert ([TokenGate] + post)[1..] == post;
      DispatchRoutes(post, e, authorization);
      RequireAuthAdmitsExactly(authorization);
    } else {
      assert (pre + [TokenGate] + post)[1..] == pre[1..] + [TokenGate] + post;
      DispatchAroundGate(pre[1..], post, e, authorization);
      assert forall l :: l in pre <==> l == pre[0] || l in pre[1..];
    }
  }

  /** Public routes, the token middleware, then the gated routes: the
      dispatch as the token decides it. */
  lemma GatedStackRouting(pre: seq<Layer>, e: Endpoint, authorization: Option<string>)
    requires forall i :: 0 <= i < |pre| ==> pre[i].Route?
    ensures Dispatch(pre + [TokenGate] + GatedRoutes, e, authorization) ==
            if Route(e) in pre then Handled(e)
            else if !HasToken(GetUserAuth(authorization)) then GateRejected(MissingSessionReply)
            else if IsGated(e) then Handled(e)
            else NotFound
  {
    DispatchAroundGate(pre, GatedRoutes, e, authorization);
  }

  /** In server.js `/health` and `/auth/login` need no token; every other
      route answers 401 without one; the Google routes do not exist (404). */
  lemma StandardRouting(e: Endpoint, authorization: Option<string>)
    ensures var d := Dispatch(StandardStack, e, authorization);
            ((e == Health || e == AuthLogin) ==> d == Handled(e)) &&
            (e != Health && e != AuthLogin ==>
               d == if !HasToken(GetUserAuth(authorization)) then GateRejected(MissingSessionReply)
                    else if IsGated(e) then Handled(e) else NotFound)
  {
    var pre := [Route(Health), Route(AuthLogin)];
    assert StandardStack == pre + [TokenGate] + GatedRoutes;
    assert Route(e) in pre <==> e == Health || e == AuthLogin;
    GatedStackRouting(pre, e, authorization);
  }

  // ----- /auth/login -----

  /** `process.env.MOODLE_SERVICE || "app_movil"` */
  function MoodleService(env: Option<string>): (service: string)
    ensures service != ""
    ensures env.Some? && env.value != "" ==> service == env.value
  {
    if env.Some? && env.value != "" then env.value else DefaultService
  }

  /** The site-info body, built directly (not through `moodleCall`). */
  function SiteInfoForm(token: Value): Form {
    Serialize([("wstoken", token), ("wsfunction", Str(SiteInfo)), ("moodlewsrestformat", Str("json"))])
  }

  function LoginBody(token: Value, info: Value, username: Value): Value {
    Obj([("ok", Bool(true)), ("token", token), ("user", LoginUser(info, username))])
  }

  function LoginUser(info: Value, username: Value): Value {
    Obj([("id", Field(info, "userid")), ("fullname", Field(info, "fullname")),
         ("email", username), ("avatar", Field(info, "userpictureurl"))])
  }

  /** How the Moodle login of `/auth/login` and `/auth/link-google-moodle`
      ends: the token reply carried `error`, something threw, or both
      requests went through. */
  datatype LoginOutcome = TokenRefused(error: Value) | LoginFailed(e: JsError) | LoggedIn(token: Value, info: Value)

  /** A token request, then a site-info request for the token it returned. */
  function MoodleLoginSpec(remote: Oracle, trace: seq<Call>, username: Value, password: Value,
                           service: string): Step<LoginOutcome>
  {
    var tr := TokenRequest(username, password, service);
    var t1 := trace + [tr];
    match remote(trace, tr)
    case Rejected(e) => Step(LoginFailed(e), t1)
    case Resolved(tokenData) =>
      if Truthy(Field(tokenData, "error")) then Step(TokenRefused(Field(tokenData, "error")), t1)
      else
        match Get(tokenData, "token")
        case Err(e) => Step(LoginFailed(e), t1)
        case Ok(token) =>
          var si := Rpc(SiteInfoForm(token));
          var t2 := t1 + [si];
          match remote(t1, si)
          case Rejected(e) => Step(LoginFailed(e), t2)
          case Resolved(info) =>
            match Get(info, "userid")
            case Err(e) => Step(LoginFailed(e), t2)
            case Ok(_) => Step(LoggedIn(token, info), t2)
  }

  method MoodleLogin(remote: Oracle, trace: seq<Call>, username: Value, password: Value, service: string)
    returns (outcome: LoginOutcome, trace': seq<Call>)
    ensures Step(outcome, trace') == MoodleLoginSpec(remote, trace, username, password, service)
  {
    var tr := TokenRequest(username, password, service);
    trace' := trace + [tr];
    var reply := remote(trace, tr);
    if reply.Rejected? {
      return LoginFailed(reply.error), trace';
    }
    var tokenData := reply.data;
    if Truthy(Field(tokenData, "error")) {
      return TokenRefused(Field(tokenData, "error")), trace';
    }
    var token := Get(tokenData, "token");
    if token.Err? {
      return LoginFailed(token.error), trace';
    }
    var si := Rpc(SiteInfoForm(token.value));
    var before := trace';
    trace' := trace' + [si];
    var infoReply := remote(before, si);
    if infoReply.Rejected? {
      return LoginFailed(infoReply.error), trace';
    }
    var info := infoReply.data;
    var id := Get(info, "userid");
    if id.Err? {
      return LoginFailed(id.error), trace';
    }
    outcome := LoggedIn(token.value, info);
  }

  /** `/auth/login`. */
  function LoginSpec(remote: Oracle, trace: seq<Call>, username: Value, password: Value,
                     service: string): Step<Response>
  {
    var s := MoodleLoginSpec(remote, trace, username, password, service);
    match s.out
    case TokenRefused(error) => Step(Response(401, ErrorBody(error)), s.trace)
    case LoginFailed(e) => Step(Fail500(e), s.trace)
    case LoggedIn(token, info) => Step(Response(200, LoginBody(token, info, username)), s.trace)
  }

  method Login(remote: Oracle, trace: seq<Call>, username: Value, password: Value, service: string)
    returns (res: Response, trace': seq<Call>)
    ensures Step(res, trace') == LoginSpec(remote, trace, username, password, service)
  {
    var outcome;
    outcome, trace' := MoodleLogin(remote, trace, username, password, service);
    match outcome {
      case TokenRefused(error) => res := Response(401, ErrorBody(error));
      case LoginFailed(e) => res := Fail500(e);
      case LoggedIn(token, info) => res := Response(200, LoginBody(token, info, username));
    }
  }

  /** A token reply carrying `error` is answered 401 with that error, and no
      site-info call is made; otherwise, when the token can be read, exactly
      one site-info call follows, for that token. */
  lemma LoginTokenError(remote: Oracle, trace: seq<Call>, username: Value, password: Value, service: string)
    ensures var tr := TokenRequest(username, password, service);
            var s := LoginSpec(remote, trace, username, password, service);
            var r := remote(trace, tr);
            |s.trace| >= |trace| + 1 && s.trace[..|trace| + 1] == trace + [tr] &&
            (r.Resolved? && Truthy(Field(r.data, "error")) ==>
               s == Step(Response(401, ErrorBody(Field(r.data, "error"))), trace + [tr])) &&
            (r.Resolved? && !Truthy(Field(r.data, "error")) && !Nullish(r.data) ==>
               s.trace == trace + [tr, Rpc(SiteInfoForm(Field(r.data, "token")))])
  {
    var tr := TokenRequest(username, password, service);
    var r := remote(trace, tr);
    MoodleLoginTrace(remote, trace, username, password, service);
    if r.Resolved? && !Truthy(Field(r.data, "error")) && !Nullish(r.data) {
      TraceExtends(trace, [tr, Rpc(SiteInfoForm(Field(r.data, "token")))]);
    } else {
      TraceExtends(trace, [tr]);
    }
  }

  /** The Moodle login makes the token request, then the site-info request
      only when the token reply has no `error` and is not nullish. */
  lemma MoodleLoginTrace(remote: Oracle, trace: seq<Call>, username: Value, password: Value, service: string)
    ensures var tr := TokenRequest(username, password, service);
            var s := MoodleLoginSpec(remote, trace, username, password, service);
            var r := remote(trace, tr);
            s.trace == (if r.Resolved? && !Truthy(Field(r.data, "error")) && !Nullish(r.data)
                        then trace + [tr, Rpc(SiteInfoForm(Field(r.data, "token")))]
                        else trace + [tr]) &&
            (r.Resolved? && Truthy(Field(r.data, "error")) ==> s.out == TokenRefused(Field(r.data, "error")))
  {
    var tr := TokenRequest(username, password, service);
    var r := remote(trace, tr);
    if r.Resolved? && !Truthy(Field(r.data, "error")) && !Nullish(r.data) {
      assert trace + [tr] + [Rpc(SiteInfoForm(Field(r.data, "token")))] ==
             trace + [tr, Rpc(SiteInfoForm(Field(r.data, "token")))];
    }
  }

  /** A login that goes through holds the token read from the token reply and
      the site-info reply, after exactly the two requests. */
  lemma MoodleLoginSucceeded(remote: Oracle, trace: seq<Call>, username: Value, password: Value, service: string)
    ensures var tr := TokenRequest(username, password, service);
            var s := MoodleLoginSpec(remote, trace, username, password, service);
            s.out.LoggedIn? ==>
              var si := Rpc(SiteInfoForm(s.out.token));
              remote(trace, tr).Resolved? && s.out.token == Field(remote(trace, tr).data, "token") &&
              s.trace == trace + [tr] + [si] &&
              remote(trace + [tr], si).Resolved? && s.out.info == remote(trace + [tr], si).data
  {
  }

  /** The site-info request sends the token (as a string), the function name
      and the JSON format, and nothing else. */
  lemma SiteInfoFormFields(token: Value)
    ensures var form := SiteInfoForm(token);
            |form| == 3 &&
            FormGet(form, "wstoken") == Some(ToStr(token)) &&
            FormGet(form, "wsfunction") == Some(SiteInfo) &&
            FormGet(form, "moodlewsrestformat") == Some("json")
  {
    var form := SiteInfoForm(token);
    FormGetAt(form, 0);
    FormGetAt(form, 1);
    FormGetAt(form, 2);
  }

  /** A successful login answers the token, the site-info id, full name and
      picture, and the SUBMITTED username as e-mail. The site-info reply is not
      checked for `exception`: a fault reply still gives 200. */
  lemma LoginSuccessShape(remote: Oracle, trace: seq<Call>, username: Value, password: Value, service: string)
    ensures var s := LoginSpec(remote, trace, username, password, service);
            s.out.status == 200 ==>
              var tokenData := remote(trace, TokenRequest(username, password, service)).data;
              var token := Field(tokenData, "token");
              var info := remote(trace + [TokenRequest(username, password, service)], Rpc(SiteInfoForm(token))).data;
              var user := Field(s.out.body, "user");
              !Nullish(info) &&
              Field(s.out.body, "token") == token &&
              Field(user, "id") == Field(info, "userid") &&
              Field(user, "fullname") == Field(info, "fullname") &&
              Field(user, "email") == username &&
              Field(user, "avatar") == Field(info, "userpictureurl")
  {
    var s := LoginSpec(remote, trace, username, password, service);
    if s.out.status == 200 {
      var tokenData := remote(trace, TokenRequest(username, password, service)).data;
      var token := Field(tokenData, "token");
      var info := remote(trace + [TokenRequest(username, password, service)], Rpc(SiteInfoForm(token))).data;
      assert s.out.body == LoginBody(token, info, username);
      LoginBodyFields(token, info, username);
    }
  }

  lemma LoginBodyFields(token: Value, info: Value, username: Value)
    ensures var body := LoginBody(token, info, username);
            var user := Field(body, "user");
            Field(body, "ok") == Bool(true) &&
            Field(body, "token") == token &&
            Field(user, "id") == Field(info, "userid") &&
            Field(user, "fullname") == Field(info, "fullname") &&
            Field(user, "email") == username &&
            Field(user, "avatar") == Field(info, "userpictureurl")
  {
    var body := LoginBody(token, info, username);
    assert body.props[0].0[0] == 'o' && body.props[1].0[0] == 't' && body.props[2].0[0] == 'u';
    assert DistinctKeys(body.props);
    LookupAt(body.props, 0);
    LookupAt(body.props, 1);
    LookupAt(body.props, 2);
    LoginUserFields(info, username);
  }

  lemma LoginUserFields(info: Value, username: Value)
    ensures var user := LoginUser(info, username);
            Field(user, "id") == Field(info, "userid") &&
            Field(user, "fullname") == Field(info, "fullname") &&
            Field(user, "email") == username &&
            Field(user, "avatar") == Field(info, "userpictureurl")
  {
    var userProps := LoginUser(info, username).props;
    assert userProps[0].0[0] == 'i' && userProps[1].0[0] == 'f';
    assert userProps[2].0[0] == 'e' && userProps[3].0[0] == 'a';
    assert DistinctKeys(userProps);
    LookupAt(userProps, 0);
    LookupAt(userProps, 1);
    LookupAt(userProps, 2);
    LookupAt(userProps, 3);
  }

  // ----- /courses -----

  function CoursesSpec(remote: Oracle, trace: seq<Call>, authorization: Option<string>): Step<Response> {
    var s := MoodleCallSpec(remote, trace, authorization, EnrolledCourses, [("classification", Str("inprogress"))]);
    match s.out
    case Err(e) => Step(Fail500(e), s.trace)
    case Ok(data) =>
      match Get(data, "courses")
      case Err(e) => Step(Fail500(e), s.trace)
      case Ok(courses) => Step(Response(200, OkBody("courses", Or(courses, Arr([])))), s.trace)
  }

  method ListCourses(remote: Oracle, trace: seq<Call>, authorization: Option<string>)
    returns (res: Response, trace': seq<Call>)
    ensures Step(res, trace') == CoursesSpec(remote, trace, authorization)
  {
    var data;
    data, trace' := MoodleCall(remote, trace, authorization, EnrolledCourses, [("classification", Str("inprogress"))]);
    if data.Err? {
      return Fail500(data.error), trace';
    }
    var courses := Get(data.value, "courses");
    if courses.Err? {
      return Fail500(courses.error), trace';
    }
    res := Response(200, OkBody("courses", Or(courses.value, Arr([]))));
  }

  /** `/courses` answers the reply's `courses`, or an empty list when that is
      absent or falsy; a null reply makes reading `courses` throw (500). */
  lemma CoursesShape(remote: Oracle, trace: seq<Call>, authorization: Option<string>)
    ensures var s := CoursesSpec(remote, trace, authorization);
            var c := MoodleCallSpec(remote, trace, authorization, EnrolledCourses, [("classification", Str("inprogress"))]);
            s.trace == c.trace &&
            (c.out.Ok? && !Nullish(c.out.value) ==>
               s.out == Response(200, OkBody("courses",
                          if Truthy(Field(c.out.value, "courses")) then Field(c.out.value, "courses") else Arr([])))) &&
            (c.out.Ok? && Nullish(c.out.value) ==>
               s.out == Fail500(TypeErrorReading(c.out.value, "courses"))) &&
            (c.out.Err? ==> s.out == Fail500(c.out.error))
  {
  }

  // ----- the inline save-file route -----

  /** server.js's copy of the save-file handler: the same sequence as the
      controller, but its early replies carry no `ok` field and its 500 reply
      carries only `e.message`. */
  function SaveFileRouteSpec(remote: Oracle, trace: seq<Call>, authorization: Option<string>,
                             file: Option<File>, assignId: Value): Step<Response>
  {
    var token := GetUserAuth(authorization);
    if !HasToken(token) then Step(Response(401, Obj([("error", Str("Falta token"))])), trace)
    else if file.None? then Step(Response(400, Obj([("error", Str("No se recibió archivo"))])), trace)
    else
      var s := UploadAndCommitSpec(remote, trace, authorization, token.value, file.value, assignId);
      match s.out
      case Ok(result) => Step(Response(200, OkBody("result", result)), s.trace)
      case Err(e) => Step(Fail500(e), s.trace)
  }

  method SaveFileRoute(remote: Oracle, trace: seq<Call>, authorization: Option<string>,
                       file: Option<File>, assignId: Value)
    returns (res: Response, trace': seq<Call>)
    ensures Step(res, trace') == SaveFileRouteSpec(remote, trace, authorization, file, assignId)
  {
    var token := GetUserAuth(authorization);
    if !HasToken(token) {
      return Response(401, Obj([("error", Str("Falta token"))])), trace;
    }
    if file.None? {
      return Response(400, Obj([("error", Str("No se recibió archivo"))])), trace;
    }
    var r;
    r, trace' := UploadAndCommit(remote, trace, authorization, token.value, file.value, assignId);
    match r {
      case Ok(result) => res := Response(200, OkBody("result", result));
      case Err(e) => res := Fail500(e);
    }
  }

  /** The inline route and the controller make the same calls in the same
      order and answer with the same status; on success the same body. */
  lemma SaveFileRouteMatchesController(remote: Oracle, trace: seq<Call>, authorization: Option<string>,
                                       file: Option<File>, assignId: Value)
    ensures var a := SaveFileRouteSpec(remote, trace, authorization, file, assignId);
            var b := SaveAssignmentFileSpec(remote, trace, authorization, file, assignId);
            a.trace == b.trace && a.out.status == b.out.status &&
            (a.out.status == 200 ==> a.out.body == b.out.body)
  {
  }

  // ----- the whole server -----

  /** What a request carries that the handlers read: the Authorization header,
      the route parameter, the parsed JSON body (an object once the JSON
      parser has run) and the uploaded file. */
  datatype Request = Request(authorization: Option<string>, param: string, body: Props, file: Option<File>)

  /** The routes that only forward one call: its function, params and reply key. */
  function ForwardedCall(e: Endpoint, req: Request): Option<(string, Props, string)> {
    match e
    case CourseContents => Some((GetContents, [("courseid", Str(req.param))], "contents"))
    case AssignStatus => Some(("mod_assign_get_submission_status", StatusParams(Str(req.param)), "status"))
    case AssignSaveText => Some((SaveSubmission, SaveTextParams(Str(req.param), Lookup(req.body, "text")), "result"))
    case AssignSubmit => Some((SubmitForGrading, SubmitParams(Str(req.param)), "result"))
    case ForumDiscussions => Some(("mod_forum_get_forum_discussions", [("forumid", Str(req.param))], "discussions"))
    case DiscussionPosts => Some(("mod_forum_get_discussion_posts", [("discussionid", Str(req.param))], "posts"))
    case ForumReply =>
      Some((AddDiscussionPost,
            ReplyParams(Lookup(req.body, "postid"), Lookup(req.body, "subject"), Lookup(req.body, "message")),
            "result"))
    case CourseGrades => Some(("gradereport_user_get_grade_items", [("courseid", Str(req.param))], "grades"))
    case _ => None
  }

  /** Forwarded call `c` names `wsfunction`, sends `id` under `idKey`, and
      answers under `replyKey`. */
  predicate SendsId(token: string, c: (string, Props, string), wsfunction: string, idKey: string, id: string,
                    replyKey: string)
  {
    c.0 == wsfunction && c.2 == replyKey &&
    FormGet(RpcForm(token, c.0, c.1), "wsfunction") == Some(wsfunction) &&
    FormGet(RpcForm(token, c.0, c.1), idKey) == Some(id)
  }

  /** A one-parameter call sends its function name and its route parameter. */
  lemma OneParamSent(token: string, wsfunction: string, key: string, id: string, replyKey: string)
    requires key != "wsfunction"
    ensures SendsId(token, (wsfunction, [(key, Str(id))], replyKey), wsfunction, key, id, replyKey)
  {
    var p := [(key, Str(id))];
    assert DistinctKeys(p);
    ParamSent(token, wsfunction, p, 0);
    assert Keys(p) == [key];
    RpcFormFields(token, wsfunction, p, "wsfunction");
  }

  /** `/courses/:id/contents` forwards the course id and answers under `contents`. */
  lemma ContentsRouteSends(token: string, req: Request)
    ensures ForwardedCall(CourseContents, req).Some? &&
            SendsId(token, ForwardedCall(CourseContents, req).value, "core_course_get_contents", "courseid",
                    req.param, "contents")
  {
    assert ForwardedCall(CourseContents, req) == Some((GetContents, [("courseid", Str(req.param))], "contents"));
    OneParamSent(token, GetContents, "courseid", req.param, "contents");
  }

  /** `/assignments/:id/status` forwards the assignment id and answers under `status`. */
  lemma StatusRouteSends(token: string, req: Request)
    ensures ForwardedCall(AssignStatus, req).Some? &&
            SendsId(token, ForwardedCall(AssignStatus, req).value, "mod_assign_get_submission_status", "assignid",
                    req.param, "status")
  {
    assert ForwardedCall(AssignStatus, req) ==
           Some(("mod_assign_get_submission_status", [("assignid", Str(req.param))], "status"));
    OneParamSent(token, "mod_assign_get_submission_status", "assignid", req.param, "status");
  }

  /** `/forums/:id/discussions` forwards the forum id and answers under `discussions`. */
  lemma DiscussionsRouteSends(token: string, req: Request)
    ensures ForwardedCall(ForumDiscussions, req).Some? &&
            SendsId(token, ForwardedCall(ForumDiscussions, req).value, "mod_forum_get_forum_discussions", "forumid",
                    req.param, "discussions")
  {
    assert ForwardedCall(ForumDiscussions, req) ==
           Some(("mod_forum_get_forum_discussions", [("forumid", Str(req.param))], "discussions"));
    OneParamSent(token, "mod_forum_get_forum_discussions", "forumid", req.param, "discussions");
  }

  /** `/discussions/:id/posts` forwards the discussion id and answers under `posts`. */
  lemma PostsRouteSends(token: string, req: Request)
    ensures ForwardedCall(DiscussionPosts, req).Some? &&
            SendsId(token, ForwardedCall(DiscussionPosts, req).value, "mod_forum_get_discussion_posts", "discussionid",
                    req.param, "posts")
  {
    assert ForwardedCall(DiscussionPosts, req) ==
           Some(("mod_forum_get_discussion_posts", [("discussionid", Str(req.param))], "posts"));
    OneParamSent(token, "mod_forum_get_discussion_posts", "discussionid", req.param, "posts");
  }

  /** `/courses/:id/grades` forwards the course id and answers under `grades`. */
  lemma GradesRouteSends(token: string, req: Request)
    ensures ForwardedCall(CourseGrades, req).Some? &&
            SendsId(token, ForwardedCall(CourseGrades, req).value, "gradereport_user_get_grade_items", "courseid",
                    req.param, "grades")
  {
    assert ForwardedCall(CourseGrades, req) ==
           Some(("gradereport_user_get_grade_items", [("courseid", Str(req.param))], "grades"));
    OneParamSent(token, "gradereport_user_get_grade_items", "courseid", req.param, "grades");
  }

  /** `/assignments/:id/save-text` forwards the assignment id and the body's
      text as the online-text plugin's text, answering under `result`. */
  lemma SaveTextRouteSends(token: string, req: Request)
    ensures ForwardedCall(AssignSaveText, req).Some?
    ensures var c := ForwardedCall(AssignSaveText, req).value;
            SendsId(token, c, SaveSubmission, "assignmentid", req.param, "result") &&
            FormGet(RpcForm(token, c.0, c.1), OnlineTextKey) == Some(ToStr(Lookup(req.body, "text")))
  {
    SaveTextForm(token, Str(req.param), Lookup(req.body, "text"));
  }

  /** `/assignments/:id/submit` forwards the assignment id, answering under `result`. */
  lemma SubmitRouteSends(token: string, req: Request)
    ensures ForwardedCall(AssignSubmit, req).Some? &&
            SendsId(token, ForwardedCall(AssignSubmit, req).value, SubmitForGrading, "assignmentid", req.param,
                    "result")
  {
    SubmitForm(token, Str(req.param));
  }

  /** `/forums/reply` forwards the body's post id, subject and message,
      answering under `result`. */
  lemma ReplyRouteSends(token: string, req: Request)
    ensures ForwardedCall(ForumReply, req).Some?
    ensures var c := ForwardedCall(ForumReply, req).value;
            SendsId(token, c, AddDiscussionPost, "postid", ToStr(Lookup(req.body, "postid")), "result") &&
            FormGet(RpcForm(token, c.0, c.1), "subject") == Some(ToStr(Lookup(req.body, "subject"))) &&
            FormGet(RpcForm(token, c.0, c.1), "message") == Some(ToStr(Lookup(req.body, "message")))
  {
    var postId, subject, message := Lookup(req.body, "postid"), Lookup(req.body, "subject"), Lookup(req.body, "message");
    var p := ReplyParams(postId, subject, message);
    assert ForwardedCall(ForumReply, req) == Some((AddDiscussionPost, p, "result"));
    ReplyForm(token, postId, subject, message);
    var form := RpcForm(token, AddDiscussionPost, p);
    assert FormGet(form, "wsfunction") == Some(AddDiscussionPost);
    assert FormGet(form, "postid") == Some(ToStr(postId));
  }

  /** Exactly the eight routes above are plain forwards; every other route
      has a handler of its own. */
  lemma ForwardedRoutesOnly(req: Request, e: Endpoint)
    ensures ForwardedCall(e, req).None? <==>
            e in {Health, AuthLogin, AuthGoogle, AuthLinkGoogle, Courses, AssignSaveFile, FileProxy}
  {
  }

  function HealthReply(mode: string): Response {
    Response(200, Obj([("ok", Bool(true)), ("mode", Str(mode))]))
  }

  /** The handlers both servers share (all but `/health` and the Google
      routes). `None` for `/file`, which is not part of this model. */
  function SharedHandler(remote: Oracle, trace: seq<Call>, service: string, e: Endpoint,
                         req: Request): Option<Step<Response>>
  {
    match e
    case AuthLogin =>
      Some(LoginSpec(remote, trace, Lookup(req.body, "username"), Lookup(req.body, "password"), service))
    case Courses => Some(CoursesSpec(remote, trace, req.authorization))
    case AssignSaveFile => Some(SaveFileRouteSpec(remote, trace, req.authorization, req.file, Str(req.param)))
    case _ =>
      match ForwardedCall(e, req)
      case Some(c) => Some(ForwardSpec(remote, trace, req.authorization, c.0, c.1, c.2))
      case None => None
  }

  /** server.js answering one request. A 404 is Express's default page, whose
      body is not modelled. */
  function ServeStandard(remote: Oracle, trace: seq<Call>, service: string, e: Endpoint,
                         req: Request): Option<Step<Response>>
  {
    match Dispatch(StandardStack, e, req.authorization)
    case NotFound => Some(Step(Response(404, Undefined), trace))
    case GateRejected(reply) => Some(Step(reply, trace))
    case Handled(h) =>
      if h == Health then Some(Step(HealthReply("standard-auth"), trace))
      else SharedHandler(remote, trace, service, h, req)
  }

  /** Without a token, every route but `/health` and `/auth/login` answers the
      middleware's 401 and makes no remote call. */
  lemma StandardGateBlocksWithoutToken(remote: Oracle, trace: seq<Call>, service: string, e: Endpoint,
                                       req: Request)
    ensures e != Health && e != AuthLogin && !HasToken(GetUserAuth(req.authorization)) ==>
              ServeStandard(remote, trace, service, e, req) == Some(Step(MissingSessionReply, trace))
  {
    if e != Health && e != AuthLogin && !HasToken(GetUserAuth(req.authorization)) {
      StandardRouting(e, req.authorization);
      assert Dispatch(StandardStack, e, req.authorization) == GateRejected(MissingSessionReply);
    }
  }

  /** A request that reaches the save-file handler always has a token, so the
      handler's own 401 cannot happen behind the middleware. */
  lemma StandardSaveFileNeverOwn401(remote: Oracle, trace: seq<Call>, service: string, req: Request)
    ensures HasToken(GetUserAuth(req.authorization)) ==>
              var s := SaveFileRouteSpec(remote, trace, req.authorization, req.file, Str(req.param));
              ServeStandard(remote, trace, service, AssignSaveFile, req) == Some(s) && s.out.status != 401
  {
    if HasToken(GetUserAuth(req.authorization)) {
      StandardRouting(AssignSaveFile, req.authorization);
      assert IsGated(AssignSaveFile);
      assert Dispatch(StandardStack, AssignSaveFile, req.authorization) == Handled(AssignSaveFile);
      SharedSaveFile(remote, trace, service, req);
      SaveFileStatusWithToken(remote, trace, req.authorization, req.file, Str(req.param));
    }
  }

  lemma SharedSaveFile(remote: Oracle, trace: seq<Call>, service: string, req: Request)
    ensures SharedHandler(remote, trace, service, AssignSaveFile, req) ==
            Some(SaveFileRouteSpec(remote, trace, req.authorization, req.file, Str(req.param)))
  {
  }

  lemma SaveFileStatusWithToken(remote: Oracle, trace: seq<Call>, authorization: Option<string>,
                                file: Option<File>, assignId: Value)
    requires HasToken(GetUserAuth(authorization))
    ensures SaveFileRouteSpec(remote, trace, authorization, file, assignId).out.status != 401
  {
  }
}
