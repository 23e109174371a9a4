/**
 * server-with-google.js: the same server as server.js (its inline helpers,
 * server-with-google.js:34-60, are again those of helpers/moodle.js), with two
 * more routes registered before the token middleware: `/auth/google`, which
 * checks a Google ID token, and `/auth/link-google-moodle`, which checks one
 * and then logs in to Moodle. The Google verifier is a remote call like the
 * others: `VerifyIdToken(idToken, audience)` resolves to the token's payload
 * or rejects.
 */
module ServerWithGoogle {
  import opened Wrappers
  import opened JsValue
  import opened Remote
  import opened MoodleHelpers
  import opened AuthMiddleware
  import opened Server

  const MissingGoogleToken: string := "Token de Google no proporcionado"
  const GoogleCheckFailed: string := "Error verificando token de Google"
  const BadMoodleCredentials: string := "Credenciales de Moodle incorrectas"
  const LinkPrompt: string :=
    "Autenticación con Google exitosa. Ahora ingresa tu usuario y contraseña de Moodle."

  const GoogleStack: seq<Layer> :=
    [Route(Health), Route(AuthLogin), Route(AuthGoogle), Route(AuthLinkGoogle), TokenGate] + GatedRoutes

  /** The four authentication routes need no token; every other route
      answers 401 without one. */
  lemma GoogleRouting(e: Endpoint, authorization: Option<string>)
    ensures var d := Dispatch(GoogleStack, e, authorization);
            var public := e == Health || e == AuthLogin || e == AuthGoogle || e == AuthLinkGoogle;
            (public ==> d == Handled(e)) &&
            (!public ==>
               d == if !HasToken(GetUserAuth(authorization)) then GateRejected(MissingSessionReply)
                    else if IsGated(e) then Handled(e) else NotFound)
  {
    var pre := [Route(Health), Route(AuthLogin), Route(AuthGoogle), Route(AuthLinkGoogle)];
    assert GoogleStack == pre + [TokenGate] + GatedRoutes;
    assert Route(e) in pre <==> e == Health || e == AuthLogin || e == AuthGoogle || e == AuthLinkGoogle;
    GatedStackRouting(pre, e, authorization);
  }

  // ----- /auth/google -----

  const GoogleFailure: Response := Response(500, ErrorBody(Str(GoogleCheckFailed)))

  function GoogleUser(payload: Value): Value {
    Obj([("email", Field(payload, "email")), ("name", Field(payload, "name")), ("picture", Field(payload, "picture"))])
  }

  function GoogleLoginBody(payload: Value): Value {
    Obj([("ok", Bool(true)), ("requiresLinking", Bool(true)), ("googleUser", GoogleUser(payload)),
         ("message", Str(LinkPrompt))])
  }

  /** `/auth/google`, with `audience` the configured client id. */
  function GoogleLoginSpec(remote: Oracle, trace: seq<Call>, idToken: Value, audience: Value): Step<Response> {
    if !Truthy(idToken) then Step(Response(400, ErrorBody(Str(MissingGoogleToken))), trace)
    else
      var v := VerifyIdToken(idToken, audience);
      match remote(trace, v)
      case Rejected(_) => Step(GoogleFailure, trace + [v])
      case Resolved(payload) =>
        if Nullish(payload) then Step(GoogleFailure, trace + [v])
        else Step(Response(200, GoogleLoginBody(payload)), trace + [v])
  }

  method GoogleLogin(remote: Oracle, trace: seq<Call>, idToken: Value, audience: Value)
    returns (res: Response, trace': seq<Call>)
    ensures Step(res, trace') == GoogleLoginSpec(remote, trace, idToken, audience)
  {
    if !Truthy(idToken) {
      return Response(400, ErrorBody(Str(MissingGoogleToken))), trace;
    }
    var v := VerifyIdToken(idToken, audience);
    trace' := trace + [v];
    var ticket := remote(trace, v);
    if ticket.Rejected? || Nullish(ticket.data) {
      return GoogleFailure, trace';
    }
    res := Response(200, GoogleLoginBody(ticket.data));
  }

  lemma GoogleLoginBodyFields(payload: Value)
    ensures var body := GoogleLoginBody(payload);
            var user := Field(body, "googleUser");
            Field(body, "ok") == Bool(true) &&
            Field(body, "requiresLinking") == Bool(true) &&
            Field(body, "message") == Str(LinkPrompt) &&
            Field(user, "email") == Field(payload, "email") &&
            Field(user, "name") == Field(payload, "name") &&
            Field(user, "picture") == Field(payload, "picture")
  {
    var body := GoogleLoginBody(payload);
    assert body.props[0].0[0] == 'o' && body.props[1].0[0] == 'r';
    assert body.props[2].0[0] == 'g' && body.props[3].0[0] == 'm';
    assert DistinctKeys(body.props);
    LookupAt(body.props, 0);
    LookupAt(body.props, 1);
    LookupAt(body.props, 2);
    LookupAt(body.props, 3);
    GoogleUserFields(payload);
  }

  lemma GoogleUserFields(payload: Value)
    ensures var user := GoogleUser(payload);
            Field(user, "email") == Field(payload, "email") &&
            Field(user, "name") == Field(payload, "name") &&
            Field(user, "picture") == Field(payload, "picture")
  {
    var user := GoogleUser(payload);
    assert user.props[0].0[0] == 'e' && user.props[1].0[0] == 'n' && user.props[2].0[0] == 'p';
    assert DistinctKeys(user.props);
    LookupAt(user.props, 0);
    LookupAt(user.props, 1);
    LookupAt(user.props, 2);
  }

  /** A missing (falsy) ID token is a 400 and the verifier is not called;
      otherwise the verifier is called exactly once, any failure of it is the
      fixed 500, and success always asks for linking and echoes the Google
      e-mail, name and picture. */
  lemma GoogleLoginOutcome(remote: Oracle, trace: seq<Call>, idToken: Value, audience: Value)
    ensures var s := GoogleLoginSpec(remote, trace, idToken, audience);
            var v := VerifyIdToken(idToken, audience);
            (!Truthy(idToken) ==> s == Step(Response(400, ErrorBody(Str(MissingGoogleToken))), trace)) &&
            (Truthy(idToken) ==>
               s.trace == trace + [v] &&
               (s.out.status == 200 <==> remote(trace, v).Resolved? && !Nullish(remote(trace, v).data)) &&
               (s.out.status != 200 ==> s.out == GoogleFailure) &&
               (s.out.status == 200 ==>
                  var payload := remote(trace, v).data;
                  var user := Field(s.out.body, "googleUser");
                  Field(s.out.body, "requiresLinking") == Bool(true) &&
                  Field(user, "email") == Field(payload, "email") &&
                  Field(user, "name") == Field(payload, "name") &&
                  Field(user, "picture") == Field(payload, "picture")))
  {
    var v := VerifyIdToken(idToken, audience);
    if Truthy(idToken) && remote(trace, v).Resolved? && !Nullish(remote(trace, v).data) {
      GoogleLoginBodyFields(remote(trace, v).data);
    }
  }

  // ----- /auth/link-google-moodle -----

  function LinkUser(info: Value, username: Value, payload: Value): Value {
    Obj([("id", Field(info, "userid")), ("fullname", Field(info, "fullname")),
         ("email", Or(Field(info, "useremail"), username)),
         ("avatar", Or(Field(info, "userpictureurl"), Field(payload, "picture"))),
         ("googleEmail", Field(payload, "email")), ("linkedToGoogle", Bool(true))])
  }

  function LinkBody(token: Value, info: Value, username: Value, payload: Value): Value {
    Obj([("ok", Bool(true)), ("token", token), ("user", LinkUser(info, username, payload))])
  }

  /** `/auth/link-google-moodle`: verify, read the Google e-mail, then the
      Moodle login. */
  function LinkGoogleSpec(remote: Oracle, trace: seq<Call>, idToken: Value, username: Value, password: Value,
                          audience: Value, service: string): Step<Response>
  {
    var v := VerifyIdToken(idToken, audience);
    var t1 := trace + [v];
    match remote(trace, v)
    case Rejected(e) => Step(Fail500(e), t1)
    case Resolved(payload) =>
      if Nullish(payload) then Step(Fail500(TypeErrorReading(payload, "email")), t1)
      else
        var s := MoodleLoginSpec(remote, t1, username, password, service);
        match s.out
        case TokenRefused(_) => Step(Response(401, ErrorBody(Str(BadMoodleCredentials))), s.trace)
        case LoginFailed(e) => Step(Fail500(e), s.trace)
        case LoggedIn(token, info) => Step(Response(200, LinkBody(token, info, username, payload)), s.trace)
  }

  method LinkGoogle(remote: Oracle, trace: seq<Call>, idToken: Value, username: Value, password: Value,
                    audience: Value, service: string)
    returns (res: Response, trace': seq<Call>)
    ensures Step(res, trace') == LinkGoogleSpec(remote, trace, idToken, username, password, audience, service)
  {
    var v := VerifyIdToken(idToken, audience);
    trace' := trace + [v];
    var ticket := remote(trace, v);
    if ticket.Rejected? {
      return Fail500(ticket.error), trace';
    }
    var payload := ticket.data;
    var googleEmail := Get(payload, "email");
    if googleEmail.Err? {
      return Fail500(googleEmail.error), trace';
    }
    assert !Nullish(payload);
    var outcome;
    outcome, trace' := MoodleLogin(remote, trace', username, password, service);
    assert LinkGoogleSpec(remote, trace, idToken, username, password, audience, service) ==
           match outcome
           case TokenRefused(_) => Step(Response(401, ErrorBody(Str(BadMoodleCredentials))), trace')
           case LoginFailed(e) => Step(Fail500(e), trace')
           case LoggedIn(token, info) => Step(Response(200, LinkBody(token, info, username, payload)), trace');
    match outcome {
      case TokenRefused(_) => res := Response(401, ErrorBody(Str(BadMoodleCredentials)));
      case LoginFailed(e) => res := Fail500(e);
      case LoggedIn(token, info) => res := Response(200, LinkBody(token, info, username, payload));
    }
  }

  lemma LinkBodyFields(token: Value, info: Value, username: Value, payload: Value)
    ensures var body := LinkBody(token, info, username, payload);
            var user := Field(body, "user");
            Field(body, "token") == token &&
            Field(user, "id") == Field(info, "userid") &&
            Field(user, "email") == (if Truthy(Field(info, "useremail")) then Field(info, "useremail") else username) &&
            Field(user, "avatar") ==
              (if Truthy(Field(info, "userpictureurl")) then Field(info, "userpictureurl") else Field(payload, "picture")) &&
            Field(user, "googleEmail") == Field(payload, "email") &&
            Field(user, "linkedToGoogle") == Bool(true)
  {
    var body := LinkBody(token, info, username, payload);
    assert body.props[0].0[0] == 'o' && body.props[1].0[0] == 't' && body.props[2].0[0] == 'u';
    assert DistinctKeys(body.props);
    LookupAt(body.props, 1);
    LookupAt(body.props, 2);
    LinkUserFields(info, username, payload);
  }

  lemma LinkUserFields(info: Value, username: Value, payload: Value)
    ensures var user := LinkUser(info, username, payload);
            Field(user, "id") == Field(info, "userid") &&
            Field(user, "email") == (if Truthy(Field(info, "useremail")) then Field(info, "useremail") else username) &&
            Field(user, "avatar") ==
              (if Truthy(Field(info, "userpictureurl")) then Field(info, "userpictureurl") else Field(payload, "picture")) &&
            Field(user, "googleEmail") == Field(payload, "email") &&
            Field(user, "linkedToGoogle") == Bool(true)
  {
    var user := LinkUser(info, username, payload);
    assert user.props[0].0[0] == 'i' && user.props[1].0[0] == 'f' && user.props[2].0[0] == 'e';
    assert user.props[3].0[0] == 'a' && user.props[4].0[0] == 'g' && user.props[5].0[0] == 'l';
    assert DistinctKeys(user.props);
    LookupAt(user.props, 0);
    LookupAt(user.props, 2);
    LookupAt(user.props, 3);
    LookupAt(user.props, 4);
    LookupAt(user.props, 5);
  }

  /** The link route calls the verifier first and Moodle only after a good
      verification; a Moodle token reply with `error` is the fixed 401 with no
      site-info call; success falls back to the username for the e-mail and to
      the Google picture for the avatar, and marks the account as linked. */
  lemma LinkGoogleOutcome(remote: Oracle, trace: seq<Call>, idToken: Value, username: Value, password: Value,
                          audience: Value, service: string)
    ensures var s := LinkGoogleSpec(remote, trace, idToken, username, password, audience, service);
            var v := VerifyIdToken(idToken, audience);
            var tr := TokenRequest(username, password, service);
            var ticket := remote(trace, v);
            |s.trace| >= |trace| + 1 && s.trace[..|trace| + 1] == trace + [v] &&
            (ticket.Rejected? || Nullish(ticket.data) ==> s.trace == trace + [v] && s.out.status == 500) &&
            (ticket.Resolved? && !Nullish(ticket.data) && remote(trace + [v], tr).Resolved? &&
             Truthy(Field(remote(trace + [v], tr).data, "error")) ==>
               s == Step(Response(401, ErrorBody(Str(BadMoodleCredentials))), trace + [v, tr])) &&
            (s.out.status == 200 ==>
               var payload := ticket.data;
               var token := Field(remote(trace + [v], tr).data, "token");
               var info := MoodleLoginSpec(remote, trace + [v], username, password, service).out.info;
               var user := Field(s.out.body, "user");
               s.trace == trace + [v, tr, Rpc(SiteInfoForm(token))] &&
               Field(s.out.body, "token") == token &&
               Field(user, "email") == Or(Field(info, "useremail"), username) &&
               Field(user, "avatar") == Or(Field(info, "userpictureurl"), Field(payload, "picture")) &&
               Field(user, "googleEmail") == Field(payload, "email") &&
               Field(user, "linkedToGoogle") == Bool(true))
  {
    var s := LinkGoogleSpec(remote, trace, idToken, username, password, audience, service);
    var v := VerifyIdToken(idToken, audience);
    var tr := TokenRequest(username, password, service);
    var ticket := remote(trace, v);
    if ticket.Resolved? && !Nullish(ticket.data) {
      var m := MoodleLoginSpec(remote, trace + [v], username, password, service);
      MoodleLoginTrace(remote, trace + [v], username, password, service);
      MoodleLoginSucceeded(remote, trace + [v], username, password, service);
      assert s.trace == m.trace;
      assert trace + [v] + [tr] == trace + [v, tr];
      if m.out.LoggedIn? {
        var si := Rpc(SiteInfoForm(m.out.token));
        assert trace + [v] + [tr] + [si] == trace + [v, tr, si];
        assert s.out.body == LinkBody(m.out.token, m.out.info, username, ticket.data);
        LinkBodyFields(m.out.token, m.out.info, username, ticket.data);
        ExtendsPrefix(trace, v, [tr, si]);
      } else if m.trace == trace + [v, tr] {
        ExtendsPrefix(trace, v, [tr]);
      } else {
        ExtendsPrefix(trace, v, [tr, Rpc(SiteInfoForm(Field(remote(trace + [v], tr).data, "token")))]);
      }
    } else {
      ExtendsPrefix(trace, v, []);
    }
  }

  // ----- the whole server -----

  /** server-with-google.js answering one request; `audience` is the
      configured Google client id. */
  function ServeGoogle(remote: Oracle, trace: seq<Call>, service: string, audience: Value, e: Endpoint,
                       req: Request): Option<Step<Response>>
  {
    match Dispatch(GoogleStack, e, req.authorization)
    case NotFound => Some(Step(Response(404, Undefined), trace))
    case GateRejected(reply) => Some(Step(reply, trace))
    case Handled(h) =>
      if h == Health then Some(Step(HealthReply("with-google"), trace))
      else if h == AuthGoogle then Some(GoogleLoginSpec(remote, trace, Lookup(req.body, "idToken"), audience))
      else if h == AuthLinkGoogle then
        Some(LinkGoogleSpec(remote, trace, Lookup(req.body, "idToken"), Lookup(req.body, "username"),
                            Lookup(req.body, "password"), audience, service))
      else SharedHandler(remote, trace, service, h, req)
  }

  /** Both servers answer every gated route identically, and differ only in
      `/health`'s mode and in the two Google routes (a 404, or a 401 without a
      token, on server.js). */
  lemma ServersAgreeOnGatedRoutes(remote: Oracle, trace: seq<Call>, service: string, audience: Value,
                                  e: Endpoint, req: Request)
    requires e != Health && e != AuthGoogle && e != AuthLinkGoogle
    ensures ServeGoogle(remote, trace, service, audience, e, req) == ServeStandard(remote, trace, service, e, req)
  {
    GoogleRouting(e, req.authorization);
    StandardRouting(e, req.authorization);
  }
}
