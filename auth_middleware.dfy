/**
 * middlewares/auth.js: `requireAuth`, the gate that either answers 401 or
 * passes the request on. The inline middlewares of server.js and
 * server-with-google.js make the same decision with the same reply.
 */
module AuthMiddleware {
  import opened Wrappers
  import opened JsValue
  import opened JsString
  import opened Remote
  import opened MoodleHelpers

  /** The gate either calls `next()` or writes a reply (and does not call `next`). */
  datatype GateDecision = Next | Reject(response: Response)

  const MissingSessionReply: Response := Response(401, Obj([("error", Str("Falta el token de sesión"))]))

  /** `requireAuth(req, res, next)`. It reads only the header; no remote call is made. */
  function RequireAuth(authorization: Option<string>): GateDecision {
    if !HasToken(GetUserAuth(authorization)) then Reject(MissingSessionReply) else Next
  }

  /** The gate admits a request exactly when its Authorization header has a
      non-whitespace character after the optional "Bearer " prefix; every other
      request gets the 401 reply and `next` is not called. */
  lemma RequireAuthAdmitsExactly(authorization: Option<string>)
    ensures RequireAuth(authorization) == Next <==>
            authorization.Some? && !AllSpace(Payload(authorization.value))
    ensures RequireAuth(authorization) != Next ==> RequireAuth(authorization) == Reject(MissingSessionReply)
  {
    HasTokenIff(authorization);
  }

  /** A missing header, a blank one and "Bearer " followed by spaces are all rejected. */
  lemma BlankCredentialsRejected(spaces: string)
    requires AllSpace(spaces)
    ensures RequireAuth(None) == Reject(MissingSessionReply)
    ensures RequireAuth(Some(spaces)) == Reject(MissingSessionReply)
    ensures RequireAuth(Some(BearerPrefix + spaces)) == Reject(MissingSessionReply)
  {
    RequireAuthAdmitsExactly(Some(spaces));
    var h := BearerPrefix + spaces;
    assert h[..|BearerPrefix|] == BearerPrefix;
    assert h[|BearerPrefix|..] == spaces;
    RequireAuthAdmitsExactly(Some(h));
    assert !StartsWith(spaces, BearerPrefix) by {
      if |spaces| >= |BearerPrefix| {
        assert IsSpace(spaces[0]) && spaces[..|BearerPrefix|][0] == spaces[0];
      }
    }
  }
}
