/**
 * The shape shared by every pass-through handler in the controllers and both
 * servers: one `moodleCall`, then `{ ok: true, <key>: data }`, or a 500 reply
 * carrying the error's message.
 */
module Forwarding {
  import opened Wrappers
  import opened JsValue
  import opened Remote
  import opened MoodleHelpers

  /** The reply written for the outcome of the one call. */
  function ForwardReply(r: Result<Value, JsError>, key: string): Response {
    match r
    case Ok(data) => Response(200, OkBody(key, data))
    case Err(e) => Fail500(e)
  }

  function ForwardSpec(remote: Oracle, trace: seq<Call>, authorization: Option<string>,
                       wsfunction: string, params: Props, key: string): Step<Response>
  {
    var s := MoodleCallSpec(remote, trace, authorization, wsfunction, params);
    Step(ForwardReply(s.out, key), s.trace)
  }

  /** `try { const data = await moodleCall(req, wsfunction, params); res.json({ ok: true, [key]: data }); }
      catch (e) { res.status(500).json({ ok: false, error: e.message }); }` */
  method Forward(remote: Oracle, trace: seq<Call>, authorization: Option<string>,
                 wsfunction: string, params: Props, key: string)
    returns (res: Response, trace': seq<Call>)
    ensures Step(res, trace') == ForwardSpec(remote, trace, authorization, wsfunction, params, key)
  {
    var r;
    r, trace' := MoodleCall(remote, trace, authorization, wsfunction, params);
    match r {
      case Ok(data) => res := Response(200, OkBody(key, data));
      case Err(e) => res := Fail500(e);
    }
  }

  /** A forwarding handler makes at most one call; it answers 200 with the
      reply's data under `key` exactly when the call succeeded, and 500 with
      the thrown message otherwise (a missing token is a 500 here, not a 401). */
  lemma ForwardOutcome(remote: Oracle, trace: seq<Call>, authorization: Option<string>,
                       wsfunction: string, params: Props, key: string)
    ensures var s := ForwardSpec(remote, trace, authorization, wsfunction, params, key);
            var c := MoodleCallSpec(remote, trace, authorization, wsfunction, params);
            |s.trace| <= |trace| + 1 &&
            (s.out.status == 200 <==> c.out.Ok?) &&
            (c.out.Ok? ==> s.out.body == OkBody(key, c.out.value)) &&
            (c.out.Err? ==> s.out == Response(500, ErrorBody(Str(c.out.error.message)))) &&
            (!HasToken(GetUserAuth(authorization)) ==>
               s == Step(Response(500, ErrorBody(Str("Token no proporcionado"))), trace))
  {
  }
}
