/**
 * What the proxy sends out and what comes back. Every outbound request is a
 * `Call` appended to a per-request trace; the remote side (Moodle's REST,
 * upload and token endpoints, Google's ID-token verifier) is an oracle that
 * answers a call given the calls made before it, so it may be stateful.
 */
module Remote {
  import opened Wrappers
  import opened JsValue

  newtype byte = x: int | 0 <= x < 256

  /** An uploaded file as the multipart parser hands it over. */
  datatype File = File(buffer: seq<byte>, originalName: string)

  /** A form-encoded body: the pairs `URLSearchParams` serialises, in order. */
  type Form = seq<(string, string)>

  datatype Call =
      /** POST {MOODLE_BASE}/webservice/rest/server.php with a form body */
    | Rpc(form: Form)
      /** POST {MOODLE_BASE}/webservice/upload.php with fields `token` and `file` */
    | Upload(token: string, file: File)
      /** GET {MOODLE_BASE}/login/token.php?username=..&password=..&service=.. */
    | TokenRequest(username: Value, password: Value, service: string)
      /** Google's `verifyIdToken({ idToken, audience })` */
    | VerifyIdToken(idToken: Value, audience: Value)

  /** The settled promise of a call: the response's `data`, or the error it rejected with. */
  datatype Reply = Resolved(data: Value) | Rejected(error: JsError)

  /** The remote side: its answer to a call, given the calls made before it. */
  type Oracle = (seq<Call>, Call) -> Reply

  /** What a handler writes: a status and a JSON body. */
  datatype Response = Response(status: int, body: Value)

  /** The result of a request-scoped step together with the trace after it. */
  datatype Step<T> = Step(out: T, trace: seq<Call>)

  /** The value sent under `key` in a form, if any. */
  function FormGet(form: Form, key: string): Option<string> {
    if |form| == 0 then None
    else if form[0].0 == key then Some(form[0].1)
    else FormGet(form[1..], key)
  }

  /** The first occurrence of a key decides what a form sends under it. */
  lemma {:induction false} FormGetAt(form: Form, i: nat)
    requires i < |form|
    requires forall j :: 0 <= j < i ==> form[j].0 != form[i].0
    ensures FormGet(form, form[i].0) == Some(form[i].1)
  {
    if i > 0 {
      FormGetAt(form[1..], i - 1);
    }
  }

  /** `new URLSearchParams(obj)`: every own property of the object, in order,
      with its value converted by `String(...)`. */
  function Serialize(props: Props): (form: Form)
    ensures |form| == |props|
    ensures forall i :: 0 <= i < |props| ==> form[i] == (props[i].0, ToStr(props[i].1))
  {
    if |props| == 0 then [] else [(props[0].0, ToStr(props[0].1))] + Serialize(props[1..])
  }

  /** Reading a serialised object gives back the string form of its property. */
  lemma {:induction false} SerializeGet(props: Props, key: string)
    ensures FormGet(Serialize(props), key) ==
            if key in Keys(props) then Some(ToStr(Lookup(props, key))) else None
  {
    if |props| > 0 {
      assert Keys(props) == [props[0].0] + Keys(props[1..]);
      SerializeGet(props[1..], key);
    }
  }

  /** How many calls in `calls` post a form naming web-service function `wsfunction`. */
  function CountRpc(calls: seq<Call>, wsfunction: string): nat {
    if |calls| == 0 then 0
    else (if calls[0].Rpc? && FormGet(calls[0].form, "wsfunction") == Some(wsfunction) then 1 else 0)
         + CountRpc(calls[1..], wsfunction)
  }

  lemma TraceExtends(trace: seq<Call>, tail: seq<Call>)
    requires |tail| >= 1
    ensures (trace + tail)[..|trace| + 1] == trace + [tail[0]]
    ensures (trace + tail)[|trace|..] == tail
  {
  }

  lemma ExtendsPrefix(trace: seq<Call>, c: Call, rest: seq<Call>)
    ensures (trace + [c] + rest)[..|trace| + 1] == trace + [c]
  {
  }

  /** `{ ok: true, <key>: v }` */
  function OkBody(key: string, v: Value): Value {
    Obj([("ok", Bool(true)), (key, v)])
  }

  /** `{ ok: false, error: msg }` */
  function ErrorBody(msg: Value): Value {
    Obj([("ok", Bool(false)), ("error", msg)])
  }

  /** The catch-all of most handlers: `res.status(500).json({ ok: false, error: e.message })`. */
  function Fail500(e: JsError): Response {
    Response(500, ErrorBody(Str(e.message)))
  }
}
