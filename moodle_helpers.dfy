/**
 * helpers/moodle.js: credential extraction from the Authorization header,
 * the authenticated Moodle web-service call, and the fail-open check that an
 * e-mail address belongs to a Moodle user. server.js and
 * server-with-google.js carry identical inline copies of the first two.
 */
module MoodleHelpers {
  import opened Wrappers
  import opened JsValue
  import opened JsString
  import opened Remote

  const BearerPrefix: string := "Bearer "

  // ----- getUserAuth -----

  /** `getUserAuth(req)`, given the request's Authorization header if it was
      sent. `None` stands for the `null` it returns. */
  function GetUserAuth(authorization: Option<string>): (token: Option<string>)
    ensures token.None? <==> authorization.None? || authorization.value == ""
    ensures token.Some? ==> Trimmed(token.value)
  {
    var auth := if authorization.Some? then authorization.value else "";
    if StartsWith(auth, BearerPrefix) then
      TrimIsCore(auth[|BearerPrefix|..]);
      Some(Trim(auth[|BearerPrefix|..]))
    else if |auth| > 0 then
      TrimIsCore(auth);
      Some(Trim(auth))
    else None
  }

  /** How callers read the extracted token: `null` and `""` are both falsy. */
  predicate HasToken(token: Option<string>) {
    token.Some? && token.value != ""
  }

  /** The part of a header that is trimmed into the credential: what follows
      a leading "Bearer ", or the whole header. */
  function Payload(header: string): string {
    if StartsWith(header, BearerPrefix) then header[|BearerPrefix|..] else header
  }

  /** A header beginning with exactly "Bearer " yields the rest, trimmed. */
  lemma BearerHeaderYieldsRest(header: string)
    requires StartsWith(header, BearerPrefix)
    ensures GetUserAuth(Some(header)) == Some(Trim(header[7..]))
  {
  }

  /** No header, or an empty one, yields null. */
  lemma MissingHeaderYieldsNull()
    ensures GetUserAuth(None) == None
    ensures GetUserAuth(Some("")) == None
  {
  }

  /** Any other non-empty header is returned whole, trimmed. */
  lemma OtherHeaderYieldsWholeTrimmed(header: string)
    requires header != "" && !StartsWith(header, BearerPrefix)
    ensures GetUserAuth(Some(header)) == Some(Trim(header))
  {
  }

  /** The prefix is tested before trimming: " Bearer x" keeps its "Bearer" word. */
  lemma PrefixTestedBeforeTrim()
    ensures GetUserAuth(Some(" Bearer x")) == Some("Bearer x")
  {
    var h := " Bearer x";
    assert h[..7] != BearerPrefix by { assert h[0] == ' '; }
    assert IsSpace(h[0]);
    assert h[1..] == "Bearer x";
    assert TrimStart(h) == TrimStart("Bearer x");
    SampleTokenTrimmed();
    TrimOfTrimmed("Bearer x");
  }

  lemma SampleTokenTrimmed()
    ensures Trimmed("Bearer x")
  {
    var t := "Bearer x";
    assert t[0] == 'B' && t[7] == 'x';
    assert !IsSpace('B') && !IsSpace('x');
  }

  /** The prefix test is case-sensitive: "bearer x" is taken whole. */
  lemma PrefixIsCaseSensitive()
    ensures GetUserAuth(Some("bearer x")) == Some("bearer x")
  {
    var h := "bearer x";
    assert h[..7] != BearerPrefix by { assert h[0] == 'b'; }
    assert !IsSpace('b') && !IsSpace('x');
    assert TrimStart(h) == h;
    assert TrimEnd(h) == h;
  }

  /** Round trip: a client sending "Bearer " + t, for a non-empty t without
      surrounding whitespace, gets exactly t back. */
  lemma BearerRoundTrip(t: string)
    requires t != "" && Trimmed(t)
    ensures GetUserAuth(Some(BearerPrefix + t)) == Some(t)
  {
    var h := BearerPrefix + t;
    assert h[..|BearerPrefix|] == BearerPrefix;
    assert h[|BearerPrefix|..] == t;
    TrimOfTrimmed(t);
  }

  /** Round trip for the bare form: a token sent without the prefix comes back unchanged. */
  lemma BareRoundTrip(t: string)
    requires t != "" && Trimmed(t) && !StartsWith(t, BearerPrefix)
    ensures GetUserAuth(Some(t)) == Some(t)
  {
    TrimOfTrimmed(t);
  }

  /** A usable (truthy) credential is extracted exactly when the header's
      payload holds a non-whitespace character; so "Bearer " followed only by
      spaces, or a blank header, counts as no credential. */
  lemma HasTokenIff(authorization: Option<string>)
    ensures HasToken(GetUserAuth(authorization)) <==>
            authorization.Some? && !AllSpace(Payload(authorization.value))
  {
    if authorization.Some? {
      var h := authorization.value;
      TrimEmptyIffAllSpace(Payload(h));
      if h == "" {
        assert Payload(h) == "";
      }
    }
  }

  // ----- moodleCall -----

  const MissingTokenMessage: string := "Token no proporcionado"

  /** The three fixed fields of every web-service call, in order. */
  function FixedFields(token: string, wsfunction: string): Props {
    [("wstoken", Str(token)), ("wsfunction", Str(wsfunction)), ("moodlewsrestformat", Str("json"))]
  }

  /** The form body `new URLSearchParams({ wstoken, wsfunction, moodlewsrestformat: "json", ...params })`. */
  function RpcForm(token: string, wsfunction: string, params: Props): Form {
    Serialize(Assign(FixedFields(token, wsfunction), params))
  }

  /** The body object: a parameter overrides a fixed field of the same name. */
  lemma RpcBodyLookup(token: string, wsfunction: string, params: Props, key: string)
    requires DistinctKeys(params)
    ensures var body := Assign(FixedFields(token, wsfunction), params);
            (key in Keys(body) <==> key in Keys(params) || key in ["wstoken", "wsfunction", "moodlewsrestformat"]) &&
            Lookup(body, key) ==
              if key in Keys(params) then Lookup(params, key)
              else Lookup(FixedFields(token, wsfunction), key)
  {
    var fixed := FixedFields(token, wsfunction);
    AssignLookup(fixed, params, key);
    AssignKeys(fixed, params);
    assert Keys(fixed) == ["wstoken", "wsfunction", "moodlewsrestformat"];
  }

  /** Every caller parameter is sent with its string value, overriding a fixed
      field of the same name; the fixed fields are sent otherwise; nothing else is sent. */
  lemma RpcFormFields(token: string, wsfunction: string, params: Props, key: string)
    requires DistinctKeys(params)
    ensures FormGet(RpcForm(token, wsfunction, params), key) ==
            if key in Keys(params) then Some(ToStr(Lookup(params, key)))
            else if key == "wstoken" then Some(token)
            else if key == "wsfunction" then Some(wsfunction)
            else if key == "moodlewsrestformat" then Some("json")
            else None
  {
    var fixed := FixedFields(token, wsfunction);
    var body := Assign(fixed, params);
    SerializeGet(body, key);
    RpcBodyLookup(token, wsfunction, params, key);
    if key !in Keys(params) {
      if key == "wstoken" {
        assert Lookup(fixed, key) == Str(token);
      } else if key == "wsfunction" {
        assert Lookup(fixed, key) == Str(wsfunction);
      } else if key == "moodlewsrestformat" {
        assert Lookup(fixed[2..], key) == Str("json");
        assert Lookup(fixed, key) == Lookup(fixed[1..], key) == Lookup(fixed[2..], key);
      } else {
        assert key !in Keys(body);
      }
    }
  }

  /** The parameter at position `i` is sent with its string value. */
  lemma ParamSent(token: string, wsfunction: string, params: Props, i: nat)
    requires DistinctKeys(params) && i < |params|
    ensures FormGet(RpcForm(token, wsfunction, params), params[i].0) == Some(ToStr(params[i].1))
  {
    assert params[i].0 == Keys(params)[i];
    RpcFormFields(token, wsfunction, params, params[i].0);
    LookupAt(params, i);
  }

  /** The fixed fields lead the body, in the order wstoken, wsfunction,
      moodlewsrestformat, whatever the parameters are. */
  lemma RpcFormFixedFirst(token: string, wsfunction: string, params: Props)
    ensures var form := RpcForm(token, wsfunction, params);
            |form| >= 3 && form[0].0 == "wstoken" && form[1].0 == "wsfunction" &&
            form[2].0 == "moodlewsrestformat"
  {
    var fixed := FixedFields(token, wsfunction);
    AssignKeys(fixed, params);
    var body := Assign(fixed, params);
    assert Keys(fixed) == ["wstoken", "wsfunction", "moodlewsrestformat"];
    assert Keys(body)[..3] == Keys(fixed);
    assert Keys(body)[0] == "wstoken" && Keys(body)[1] == "wsfunction" && Keys(body)[2] == "moodlewsrestformat";
  }

  /** The fault check on a web-service reply: a truthy `exception` becomes a
      thrown `Error(data.message)`; anything else is returned unchanged. */
  function CheckFault(data: Value): Result<Value, JsError> {
    if Truthy(Field(data, "exception")) then Err(NewError(Field(data, "message"))) else Ok(data)
  }

  function AfterRpc(reply: Reply): Result<Value, JsError> {
    match reply
    case Rejected(e) => Err(e)
    case Resolved(data) => CheckFault(data)
  }

  /** `moodleCall(req, wsfunction, params)`: the result and the trace after it. */
  function MoodleCallSpec(remote: Oracle, trace: seq<Call>, authorization: Option<string>,
                          wsfunction: string, params: Props): Step<Result<Value, JsError>>
  {
    var token := GetUserAuth(authorization);
    if !HasToken(token) then Step(Err(NewError(Str(MissingTokenMessage))), trace)
    else
      var call := Rpc(RpcForm(token.value, wsfunction, params));
      Step(AfterRpc(remote(trace, call)), trace + [call])
  }

  method MoodleCall(remote: Oracle, trace: seq<Call>, authorization: Option<string>,
                    wsfunction: string, params: Props)
    returns (r: Result<Value, JsError>, trace': seq<Call>)
    ensures Step(r, trace') == MoodleCallSpec(remote, trace, authorization, wsfunction, params)
  {
    var token := GetUserAuth(authorization);
    if !HasToken(token) {
      return Err(NewError(Str(MissingTokenMessage))), trace;
    }
    var call := Rpc(RpcForm(token.value, wsfunction, params));
    trace' := trace + [call];
    var reply := remote(trace, call);
    match reply {
      case Rejected(e) =>
        r := Err(e);
      case Resolved(data) =>
        if Truthy(Field(data, "exception")) {
          r := Err(NewError(Field(data, "message")));
        } else {
          r := Ok(data);
        }
    }
  }

  /** Without a usable token the call fails with "Token no proporcionado" and
      nothing is sent; with one, exactly one form is posted, a reply with a
      truthy `exception` fails with its `message`, and any other reply is
      returned unchanged. */
  lemma MoodleCallContract(remote: Oracle, trace: seq<Call>, authorization: Option<string>,
                           wsfunction: string, params: Props)
    ensures var s := MoodleCallSpec(remote, trace, authorization, wsfunction, params);
            var token := GetUserAuth(authorization);
            if !HasToken(token) then
              s.trace == trace && s.out.Err? && s.out.error.message == "Token no proporcionado"
            else
              var call := Rpc(RpcForm(token.value, wsfunction, params));
              s.trace == trace + [call] &&
              match remote(trace, call)
              case Rejected(e) => s.out == Err(e)
              case Resolved(data) =>
                (Truthy(Field(data, "exception")) ==> s.out == Err(NewError(Field(data, "message")))) &&
                (!Truthy(Field(data, "exception")) ==> s.out == Ok(data))
  {
  }

  // ----- isEmailInMoodle -----

  /** The lookup form posted with the administrator's token. */
  function EmailLookupForm(adminToken: string, email: Value): Form {
    Serialize([("wstoken", Str(adminToken)), ("wsfunction", Str("core_user_get_users_by_field")),
               ("moodlewsrestformat", Str("json")), ("field", Str("email")), ("values[0]", email)])
  }

  /** `x > 0` for the `length` read off a reply (see the README for strings). */
  predicate PositiveLength(len: Value) {
    match len
    case Num(n) => n > 0
    case Bool(b) => b
    case _ => false
  }

  /** The value `isEmailInMoodle` returns for a settled lookup. */
  function EmailVerdict(reply: Reply): Value {
    match reply
    case Rejected(_) => Bool(true)
    case Resolved(data) =>
      if Truthy(Field(data, "exception")) || Truthy(Field(data, "errorcode")) then Bool(true)
      else if !Truthy(data) then data
      else Bool(PositiveLength(Field(data, "length")))
  }

  /** `isEmailInMoodle(email)` with `ADMIN_TOKEN` given as `adminToken`. */
  function IsEmailInMoodleSpec(remote: Oracle, trace: seq<Call>, adminToken: Option<string>,
                               email: Value): Step<Value>
  {
    if !HasToken(adminToken) then Step(Bool(true), trace)
    else
      var call := Rpc(EmailLookupForm(adminToken.value, email));
      Step(EmailVerdict(remote(trace, call)), trace + [call])
  }

  method IsEmailInMoodle(remote: Oracle, trace: seq<Call>, adminToken: Option<string>, email: Value)
    returns (found: Value, trace': seq<Call>)
    ensures Step(found, trace') == IsEmailInMoodleSpec(remote, trace, adminToken, email)
  {
    if adminToken.None? || adminToken.value == "" {
      return Bool(true), trace;
    }
    var call := Rpc(EmailLookupForm(adminToken.value, email));
    trace' := trace + [call];
    var reply := remote(trace, call);
    match reply {
      case Rejected(_) =>
        found := Bool(true);
      case Resolved(data) =>
        if Truthy(Field(data, "exception")) || Truthy(Field(data, "errorcode")) {
          found := Bool(true);
        } else if !Truthy(data) {
          found := data;
        } else {
          found := Bool(PositiveLength(Field(data, "length")));
        }
    }
  }

  /** The check fails open: with no administrator token it answers true and
      calls nothing; a thrown error or an `exception`/`errorcode` reply also
      answers true; otherwise a list reply answers truthy exactly when it is
      non-empty. */
  lemma EmailCheckFailsOpen(remote: Oracle, trace: seq<Call>, adminToken: Option<string>, email: Value)
    ensures var s := IsEmailInMoodleSpec(remote, trace, adminToken, email);
            (!HasToken(adminToken) ==> s == Step(Bool(true), trace)) &&
            (HasToken(adminToken) ==>
              var call := Rpc(EmailLookupForm(adminToken.value, email));
              s.trace == trace + [call] &&
              match remote(trace, call)
              case Rejected(_) => s.out == Bool(true)
              case Resolved(data) =>
                (Truthy(Field(data, "exception")) || Truthy(Field(data, "errorcode")) ==> s.out == Bool(true)) &&
                (data.Arr? ==> (Truthy(s.out) <==> |data.items| > 0)))
  {
  }

  /** The lookup asks for users whose `email` field is the given address. */
  lemma EmailLookupFormFields(adminToken: string, email: Value)
    ensures var form := EmailLookupForm(adminToken, email);
            FormGet(form, "wstoken") == Some(adminToken) &&
            FormGet(form, "wsfunction") == Some("core_user_get_users_by_field") &&
            FormGet(form, "field") == Some("email") &&
            FormGet(form, "values[0]") == Some(ToStr(email))
  {
    var form := EmailLookupForm(adminToken, email);
    FormGetAt(form, 0);
    FormGetAt(form, 1);
    FormGetAt(form, 3);
    FormGetAt(form, 4);
  }
}
