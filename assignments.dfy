/**
 * controllers/assignmentsController.js: the parameter maps of the assignment
 * calls, and `saveAssignmentFile`, which stages one file in Moodle's draft
 * area and then commits it to the assignment with one save-submission call.
 */
module Assignments {
  import opened Wrappers
  import opened JsValue
  import opened Remote
  import opened MoodleHelpers

  const SaveSubmission: string := "mod_assign_save_submission"
  const SubmitForGrading: string := "mod_assign_submit_for_grading"
  const OnlineTextKey: string := "plugindata[onlinetext_editor][text]"
  const OnlineFormatKey: string := "plugindata[onlinetext_editor][format]"
  const OnlineItemIdKey: string := "plugindata[onlinetext_editor][itemid]"
  const FileManagerKey: string := "plugindata[files_filemanager]"
  const UnknownUploadMessage: string := "Error desconocido al subir archivo al Draft Area"

  // ----- parameter maps -----

  /** `getAssignmentStatus`: `mod_assign_get_submission_status` with `assignid`. */
  function StatusParams(assignId: Value): Props {
    [("assignid", assignId)]
  }

  /** `saveAssignmentText`: the text saved through the online-text editor field. */
  function SaveTextParams(assignId: Value, text: Value): Props {
    [("assignmentid", assignId), (OnlineTextKey, text), (OnlineFormatKey, Num(1)), (OnlineItemIdKey, Num(0))]
  }

  /** `submitAssignment`: `mod_assign_submit_for_grading`, accepting the submission statement. */
  function SubmitParams(assignId: Value): Props {
    [("assignmentid", assignId), ("acceptsubmissionstatement", Num(1))]
  }

  /** The commit that attaches a draft area to the submission. */
  function CommitFileParams(assignId: Value, itemId: Value): Props {
    [("assignmentid", assignId), (FileManagerKey, itemId)]
  }

  /** The save-text call sends the assignment id, the text, format 1 and item
      id 0 under the user's token, and no file-manager field. */
  lemma SaveTextForm(token: string, assignId: Value, text: Value)
    ensures var form := RpcForm(token, SaveSubmission, SaveTextParams(assignId, text));
            FormGet(form, "wstoken") == Some(token) &&
            FormGet(form, "wsfunction") == Some(SaveSubmission) &&
            FormGet(form, "assignmentid") == Some(ToStr(assignId)) &&
            FormGet(form, OnlineTextKey) == Some(ToStr(text)) &&
            FormGet(form, OnlineFormatKey) == Some("1") &&
            FormGet(form, OnlineItemIdKey) == Some("0") &&
            FormGet(form, FileManagerKey) == None
  {
    var p := SaveTextParams(assignId, text);
    SaveTextKeys(assignId, text);
    ParamSent(token, SaveSubmission, p, 0);
    ParamSent(token, SaveSubmission, p, 1);
    ParamSent(token, SaveSubmission, p, 2);
    ParamSent(token, SaveSubmission, p, 3);
    SmallNumbers();
    RpcFormFields(token, SaveSubmission, p, "wstoken");
    RpcFormFields(token, SaveSubmission, p, "wsfunction");
    RpcFormFields(token, SaveSubmission, p, FileManagerKey);
  }

  /** The editor keys share a long prefix and part at index 30; the
      file-manager key parts from them at index 11; the rest differ early. */
  lemma SaveTextKeys(assignId: Value, text: Value)
    ensures DistinctKeys(SaveTextParams(assignId, text))
    ensures var ks := Keys(SaveTextParams(assignId, text));
            "wstoken" !in ks && "wsfunction" !in ks && FileManagerKey !in ks
  {
    var p := SaveTextParams(assignId, text);
    assert OnlineTextKey[30] == 't' && OnlineFormatKey[30] == 'f' && OnlineItemIdKey[30] == 'i';
    assert FileManagerKey[11] == 'f' && OnlineTextKey[11] == 'o';
    assert OnlineFormatKey[11] == 'o' && OnlineItemIdKey[11] == 'o';
    assert p[0].0[0] == 'a' && p[1].0[0] == 'p' && p[2].0[0] == 'p' && p[3].0[0] == 'p';
    assert |FileManagerKey| != |"assignmentid"|;
    assert Keys(p) == [p[0].0, p[1].0, p[2].0, p[3].0];
  }

  /** The submit call asks for `mod_assign_submit_for_grading` with the
      assignment id and `acceptsubmissionstatement` = 1. */
  lemma SubmitForm(token: string, assignId: Value)
    ensures FormGet(RpcForm(token, SubmitForGrading, SubmitParams(assignId)), "wsfunction") == Some(SubmitForGrading)
    ensures FormGet(RpcForm(token, SubmitForGrading, SubmitParams(assignId)), "assignmentid") == Some(ToStr(assignId))
    ensures FormGet(RpcForm(token, SubmitForGrading, SubmitParams(assignId)), "acceptsubmissionstatement") == Some("1")
  {
    var p := SubmitParams(assignId);
    SubmitKeys(assignId);
    ParamSent(token, SubmitForGrading, p, 0);
    ParamSent(token, SubmitForGrading, p, 1);
    SmallNumbers();
    RpcFormFields(token, SubmitForGrading, p, "wsfunction");
  }

  lemma SubmitKeys(assignId: Value)
    ensures DistinctKeys(SubmitParams(assignId))
    ensures "wsfunction" !in Keys(SubmitParams(assignId))
  {
    var p := SubmitParams(assignId);
    assert p[0].0[1] == 's' && p[1].0[1] == 'c';
    assert p[0].0[0] == 'a' && p[1].0[0] == 'a';
    assert Keys(p) == [p[0].0, p[1].0];
  }

  /** The commit names `mod_assign_save_submission` and carries the draft item
      id, as a string, in the file-manager field. */
  lemma CommitForm(token: string, assignId: Value, itemId: Value)
    ensures var form := RpcForm(token, SaveSubmission, CommitFileParams(assignId, itemId));
            FormGet(form, "wstoken") == Some(token) &&
            FormGet(form, "wsfunction") == Some(SaveSubmission) &&
            FormGet(form, "assignmentid") == Some(ToStr(assignId)) &&
            FormGet(form, FileManagerKey) == Some(ToStr(itemId))
  {
    var p := CommitFileParams(assignId, itemId);
    assert DistinctKeys(p);
    LookupAt(p, 0);
    LookupAt(p, 1);
    assert Keys(p) == ["assignmentid", FileManagerKey];
    RpcFormFields(token, SaveSubmission, p, "wstoken");
    RpcFormFields(token, SaveSubmission, p, "wsfunction");
    RpcFormFields(token, SaveSubmission, p, "assignmentid");
    RpcFormFields(token, SaveSubmission, p, FileManagerKey);
  }

  // ----- the draft-area upload -----

  predicate IsNonEmptyArray(v: Value) {
    v.Arr? && |v.items| > 0
  }

  /** What the upload reply `uploadedFiles` leads to: the first descriptor's
      `itemid`, or the error thrown. Reading `.error` off a nullish reply, and
      `.itemid` off a nullish first descriptor, throw TypeErrors. */
  function ClassifyUpload(data: Value): (r: Result<Value, JsError>)
    ensures r.Ok? <==> IsNonEmptyArray(data) && !Nullish(data.items[0])
    ensures r.Ok? ==> r.value == Field(data.items[0], "itemid")
  {
    if Nullish(data) then Err(TypeErrorReading(data, "error"))
    else if Truthy(Field(data, "error")) then Err(NewError(Field(data, "error")))
    else if !IsNonEmptyArray(data) then
      if Truthy(Field(data, "exception")) then Err(NewError(Field(data, "message")))
      else Err(NewError(Str(UnknownUploadMessage)))
    else
      match Get(data.items[0], "itemid")
      case Ok(itemId) => Ok(itemId)
      case Err(e) => Err(e)
  }

  /** The failure classes: an `error` field wins (it is tested before the array
      test); a reply that is not a non-empty array fails with its `message` if it
      has `exception`, else with the generic draft-area message. */
  lemma UploadFailureClasses(data: Value)
    requires !Nullish(data)
    ensures Truthy(Field(data, "error")) ==> ClassifyUpload(data) == Err(NewError(Field(data, "error")))
    ensures !Truthy(Field(data, "error")) && !IsNonEmptyArray(data) ==>
              ClassifyUpload(data) ==
                Err(NewError(if Truthy(Field(data, "exception")) then Field(data, "message")
                             else Str(UnknownUploadMessage)))
  {
  }

  /** Only the first descriptor matters: later ones are ignored. */
  lemma LaterDescriptorsIgnored(first: Value, rest1: seq<Value>, rest2: seq<Value>)
    ensures ClassifyUpload(Arr([first] + rest1)) == ClassifyUpload(Arr([first] + rest2))
  {
  }

  function UploadedItem(reply: Reply): Result<Value, JsError> {
    match reply
    case Rejected(e) => Err(e)
    case Resolved(data) => ClassifyUpload(data)
  }

  /** Upload, classify, and commit only on success. */
  function UploadAndCommitSpec(remote: Oracle, trace: seq<Call>, authorization: Option<string>,
                               token: string, file: File, assignId: Value): Step<Result<Value, JsError>>
  {
    var up := Upload(token, file);
    match UploadedItem(remote(trace, up))
    case Err(e) => Step(Err(e), trace + [up])
    case Ok(itemId) =>
      MoodleCallSpec(remote, trace + [up], authorization, SaveSubmission, CommitFileParams(assignId, itemId))
  }

  method UploadAndCommit(remote: Oracle, trace: seq<Call>, authorization: Option<string>,
                         token: string, file: File, assignId: Value)
    returns (r: Result<Value, JsError>, trace': seq<Call>)
    ensures Step(r, trace') == UploadAndCommitSpec(remote, trace, authorization, token, file, assignId)
  {
    var up := Upload(token, file);
    trace' := trace + [up];
    var reply := remote(trace, up);
    match UploadedItem(reply) {
      case Err(e) =>
        r := Err(e);
      case Ok(itemId) =>
        r, trace' := MoodleCall(remote, trace', authorization, SaveSubmission, CommitFileParams(assignId, itemId));
    }
  }

  /** The state machine Start -> Uploaded -> Committed | Failed: exactly one
      upload comes first; the save-submission call follows exactly when the
      upload succeeded, exactly once, and carries the first descriptor's item id. */
  lemma UploadThenCommitOnce(remote: Oracle, trace: seq<Call>, authorization: Option<string>,
                             file: File, assignId: Value)
    requires HasToken(GetUserAuth(authorization))
    ensures var token := GetUserAuth(authorization).value;
            var up := Upload(token, file);
            var s := UploadAndCommitSpec(remote, trace, authorization, token, file, assignId);
            var item := UploadedItem(remote(trace, up));
            |s.trace| >= |trace| + 1 && s.trace[..|trace| + 1] == trace + [up] &&
            CountRpc(s.trace[|trace|..], SaveSubmission) == (if item.Ok? then 1 else 0) &&
            (item.Err? ==> s == Step(Err(item.error), trace + [up])) &&
            (item.Ok? ==>
              var form := RpcForm(token, SaveSubmission, CommitFileParams(assignId, item.value));
              s.trace == trace + [up, Rpc(form)] &&
              FormGet(form, FileManagerKey) == Some(ToStr(item.value)))
  {
    var token := GetUserAuth(authorization).value;
    var up := Upload(token, file);
    var s := UploadAndCommitSpec(remote, trace, authorization, token, file, assignId);
    var item := UploadedItem(remote(trace, up));
    if item.Ok? {
      var form := RpcForm(token, SaveSubmission, CommitFileParams(assignId, item.value));
      CommitForm(token, assignId, item.value);
      MoodleCallContract(remote, trace + [up], authorization, SaveSubmission, CommitFileParams(assignId, item.value));
      assert s.trace == trace + [up, Rpc(form)];
      CommitCounted(up, form);
      TraceExtends(trace, [up, Rpc(form)]);
    } else {
      assert CountRpc([up], SaveSubmission) == 0;
      TraceExtends(trace, [up]);
    }
  }

  lemma CommitCounted(up: Call, form: Form)
    requires up.Upload?
    requires FormGet(form, "wsfunction") == Some(SaveSubmission)
    ensures CountRpc([up, Rpc(form)], SaveSubmission) == 1
  {
    assert CountRpc([Rpc(form)], SaveSubmission) == 1 + CountRpc([Rpc(form)][1..], SaveSubmission);
    assert [Rpc(form)][1..] == [];
    assert CountRpc([up, Rpc(form)], SaveSubmission) == 0 + CountRpc([up, Rpc(form)][1..], SaveSubmission);
    assert [up, Rpc(form)][1..] == [Rpc(form)];
  }

  // ----- saveAssignmentFile -----

  /** The catch block's message: `e.response?.data?.message || e.message || "Error desconocido"`. */
  function ControllerErrorMessage(e: JsError): Value {
    Or(Field(e.responseData, "message"), Or(Str(e.message), Str("Error desconocido")))
  }

  /** `saveAssignmentFile(req, res)`: `file` is `req.file` as the multipart parser leaves it. */
  function SaveAssignmentFileSpec(remote: Oracle, trace: seq<Call>, authorization: Option<string>,
                                  file: Option<File>, assignId: Value): Step<Response>
  {
    var token := GetUserAuth(authorization);
    if !HasToken(token) then Step(Response(401, ErrorBody(Str("Falta token"))), trace)
    else if file.None? then Step(Response(400, ErrorBody(Str("No se recibió archivo"))), trace)
    else
      var s := UploadAndCommitSpec(remote, trace, authorization, token.value, file.value, assignId);
      match s.out
      case Ok(result) => Step(Response(200, OkBody("result", result)), s.trace)
      case Err(e) => Step(Response(500, ErrorBody(ControllerErrorMessage(e))), s.trace)
  }

  method SaveAssignmentFile(remote: Oracle, trace: seq<Call>, authorization: Option<string>,
                            file: Option<File>, assignId: Value)
    returns (res: Response, trace': seq<Call>)
    ensures Step(res, trace') == SaveAssignmentFileSpec(remote, trace, authorization, file, assignId)
  {
    var token := GetUserAuth(authorization);
    if !HasToken(token) {
      return Response(401, ErrorBody(Str("Falta token"))), trace;
    }
    if file.None? {
      return Response(400, ErrorBody(Str("No se recibió archivo"))), trace;
    }
    var r;
    r, trace' := UploadAndCommit(remote, trace, authorization, token.value, file.value, assignId);
    match r {
      case Ok(result) => res := Response(200, OkBody("result", result));
      case Err(e) => res := Response(500, ErrorBody(ControllerErrorMessage(e)));
    }
  }

  /** The token is checked first, then the file, both before any upload; a
      failed upload or commit is a 500; success is 200 with the commit's result. */
  lemma SaveAssignmentFileOutcome(remote: Oracle, trace: seq<Call>, authorization: Option<string>,
                                  file: Option<File>, assignId: Value)
    ensures var s := SaveAssignmentFileSpec(remote, trace, authorization, file, assignId);
            (!HasToken(GetUserAuth(authorization)) ==>
               s == Step(Response(401, ErrorBody(Str("Falta token"))), trace)) &&
            (HasToken(GetUserAuth(authorization)) && file.None? ==>
               s == Step(Response(400, ErrorBody(Str("No se recibió archivo"))), trace)) &&
            (HasToken(GetUserAuth(authorization)) && file.Some? ==>
               var u := UploadAndCommitSpec(remote, trace, authorization, GetUserAuth(authorization).value,
                                            file.value, assignId);
               s.trace == u.trace && (s.out.status == 200 <==> u.out.Ok?) &&
               (u.out.Err? ==> s.out.status == 500))
  {
  }

  /** The reported error prefers the remote reply's `message`, then the
      error's own message, then "Error desconocido". */
  lemma ControllerErrorMessagePreference(e: JsError)
    ensures Truthy(Field(e.responseData, "message")) ==>
              ControllerErrorMessage(e) == Field(e.responseData, "message")
    ensures !Truthy(Field(e.responseData, "message")) && e.message != "" ==>
              ControllerErrorMessage(e) == Str(e.message)
    ensures !Truthy(Field(e.responseData, "message")) && e.message == "" ==>
              ControllerErrorMessage(e) == Str("Error desconocido")
  {
  }
}
