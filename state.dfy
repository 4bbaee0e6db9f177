/** The shared state of one audit session and the merge the workflow applies after every node:
    `compliance_result` and `error` are reduced by list concatenation, every other declared
    field is overwritten by the latest writer. */
module State {
  import opened Wrappers
  import opened VideoIndex

  /** One compliance finding: category, description, severity and an optional timestamp */
  datatype ComplianceIssue = ComplianceIssue(
    category: string,
    description: string,
    severity: string,
    timestamp: Option<string>)

  /** `VideoAuditState`. Optional fields are `None` until some node writes them; the two
      accumulating lists start empty. There is no `final_report` field. */
  datatype AuditState = AuditState(
    videoUrl: string,
    videoId: string,
    localFilePath: Option<string>,
    videoMetadata: Option<seq<LabelEntry>>,
    transcript: Option<string>,
    ocrText: Option<seq<string>>,
    complianceResult: seq<ComplianceIssue>,
    finalStatus: Option<string>,
    finalMessage: Option<string>,
    error: seq<string>)

  /** The state a session starts from: the URL and id, and empty accumulating lists */
  function InitialState(videoUrl: string, videoId: string): (s: AuditState)
    ensures s.videoUrl == videoUrl && s.videoId == videoId
    ensures s.complianceResult == [] && s.error == []
    ensures s.localFilePath.None? && s.videoMetadata.None? && s.transcript.None? && s.ocrText.None?
    ensures s.finalStatus.None? && s.finalMessage.None?
  {
    AuditState(videoUrl, videoId, None, None, None, None, [], None, None, [])
  }

  /** The dictionary a node returns, restricted to the declared fields: `Some(v)` for each key
      the node writes */
  datatype StateUpdate = StateUpdate(
    videoUrl: Option<string>,
    videoId: Option<string>,
    localFilePath: Option<string>,
    videoMetadata: Option<seq<LabelEntry>>,
    transcript: Option<string>,
    ocrText: Option<seq<string>>,
    complianceResult: Option<seq<ComplianceIssue>>,
    finalStatus: Option<string>,
    finalMessage: Option<string>,
    error: Option<seq<string>>)

  /** The update that writes nothing */
  const NoUpdate: StateUpdate := StateUpdate(None, None, None, None, None, None, None, None, None, None)

  /** Last-writer-wins for a field that is always present */
  function Overwrite<T>(current: T, written: Option<T>): T {
    match written
    case Some(v) => v
    case None => current
  }

  /** Last-writer-wins for a field that may still be unset */
  function OverwriteOptional<T>(current: Option<T>, written: Option<T>): Option<T> {
    if written.Some? then written else current
  }

  /** The `operator.add` reducer */
  function Accumulate<T>(current: seq<T>, written: Option<seq<T>>): seq<T> {
    current + written.GetOr([])
  }

  /** The list of `s` is kept as a prefix and the written list follows it */
  predicate Extends<T(==)>(merged: seq<T>, current: seq<T>, written: Option<seq<T>>) {
    |current| <= |merged| && merged[..|current|] == current && merged[|current|..] == written.GetOr([])
  }

  /** The merge applied to the state after a node returns `u` */
  function Merge(s: AuditState, u: StateUpdate): (r: AuditState)
    ensures Extends(r.complianceResult, s.complianceResult, u.complianceResult)
    ensures Extends(r.error, s.error, u.error)
    ensures r.videoUrl == (if u.videoUrl.Some? then u.videoUrl.value else s.videoUrl)
    ensures r.videoId == (if u.videoId.Some? then u.videoId.value else s.videoId)
    ensures r.localFilePath == (if u.localFilePath.Some? then u.localFilePath else s.localFilePath)
    ensures r.videoMetadata == (if u.videoMetadata.Some? then u.videoMetadata else s.videoMetadata)
    ensures r.transcript == (if u.transcript.Some? then u.transcript else s.transcript)
    ensures r.ocrText == (if u.ocrText.Some? then u.ocrText else s.ocrText)
    ensures r.finalStatus == (if u.finalStatus.Some? then u.finalStatus else s.finalStatus)
    ensures r.finalMessage == (if u.finalMessage.Some? then u.finalMessage else s.finalMessage)
  {
    AuditState(
      Overwrite(s.videoUrl, u.videoUrl),
      Overwrite(s.videoId, u.videoId),
      OverwriteOptional(s.localFilePath, u.localFilePath),
      OverwriteOptional(s.videoMetadata, u.videoMetadata),
      OverwriteOptional(s.transcript, u.transcript),
      OverwriteOptional(s.ocrText, u.ocrText),
      Accumulate(s.complianceResult, u.complianceResult),
      OverwriteOptional(s.finalStatus, u.finalStatus),
      OverwriteOptional(s.finalMessage, u.finalMessage),
      Accumulate(s.error, u.error))
  }

  /** Merging an update that writes nothing leaves the state as it was */
  lemma MergeNoUpdate(s: AuditState)
    ensures Merge(s, NoUpdate) == s
  {
  }

  /** Two updates in a row, as a single update: lists concatenated, later writes winning */
  function Combine(first: StateUpdate, second: StateUpdate): StateUpdate {
    StateUpdate(
      OverwriteOptional(first.videoUrl, second.videoUrl),
      OverwriteOptional(first.videoId, second.videoId),
      OverwriteOptional(first.localFilePath, second.localFilePath),
      OverwriteOptional(first.videoMetadata, second.videoMetadata),
      OverwriteOptional(first.transcript, second.transcript),
      OverwriteOptional(first.ocrText, second.ocrText),
      Some(first.complianceResult.GetOr([]) + second.complianceResult.GetOr([])),
      OverwriteOptional(first.finalStatus, second.finalStatus),
      OverwriteOptional(first.finalMessage, second.finalMessage),
      Some(first.error.GetOr([]) + second.error.GetOr([])))
  }

  /** Merging two updates one after the other is merging their combination */
  lemma MergeCombine(s: AuditState, first: StateUpdate, second: StateUpdate)
    ensures Merge(Merge(s, first), second) == Merge(s, Combine(first, second))
  {
    var a := s.complianceResult;
    var b := first.complianceResult.GetOr([]);
    var c := second.complianceResult.GetOr([]);
    assert (a + b) + c == a + (b + c);
    var e := s.error;
    var f := first.error.GetOr([]);
    var g := second.error.GetOr([]);
    assert (e + f) + g == e + (f + g);
  }

  /** The state after every update of `updates` has been merged in turn */
  function MergeAll(s: AuditState, updates: seq<StateUpdate>): AuditState
    decreases |updates|
  {
    if updates == [] then s else MergeAll(Merge(s, updates[0]), updates[1..])
  }

  /** All the compliance issues the updates write, in order */
  function WrittenIssues(updates: seq<StateUpdate>): seq<ComplianceIssue>
    decreases |updates|
  {
    if updates == [] then [] else updates[0].complianceResult.GetOr([]) + WrittenIssues(updates[1..])
  }

  /** All the errors the updates write, in order */
  function WrittenErrors(updates: seq<StateUpdate>): seq<string>
    decreases |updates|
  {
    if updates == [] then [] else updates[0].error.GetOr([]) + WrittenErrors(updates[1..])
  }

  /** Across any run of merges the accumulating lists are never replaced: each ends as its
      initial value followed by everything written to it, in order */
  lemma {:induction false} MergeAllAccumulates(s: AuditState, updates: seq<StateUpdate>)
    ensures MergeAll(s, updates).complianceResult == s.complianceResult + WrittenIssues(updates)
    ensures MergeAll(s, updates).error == s.error + WrittenErrors(updates)
    ensures |MergeAll(s, updates).complianceResult| >= |s.complianceResult|
    ensures |MergeAll(s, updates).error| >= |s.error|
    decreases |updates|
  {
    if updates != [] {
      var s' := Merge(s, updates[0]);
      MergeAllAccumulates(s', updates[1..]);
      assert s'.complianceResult + WrittenIssues(updates[1..])
        == s.complianceResult + (updates[0].complianceResult.GetOr([]) + WrittenIssues(updates[1..]));
      assert s'.error + WrittenErrors(updates[1..])
        == s.error + (updates[0].error.GetOr([]) + WrittenErrors(updates[1..]));
    }
  }

  /** A last-writer-wins field that no update writes keeps its initial value across any run
      of merges */
  lemma {:induction false} MergeAllKeepsUnwritten(s: AuditState, updates: seq<StateUpdate>)
    ensures (forall i :: 0 <= i < |updates| ==> updates[i].videoUrl.None?) ==> MergeAll(s, updates).videoUrl == s.videoUrl
    ensures (forall i :: 0 <= i < |updates| ==> updates[i].videoId.None?) ==> MergeAll(s, updates).videoId == s.videoId
    ensures (forall i :: 0 <= i < |updates| ==> updates[i].localFilePath.None?) ==> MergeAll(s, updates).localFilePath == s.localFilePath
    ensures (forall i :: 0 <= i < |updates| ==> updates[i].videoMetadata.None?) ==> MergeAll(s, updates).videoMetadata == s.videoMetadata
    ensures (forall i :: 0 <= i < |updates| ==> updates[i].transcript.None?) ==> MergeAll(s, updates).transcript == s.transcript
    ensures (forall i :: 0 <= i < |updates| ==> updates[i].ocrText.None?) ==> MergeAll(s, updates).ocrText == s.ocrText
    ensures (forall i :: 0 <= i < |updates| ==> updates[i].finalStatus.None?) ==> MergeAll(s, updates).finalStatus == s.finalStatus
    ensures (forall i :: 0 <= i < |updates| ==> updates[i].finalMessage.None?) ==> MergeAll(s, updates).finalMessage == s.finalMessage
    decreases |updates|
  {
    if updates != [] {
      assert forall i :: 0 <= i < |updates| - 1 ==> updates[1..][i] == updates[i + 1];
      MergeAllKeepsUnwritten(Merge(s, updates[0]), updates[1..]);
    }
  }
}
