/** The two workflow nodes. The indexing node checks the URL, downloads and uploads the video,
    submits the label-detection and transcription jobs, and polls both for at most thirty
    attempts before normalising what it has. The auditor node retrieves rule context, asks the
    model for a verdict and turns its (possibly fenced) JSON reply into a state update. */
module Nodes {
  import opened Wrappers
  import opened Text
  import opened VideoIndex
  import opened State

  // =======================================================================================
  // Indexing node
  // =======================================================================================

  /** The polling budget */
  const MaxRetries: nat := 30

  /** Where the download is written */
  const TempVideoPath: string := "temp_audit_video.mp4"

  /** The bucket the node names when it submits the two jobs */
  const AnalysisBucket: string := "orchestra-frankfurt"

  const InvalidUrlMessage: string := "Please provide a valid youtube URL"

  /** The URL check that precedes any download */
  predicate IsYoutubeUrl(url: string) {
    Contains(url, "youtube.com") || Contains(url, "youtu.be")
  }

  /** The transcription job name of a session: `audit_{video_id}` */
  function TranscriptionJobName(videoId: string): (n: string)
    ensures |n| == |videoId| + 6 && n[..6] == "audit_" && n[6..] == videoId
  {
    "audit_" + videoId
  }


  /** What the indexing node learns from outside: the error (if any) raised by constructing
      the service clients, by the download, by the upload, by the label-detection start (or
      its job id), whether deleting an earlier transcription job of the same name raises for a
      reason other than a missing job, the error raised by the transcription start; and, for attempt `i` of the poll, the
      label-detection response and the transcription-job response the services give. */
  datatype IndexOracle = IndexOracle(
    clientInit: Option<string>,
    download: Option<string>,
    upload: Option<string>,
    startLabelDetection: Result<string, string>,
    deleteTranscription: bool,
    startTranscription: Option<string>,
    labelResults: nat -> Result<Insights, string>,
    transcriptionJob: nat -> TranscriptionResponse)

  /** The remote state the node changes: the object store and the transcription jobs */
  datatype Cloud = Cloud(store: ObjectStore, transcriptionJobs: Registry)

  /** The acquisition and submission calls the node makes, in the order it makes them */
  datatype ExternalCall =
    | DownloadVideo(url: string, path: string)
    | UploadObject(path: string, bucket: string, key: string)
    | LabelDetectionStart(bucket: string, key: string)
    | TranscriptionJobDelete(name: string)
    | TranscriptionJobStart(name: string, mediaUri: string)
    | TempFileRemove(path: string)

  /** Every call of a run that gets as far as polling */
  function SubmissionCalls(videoUrl: string, videoId: string): (calls: seq<ExternalCall>)
    ensures |calls| == 6
  {
    var key := StorageKey(videoId);
    var name := TranscriptionJobName(videoId);
    [ DownloadVideo(videoUrl, TempVideoPath),
      UploadObject(TempVideoPath, ResolveBucket(None), key),
      LabelDetectionStart(AnalysisBucket, key),
      TranscriptionJobDelete(name),
      TranscriptionJobStart(name, S3Uri(AnalysisBucket, key)),
      TempFileRemove(TempVideoPath) ]
  }

  /** The jobs the node submits are about the object the upload wrote: label detection reads
      the uploaded slot, and transcription reads its `s3://` URI */
  lemma SubmittedObjectIsUploaded(videoUrl: string, videoId: string)
    ensures var c := SubmissionCalls(videoUrl, videoId);
      && c[1].UploadObject? && c[2].LabelDetectionStart? && c[4].TranscriptionJobStart?
      && c[2].bucket == c[1].bucket && c[2].key == c[1].key
      && c[4].mediaUri == S3Uri(c[1].bucket, c[1].key)
      && c[3].name == c[4].name == TranscriptionJobName(videoId)
  {
  }

  /** The update of the failure path: the message, status `failed`, and emptied evidence */
  function IndexFailure(message: string): (u: StateUpdate)
    ensures u.error == Some([message]) && u.finalStatus == Some("failed")
    ensures u.finalMessage == Some("Failed to index video: " + message)
    ensures u.transcript == Some("") && u.videoMetadata == Some([]) && u.ocrText == Some([])
    ensures u.complianceResult == Some([])
    ensures u.videoUrl.None? && u.videoId.None? && u.localFilePath.None?
  {
    StateUpdate(
      videoUrl := None, videoId := None, localFilePath := None,
      videoMetadata := Some([]), transcript := Some(""), ocrText := Some([]),
      complianceResult := Some([]), finalStatus := Some("failed"),
      finalMessage := Some("Failed to index video: " + message), error := Some([message]))
  }

  /** The update of the success path: the evidence record and nothing else */
  function EvidenceUpdate(ev: Evidence): StateUpdate {
    StateUpdate(
      videoUrl := None, videoId := None, localFilePath := None,
      videoMetadata := Some(ev.videoMetadata), transcript := Some(ev.transcript), ocrText := Some(ev.ocrText),
      complianceResult := None, finalStatus := Some(ev.finalStatus),
      finalMessage := None, error := None)
  }

  // ---------------------------------------------------------------------------------------
  // The poll, as a trace over attempts
  // ---------------------------------------------------------------------------------------

  /** What the poll holds after some attempts: the last label-detection result, the
      transcript, and the attempts at which each service was queried */
  datatype PollState = PollState(
    insights: Insights,
    transcript: string,
    labelQueries: seq<nat>,
    transcriptQueries: seq<nat>)

  /** `raw_insights = {}` and `transcript_text = ""` */
  const PollStart: PollState := PollState(NoInsights, "", [], [])

  /** `not raw_insights or raw_insights.get("JobStatus") != "SUCCEEDED"` */
  predicate LabelsPending(insights: Insights) {
    insights.NoInsights? || insights.jobStatus != Some("SUCCEEDED")
  }

  /** The break condition: label detection succeeded and a transcript was obtained */
  predicate Converged(p: PollState) {
    p.insights.Insights? && p.insights.jobStatus == Some("SUCCEEDED") && p.transcript != ""
  }

  /** Attempt `i` of the poll: each service still outstanding is queried once, at attempt
      `i`, and its answer replaces what the poll held; a service already answered is left alone */
  function PollStep(o: IndexOracle, i: nat, p: PollState): (r: PollState)
    ensures LabelsPending(p.insights) ==>
              r.insights == GetAnalysisResults(o.labelResults(i)) && r.labelQueries == p.labelQueries + [i]
    ensures !LabelsPending(p.insights) ==> r.insights == p.insights && r.labelQueries == p.labelQueries
    ensures p.transcript == "" ==>
              r.transcript == GetTranscriptionText(o.transcriptionJob(i)) && r.transcriptQueries == p.transcriptQueries + [i]
    ensures p.transcript != "" ==> r.transcript == p.transcript && r.transcriptQueries == p.transcriptQueries
  {
    var labels := LabelsPending(p.insights);
    var speech := p.transcript == "";
    PollState(
      if labels then GetAnalysisResults(o.labelResults(i)) else p.insights,
      if speech then GetTranscriptionText(o.transcriptionJob(i)) else p.transcript,
      if labels then p.labelQueries + [i] else p.labelQueries,
      if speech then p.transcriptQueries + [i] else p.transcriptQueries)
  }

  /** The poll after `n` attempts, had it not stopped: each service was queried at most once
      per attempt, at attempts below `n`, in increasing order */
  function PollAfter(o: IndexOracle, n: nat): (r: PollState)
    decreases n
    ensures n == 0 ==> r == PollStart
    ensures |r.labelQueries| <= n && |r.transcriptQueries| <= n
    ensures forall k :: 0 <= k < |r.labelQueries| ==> r.labelQueries[k] < n
    ensures forall k :: 0 <= k < |r.transcriptQueries| ==> r.transcriptQueries[k] < n
    ensures forall k, l :: 0 <= k < l < |r.labelQueries| ==> r.labelQueries[k] < r.labelQueries[l]
    ensures forall k, l :: 0 <= k < l < |r.transcriptQueries| ==> r.transcriptQueries[k] < r.transcriptQueries[l]
  {
    if n == 0 then PollStart else PollStep(o, n - 1, PollAfter(o, n - 1))
  }

  /** The number of attempts made from attempt `n` on: the first attempt after which the poll
      has converged, or the whole budget */
  function AttemptsFrom(o: IndexOracle, n: nat): (r: nat)
    requires 1 <= n <= MaxRetries
    decreases MaxRetries - n
    ensures n <= r <= MaxRetries
    ensures forall j :: n <= j < r ==> !Converged(PollAfter(o, j))
    ensures r < MaxRetries ==> Converged(PollAfter(o, r))
  {
    if n == MaxRetries || Converged(PollAfter(o, n)) then n else AttemptsFrom(o, n + 1)
  }

  /** The number of attempts the poll makes */
  function Attempts(o: IndexOracle): (r: nat)
    ensures 1 <= r <= MaxRetries
    ensures forall j :: 1 <= j < r ==> !Converged(PollAfter(o, j))
    ensures r < MaxRetries ==> Converged(PollAfter(o, r))
  {
    AttemptsFrom(o, 1)
  }

  /** The stopping rule determines the number of attempts: at most the budget, and fewer
      exactly when the poll converged at the last of them and at no earlier one */
  lemma AttemptsUnique(o: IndexOracle, a: nat)
    requires 1 <= a <= MaxRetries
    requires forall j :: 1 <= j < a ==> !Converged(PollAfter(o, j))
    requires a < MaxRetries ==> Converged(PollAfter(o, a))
    ensures a == Attempts(o)
  {
  }

  /** The poll's outcome and the number of attempts it took */
  datatype PollOutcome = PollOutcome(final: PollState, attempts: nat)

  function PollResult(o: IndexOracle): (r: PollOutcome)
    ensures 1 <= r.attempts <= MaxRetries
    ensures r.attempts < MaxRetries ==> Converged(r.final)
  {
    PollOutcome(PollAfter(o, Attempts(o)), Attempts(o))
  }

  /** Once obtained, a transcript is never overwritten */
  lemma {:induction false} TranscriptKept(o: IndexOracle, j: nat, k: nat)
    requires j <= k && PollAfter(o, j).transcript != ""
    ensures PollAfter(o, k).transcript == PollAfter(o, j).transcript
    decreases k
  {
    if j < k {
      TranscriptKept(o, j, k - 1);
    }
  }

  /** Once label detection has succeeded, its result is never re-queried or replaced */
  lemma {:induction false} SucceededInsightsKept(o: IndexOracle, j: nat, k: nat)
    requires j <= k && !LabelsPending(PollAfter(o, j).insights)
    ensures PollAfter(o, k).insights == PollAfter(o, j).insights
    ensures PollAfter(o, k).labelQueries == PollAfter(o, j).labelQueries
    decreases k
  {
    if j < k {
      SucceededInsightsKept(o, j, k - 1);
    }
  }

  /** A `FAILED` label-detection job is not terminal: the next attempt queries it again */
  lemma FailedJobRepolled(o: IndexOracle, j: nat)
    requires PollAfter(o, j).insights.Insights? && PollAfter(o, j).insights.jobStatus == Some("FAILED")
    ensures PollAfter(o, j + 1).insights == GetAnalysisResults(o.labelResults(j))
    ensures PollAfter(o, j + 1).labelQueries == PollAfter(o, j).labelQueries + [j]
  {
  }

  /** Queries are recorded only for attempts already made */
  lemma {:induction false} QueriesBefore(o: IndexOracle, n: nat)
    ensures forall i :: i in PollAfter(o, n).labelQueries ==> i < n
    ensures forall i :: i in PollAfter(o, n).transcriptQueries ==> i < n
    decreases n
  {
    if n > 0 {
      QueriesBefore(o, n - 1);
    }
  }

  /** Label detection is queried at attempt `i` exactly when its last result had not
      succeeded, and the transcription job exactly when no transcript was held */
  lemma {:induction false} QueriedExactlyWhilePending(o: IndexOracle, n: nat, i: nat)
    requires i < n
    ensures i in PollAfter(o, n).labelQueries <==> LabelsPending(PollAfter(o, i).insights)
    ensures i in PollAfter(o, n).transcriptQueries <==> PollAfter(o, i).transcript == ""
    decreases n
  {
    if i < n - 1 {
      QueriedExactlyWhilePending(o, n - 1, i);
    } else {
      QueriesBefore(o, i);
    }
  }

  // ---------------------------------------------------------------------------------------
  // The node
  // ---------------------------------------------------------------------------------------

  /** What the node returns (`update`), the remote state afterwards, the calls it made and,
      when it got as far, the poll's outcome */
  datatype IndexResult = IndexResult(
    update: StateUpdate,
    cloud: Cloud,
    calls: seq<ExternalCall>,
    poll: Option<PollOutcome>)

  /** `index_video_node(state)`, as one function of the state, the remote state and what the
      services answer */
  function IndexVideo(state: AuditState, cloud: Cloud, o: IndexOracle): (r: IndexResult)
    ensures r.calls <= SubmissionCalls(state.videoUrl, state.videoId)
    ensures r.update.error.None? <==> r.calls == SubmissionCalls(state.videoUrl, state.videoId)
    ensures r.update.error.None? ==>
              && r.poll == Some(PollResult(o))
              && r.update == EvidenceUpdate(ExtractData(r.poll.value.final.insights, Some(r.poll.value.final.transcript)))
    ensures r.update.error.Some? ==>
              && r.poll.None?
              && |r.update.error.value| == 1
              && r.update == IndexFailure(r.update.error.value[0])
    ensures o.clientInit.None? && !IsYoutubeUrl(state.videoUrl) ==>
      r.update == IndexFailure(InvalidUrlMessage) && r.calls == [] && r.cloud == cloud
    ensures r.update.videoUrl.None? && r.update.videoId.None?
    // each failing step ends the node with its own message, and the remote state as far as it got
    ensures o.clientInit.Some? ==> r.update == IndexFailure(o.clientInit.value) && r.cloud == cloud
    ensures o.clientInit.None? && IsYoutubeUrl(state.videoUrl) && o.download.Some? ==>
              r.update == IndexFailure(o.download.value) && r.cloud == cloud
    ensures o.clientInit.None? && IsYoutubeUrl(state.videoUrl) && o.download.None? && o.upload.Some? ==>
              r.update == IndexFailure(o.upload.value) && r.cloud == cloud
    ensures o.clientInit.None? && IsYoutubeUrl(state.videoUrl) && o.download.None? && o.upload.None? ==>
              var store := cloud.store[(DefaultBucket, StorageKey(state.videoId)) := TempVideoPath];
              var started := StartTranscriptionJob(cloud.transcriptionJobs, AnalysisBucket, StorageKey(state.videoId),
                                                   TranscriptionJobName(state.videoId),
                                                   o.deleteTranscription, o.startTranscription);
              && (o.startLabelDetection.Failure? ==>
                    r.update == IndexFailure(o.startLabelDetection.error) && r.cloud == cloud.(store := store))
              && (o.startLabelDetection.Success? ==> r.cloud == Cloud(store, started.1))
              && (o.startLabelDetection.Success? && started.0.Failure? ==> r.update == IndexFailure(started.0.error))
  {
    var calls := SubmissionCalls(state.videoUrl, state.videoId);
    var key := StorageKey(state.videoId);
    if o.clientInit.Some? then
      IndexResult(IndexFailure(o.clientInit.value), cloud, [], None)
    else if !IsYoutubeUrl(state.videoUrl) then
      IndexResult(IndexFailure(InvalidUrlMessage), cloud, [], None)
    else if o.download.Some? then
      IndexResult(IndexFailure(o.download.value), cloud, calls[..1], None)
    else
      match UploadToS3(cloud.store, TempVideoPath, state.videoId, None, o.upload)
      case Failure(e) => IndexResult(IndexFailure(e), cloud, calls[..2], None)
      case Success((_, store)) =>
        match o.startLabelDetection
        case Failure(e) => IndexResult(IndexFailure(e), cloud.(store := store), calls[..3], None)
        case Success(_) =>
          var (started, jobs) := StartTranscriptionJob(cloud.transcriptionJobs, AnalysisBucket, key,
                                                       TranscriptionJobName(state.videoId),
                                                       o.deleteTranscription, o.startTranscription);
          match started
          case Failure(e) => IndexResult(IndexFailure(e), Cloud(store, jobs), calls[..5], None)
          case Success(_) =>
            var poll := PollResult(o);
            IndexResult(EvidenceUpdate(ExtractData(poll.final.insights, Some(poll.final.transcript))),
                        Cloud(store, jobs), calls, Some(poll))
  }

  /** `index_video_node`: acquisition and submission, each step's error ending the node with
      the failure shape, then the polling loop and the extraction */
  method IndexVideoNode(state: AuditState, cloud: Cloud, o: IndexOracle) returns (r: IndexResult)
    ensures r == IndexVideo(state, cloud, o)
  {
    var videoUrl, videoId := state.videoUrl, state.videoId;
    ghost var all := SubmissionCalls(videoUrl, videoId);
    if o.clientInit.Some? {
      return IndexResult(IndexFailure(o.clientInit.value), cloud, [], None);
    }
    // download part
    if !IsYoutubeUrl(videoUrl) {
      return IndexResult(IndexFailure(InvalidUrlMessage), cloud, [], None);
    }
    var calls := [DownloadVideo(videoUrl, TempVideoPath)];
    if o.download.Some? {
      assert calls == all[..1];
      return IndexResult(IndexFailure(o.download.value), cloud, calls, None);
    }
    // upload part
    var key := StorageKey(videoId);
    var uploaded := UploadToS3(cloud.store, TempVideoPath, videoId, None, o.upload);
    calls := calls + [UploadObject(TempVideoPath, ResolveBucket(None), key)];
    if uploaded.Failure? {
      assert calls == all[..2];
      return IndexResult(IndexFailure(uploaded.error), cloud, calls, None);
    }
    var current := cloud.(store := uploaded.value.1);
    // label detection
    calls := calls + [LabelDetectionStart(AnalysisBucket, key)];
    if o.startLabelDetection.Failure? {
      assert calls == all[..3];
      return IndexResult(IndexFailure(o.startLabelDetection.error), current, calls, None);
    }
    // transcription
    var jobName := TranscriptionJobName(videoId);
    var (started, jobs) := StartTranscriptionJob(current.transcriptionJobs, AnalysisBucket, key, jobName,
                                                 o.deleteTranscription, o.startTranscription);
    current := current.(transcriptionJobs := jobs);
    calls := calls + [TranscriptionJobDelete(jobName), TranscriptionJobStart(jobName, S3Uri(AnalysisBucket, key))];
    if started.Failure? {
      assert calls == all[..5];
      return IndexResult(IndexFailure(started.error), current, calls, None);
    }
    // cleaning
    calls := calls + [TempFileRemove(TempVideoPath)];

    assert calls == all;
    // polling
    var poll := Poll(o);
    // extract
    var evidence := ExtractData(poll.final.insights, Some(poll.final.transcript));
    r := IndexResult(EvidenceUpdate(evidence), current, calls, Some(poll));
  }

  /** The polling loop of `index_video_node`: up to thirty attempts, each querying whichever
      service has not yet delivered, stopping after the first attempt at which both have */
  method Poll(o: IndexOracle) returns (out: PollOutcome)
    ensures out == PollResult(o)
  {
    var insights, transcriptText := NoInsights, "";
    var labelQueries: seq<nat>, transcriptQueries: seq<nat> := [], [];
    var i := 0;
    while i < MaxRetries
      invariant 0 <= i <= MaxRetries
      invariant PollState(insights, transcriptText, labelQueries, transcriptQueries) == PollAfter(o, i)
      invariant forall j :: 1 <= j <= i ==> !Converged(PollAfter(o, j))
    {
      ghost var before := PollState(insights, transcriptText, labelQueries, transcriptQueries);
      if LabelsPending(insights) {
        insights := GetAnalysisResults(o.labelResults(i));
        labelQueries := labelQueries + [i];
      }
      if transcriptText == "" {
        transcriptText := GetTranscriptionText(o.transcriptionJob(i));
        transcriptQueries := transcriptQueries + [i];
      }
      i := i + 1;
      assert PollState(insights, transcriptText, labelQueries, transcriptQueries) == PollStep(o, i - 1, before);
      if insights.Insights? && insights.jobStatus == Some("SUCCEEDED") && transcriptText != "" {
        break;
      }
    }
    AttemptsUnique(o, i);
    out := PollOutcome(PollState(insights, transcriptText, labelQueries, transcriptQueries), i);
  }

  /** Temporary-file cleanup happens only on the success path: a failure after the
      download leaves the file behind */
  lemma TempFileLeftOnLateFailure(state: AuditState, cloud: Cloud, o: IndexOracle)
    requires IndexVideo(state, cloud, o).update.error.Some?
    ensures TempFileRemove(TempVideoPath) !in IndexVideo(state, cloud, o).calls
  {
    var r := IndexVideo(state, cloud, o);
    var all := SubmissionCalls(state.videoUrl, state.videoId);
    assert r.calls == all[..|r.calls|] && |r.calls| <= 5;
  }

  /** Running the node twice for the same session leaves the object store and the
      transcription jobs as one run does. When the deletion of the earlier job fails, the
      second run instead collides with the job the first one started and fails with the
      conflict, leaving the remote state as it was. */
  lemma IndexVideoIdempotent(state: AuditState, cloud: Cloud, o: IndexOracle)
    requires IndexVideo(state, cloud, o).update.error.None?
    ensures var once := IndexVideo(state, cloud, o).cloud;
      !o.deleteTranscription ==> IndexVideo(state, once, o).update.error.None? && IndexVideo(state, once, o).cloud == once
    ensures var once := IndexVideo(state, cloud, o).cloud;
      o.deleteTranscription ==> IndexVideo(state, once, o).update.error == Some([ConflictError])
                                && IndexVideo(state, once, o).cloud == once
  {
    var key, name := StorageKey(state.videoId), TranscriptionJobName(state.videoId);
    var del := o.deleteTranscription;
    assert o.clientInit.None? && IsYoutubeUrl(state.videoUrl) && o.download.None?;
    assert o.upload.None? && o.startLabelDetection.Success? && o.startTranscription.None?;
    var up := UploadToS3(cloud.store, TempVideoPath, state.videoId, None, None);
    var started := StartTranscriptionJob(cloud.transcriptionJobs, AnalysisBucket, key, name, del, None);
    UploadIdempotent(cloud.store, TempVideoPath, state.videoId, None);
    var once := Cloud(up.value.1, started.1);
    assert IndexVideo(state, cloud, o).cloud == once;
    assert UploadToS3(once.store, TempVideoPath, state.videoId, None, None) == up;
    if del {
      assert StartTranscriptionJob(once.transcriptionJobs, AnalysisBucket, key, name, del, None)
        == (Failure(ConflictError), once.transcriptionJobs);
    } else {
      StartTranscriptionIdempotent(cloud.transcriptionJobs, AnalysisBucket, key, name);
      assert StartTranscriptionJob(once.transcriptionJobs, AnalysisBucket, key, name, del, None) == started;
    }
  }

  // =======================================================================================
  // Auditor node
  // =======================================================================================

  const NoTranscriptMessage: string := "No transcript available for analysis"

  /** The rule context used when retrieval fails or finds nothing */
  const SentinelRules: string := "No specific regulatory context found. Audit against general brand integrity."

  const RuleSeparator: string := "\n\n"

  /** The number of rule passages retrieved, and the search timeout in seconds */
  const TopK: nat := 3
  const SearchTimeout: nat := 10

  const Fence: string := "```"
  const JsonFence: string := "```json"

  /** `str(e)` of the error `.group` raises on the `None` that `re.search` returns */
  const NoJsonBlockMessage: string := "'NoneType' object has no attribute 'group'"

  const DefaultStatus: string := "success"
  const DefaultReport: string := "Audit completed successfully."

  /** One retrieved rule passage */
  datatype Document = Document(pageContent: string)

  /** `similarity_search(query_text, k=3, timeout=10)` */
  datatype SearchRequest = SearchRequest(query: string, k: nat, timeoutSeconds: nat)

  /** What the model is given: the rule context embedded in the system instruction, and the
      video metadata, transcript and OCR text of the user message, as the state holds them */
  datatype ChatRequest = ChatRequest(
    rulesContext: string,
    videoMetadata: Option<seq<LabelEntry>>,
    transcript: Option<string>,
    ocrText: Option<seq<string>>)

  /** A reply `json.loads` accepted, by the keys it holds */
  datatype ModelReply = ModelReply(
    complianceResult: Option<seq<ComplianceIssue>>,
    finalStatus: Option<string>,
    finalReport: Option<string>)

  /** What the auditor learns from outside: the vector search (constructing the store
      included), the model call, and `json.loads` as a partial parser */
  datatype AuditOracle = AuditOracle(
    search: SearchRequest -> Result<seq<Document>, string>,
    invoke: ChatRequest -> Result<string, string>,
    parse: string -> Result<ModelReply, string>)

  /** The external calls the auditor makes */
  datatype AuditCall = VectorSearch(search: SearchRequest) | ModelInvocation(chat: ChatRequest)

  /** The auditor's update, its `final_report` (not a field of the state) and its calls */
  datatype AuditResult = AuditResult(update: StateUpdate, finalReport: Option<string>, calls: seq<AuditCall>)

  /** `f"{transcript} {' '.join(ocr_text)}"`: the query starts with the transcript and a
      space, and ends with the joined OCR text */
  function Query(transcript: string, ocrText: seq<string>): (q: string)
    ensures |q| == |transcript| + 1 + |Join(" ", ocrText)|
    ensures q[..|transcript|] == transcript && q[|transcript|] == ' '
    ensures q[|transcript| + 1..] == Join(" ", ocrText)
  {
    transcript + " " + Join(" ", ocrText)
  }

  function PageContents(docs: seq<Document>): (r: seq<string>)
    ensures |r| == |docs| && forall i :: 0 <= i < |docs| ==> r[i] == docs[i].pageContent
  {
    seq(|docs|, i requires 0 <= i < |docs| => docs[i].pageContent)
  }

  /** The rule context: the passages joined by blank lines, or the sentinel when retrieval
      raised or returned no passage */
  function RulesContext(retrieved: Result<seq<Document>, string>): (r: string)
    ensures retrieved.Failure? || retrieved.value == [] ==> r == SentinelRules
    ensures retrieved.Success? && retrieved.value != [] ==> r == Join(RuleSeparator, PageContents(retrieved.value))
  {
    if retrieved.Success? && retrieved.value != [] then Join(RuleSeparator, PageContents(retrieved.value))
    else SentinelRules
  }

  /** Every retrieved passage reaches the model */
  lemma RulesContainEveryPassage(docs: seq<Document>, i: nat)
    requires i < |docs|
    ensures exists k: nat :: OccursAt(RulesContext(Success(docs)), docs[i].pageContent, k)
  {
    JoinContainsPart(RuleSeparator, PageContents(docs), i);
    var k: nat :| OccursAt(Join(RuleSeparator, PageContents(docs)), PageContents(docs)[i], k);
    assert OccursAt(RulesContext(Success(docs)), docs[i].pageContent, k);
  }

  /** `p`..`q` delimit a ```` ```json ```` block of `s`: an opening fence with the tag at `p`,
      a closing fence at `q` */
  predicate JsonBlockAt(s: string, p: nat, q: nat) {
    OccursAt(s, JsonFence, p) && p + |JsonFence| <= q && OccursAt(s, Fence, q)
  }

  /** The match of `re.search(r"```json(.*?)```", s, re.DOTALL)`: the leftmost opening
      fence that is closed, and the first closing fence after it */
  function FindJsonBlock(s: string): (r: Option<(nat, nat)>)
    ensures r.None? ==> forall p: nat, q: nat :: !JsonBlockAt(s, p, q)
    ensures r.Some? ==> JsonBlockAt(s, r.value.0, r.value.1)
    ensures r.Some? ==> forall p :: 0 <= p < r.value.0 ==> !OccursAt(s, JsonFence, p)
    ensures r.Some? ==> forall q :: r.value.0 + |JsonFence| <= q < r.value.1 ==> !OccursAt(s, Fence, q)
  {
    match IndexOf(s, JsonFence, 0)
    case None => None
    case Some(p) =>
      match IndexOf(s, Fence, p + |JsonFence|)
      case None => None
      case Some(q) => Some((p, q))
  }

  /** `.group(1)`: the text between the fences of the block `FindJsonBlock` matches (see
      `FirstBlockFound` for which block that is) */
  function JsonBlockBody(s: string): (r: Option<string>)
    ensures r.None? <==> FindJsonBlock(s).None?
    ensures FindJsonBlock(s).Some? ==>
              var (p, q) := FindJsonBlock(s).value;
              p + |JsonFence| <= q <= |s| && r == Some(s[p + |JsonFence|..q])
  {
    match FindJsonBlock(s)
    case None => None
    case Some((p, q)) => Some(s[p + |JsonFence|..q])
  }

  /** The text handed to `json.loads`: the reply as it is when it holds no fence, else the
      stripped body of its first ```` ```json ```` block, and the `.group` error when there is
      none */
  function ResponsePayload(content: string): (r: Result<string, string>)
    ensures !Contains(content, Fence) ==> r == Success(content)
    ensures Contains(content, Fence) && JsonBlockBody(content).None? ==> r == Failure(NoJsonBlockMessage)
    ensures Contains(content, Fence) && JsonBlockBody(content).Some? ==> r == Success(Strip(JsonBlockBody(content).value))
  {
    if Contains(content, Fence) then
      match JsonBlockBody(content)
      case None => Failure(NoJsonBlockMessage)
      case Some(body) => Success(Strip(body))
    else Success(content)
  }

  predicate NoBacktick(s: string) {
    forall k :: 0 <= k < |s| ==> s[k] != '`'
  }

  /** No fence starts inside a stretch without backticks */
  lemma NoFenceInPlainText(s: string, pat: string, lo: nat, hi: nat)
    requires lo <= hi <= |s| && pat != [] && pat[0] == '`'
    requires NoBacktick(s[lo..hi])
    ensures forall k :: lo <= k < hi ==> !OccursAt(s, pat, k)
  {
    forall k | lo <= k < hi ensures !OccursAt(s, pat, k) {
      assert s[k] == s[lo..hi][k - lo];
      if k + |pat| <= |s| {
        assert s[k..k + |pat|][0] == s[k];
      }
    }
  }

  /** A block with no opening fence before it and no closing fence inside it is the match */
  lemma FirstBlockFound(s: string, p: nat, q: nat)
    requires JsonBlockAt(s, p, q)
    requires forall k :: 0 <= k < p ==> !OccursAt(s, JsonFence, k)
    requires forall k :: p + |JsonFence| <= k < q ==> !OccursAt(s, Fence, k)
    ensures FindJsonBlock(s) == Some((p, q))
    ensures ResponsePayload(s) == Success(Strip(s[p + |JsonFence|..q]))
  {
    IndexOfFirst(s, JsonFence, 0, p);
    IndexOfFirst(s, Fence, p + |JsonFence|, q);
    ContainsIffOccurs(s, Fence);
  }

  /** A reply wrapped in a ```` ```json ```` fence, with any prose before it, yields the stripped
      body of the block */
  lemma FencedPayload(pre: string, body: string, post: string)
    requires NoBacktick(pre) && NoBacktick(body)
    ensures ResponsePayload(pre + JsonFence + body + Fence + post) == Success(Strip(body))
  {
    var s := pre + JsonFence + body + Fence + post;
    var p := |pre|;
    var b := p + |JsonFence|;
    var q := b + |body|;
    assert s[0..p] == pre;
    assert s[p..b] == JsonFence;
    assert s[b..q] == body;
    assert s[q..q + |Fence|] == Fence;
    NoFenceInPlainText(s, JsonFence, 0, p);
    NoFenceInPlainText(s, Fence, b, q);
    FirstBlockFound(s, p, q);
  }

  /** A reply fenced without the `json` tag is rejected, not parsed */
  lemma UntaggedFenceRejected(content: string)
    requires Contains(content, Fence) && !Contains(content, JsonFence)
    ensures ResponsePayload(content) == Failure(NoJsonBlockMessage)
  {
    ContainsIffOccurs(content, JsonFence);
  }

  /** The update of a model or parse failure */
  function AuditFailureUpdate(message: string): (u: StateUpdate)
    ensures u.error == Some([message]) && u.finalStatus == Some("failed") && u.complianceResult == Some([])
    ensures u.videoUrl.None? && u.videoId.None? && u.localFilePath.None? && u.videoMetadata.None?
    ensures u.transcript.None? && u.ocrText.None? && u.finalMessage.None?
  {
    NoUpdate.(complianceResult := Some([]), finalStatus := Some("failed"), error := Some([message]))
  }

  /** The update of the short-circuit on a missing transcript */
  const NoTranscriptUpdate: StateUpdate :=
    StateUpdate(
      videoUrl := None, videoId := None, localFilePath := None,
      videoMetadata := Some([]), transcript := Some(""), ocrText := Some([]),
      complianceResult := Some([]), finalStatus := Some("failed"),
      finalMessage := Some("Failed to index video"), error := Some([NoTranscriptMessage]))

  /** The search the auditor makes for a state with a transcript */
  function SearchFor(state: AuditState): SearchRequest
    requires state.transcript.Some?
  {
    SearchRequest(Query(state.transcript.value, state.ocrText.GetOr([])), TopK, SearchTimeout)
  }

  /** The model request the auditor makes for a state, given what retrieval returned */
  function ChatFor(state: AuditState, retrieved: Result<seq<Document>, string>): ChatRequest {
    ChatRequest(RulesContext(retrieved), state.videoMetadata, state.transcript, state.ocrText)
  }

  /** The outcome of the model phase: the reply's fields with their defaults, or the error
      of the model call, of the fence search or of the parse */
  function Verdict(reply: Result<string, string>, parse: string -> Result<ModelReply, string>): (r: Result<ModelReply, string>)
    ensures r.Success? ==> r.value.complianceResult.Some? && r.value.finalStatus.Some? && r.value.finalReport.Some?
    // which step's error a failure carries
    ensures reply.Failure? ==> r == Failure(reply.error)
    ensures reply.Success? && ResponsePayload(reply.value).Failure? ==> r == Failure(ResponsePayload(reply.value).error)
    ensures reply.Success? && ResponsePayload(reply.value).Success? ==>
              (parse(ResponsePayload(reply.value).value).Failure? <==> r.Failure?)
              && (r.Failure? ==> r.error == parse(ResponsePayload(reply.value).value).error)
    // key by key: a present key keeps its parsed value, a missing one gets its default
    ensures r.Success? ==>
              && reply.Success? && ResponsePayload(reply.value).Success?
              && parse(ResponsePayload(reply.value).value).Success?
              && var data := parse(ResponsePayload(reply.value).value).value;
                 && (data.complianceResult.Some? ==> r.value.complianceResult == data.complianceResult)
                 && (data.complianceResult.None? ==> r.value.complianceResult == Some([]))
                 && (data.finalStatus.Some? ==> r.value.finalStatus == data.finalStatus)
                 && (data.finalStatus.None? ==> r.value.finalStatus == Some(DefaultStatus))
                 && (data.finalReport.Some? ==> r.value.finalReport == data.finalReport)
                 && (data.finalReport.None? ==> r.value.finalReport == Some(DefaultReport))
  {
    match reply
    case Failure(e) => Failure(e)
    case Success(content) =>
      match ResponsePayload(content)
      case Failure(e) => Failure(e)
      case Success(payload) =>
        match parse(payload)
        case Failure(e) => Failure(e)
        case Success(data) =>
          Success(ModelReply(
            Some(data.complianceResult.GetOr([])),
            Some(data.finalStatus.GetOr(DefaultStatus)),
            Some(data.finalReport.GetOr(DefaultReport))))
  }

  /** `auto_content_node(state)` */
  function AutoContent(state: AuditState, o: AuditOracle): (r: AuditResult)
    ensures r.calls == [] <==> state.transcript.None? || state.transcript == Some("")
    ensures r.calls == [] ==> r == AuditResult(NoTranscriptUpdate, None, [])
    ensures r.calls != [] ==>
      r.calls == [VectorSearch(SearchFor(state)), ModelInvocation(ChatFor(state, o.search(SearchFor(state))))]
    ensures r.update.error.Some? ==> r.update.complianceResult == Some([]) && r.update.finalStatus == Some("failed")
    ensures r.update.videoUrl.None? && r.update.videoId.None?
    ensures state.transcript.Some? && state.transcript.value != "" ==>
              var v := Verdict(o.invoke(ChatFor(state, o.search(SearchFor(state)))), o.parse);
              && (v.Failure? ==> r.update == AuditFailureUpdate(v.error) && r.finalReport == Some("Audit error: " + v.error))
              && (v.Success? ==> r.update == NoUpdate.(complianceResult := v.value.complianceResult, finalStatus := v.value.finalStatus)
                                 && r.finalReport == v.value.finalReport)
  {
    if state.transcript.None? || state.transcript.value == "" then
      AuditResult(NoTranscriptUpdate, None, [])
    else
      var request := SearchFor(state);
      var chat := ChatFor(state, o.search(request));
      var calls := [VectorSearch(request), ModelInvocation(chat)];
      match Verdict(o.invoke(chat), o.parse)
      case Failure(e) => AuditResult(AuditFailureUpdate(e), Some("Audit error: " + e), calls)
      case Success(v) =>
        AuditResult(NoUpdate.(complianceResult := v.complianceResult, finalStatus := v.finalStatus),
                    v.finalReport, calls)
  }

  /** The auditor reports an error exactly when there was no transcript, or the model call,
      the fence search or the parse failed; retrieval failure is never one of them */
  lemma AuditErrorIff(state: AuditState, o: AuditOracle)
    requires state.transcript.Some? && state.transcript.value != ""
    ensures var chat := ChatFor(state, o.search(SearchFor(state)));
      AutoContent(state, o).update.error.Some? <==> Verdict(o.invoke(chat), o.parse).Failure?
  {
  }

  /** A reply missing keys gets the defaults: no issues, `success`, the stock report */
  lemma AuditDefaults(state: AuditState, o: AuditOracle, content: string)
    requires state.transcript.Some? && state.transcript.value != ""
    requires o.invoke(ChatFor(state, o.search(SearchFor(state)))) == Success(content)
    requires ResponsePayload(content).Success?
    requires o.parse(ResponsePayload(content).value) == Success(ModelReply(None, None, None))
    ensures AutoContent(state, o).update == NoUpdate.(complianceResult := Some([]), finalStatus := Some(DefaultStatus))
    ensures AutoContent(state, o).finalReport == Some(DefaultReport)
  {
  }

  /** A fenced reply is parsed from the stripped body of its block, and the issues it holds
      are the node's compliance result exactly */
  lemma FencedReplyParsed(state: AuditState, o: AuditOracle, pre: string, body: string, post: string, reply: ModelReply)
    requires state.transcript.Some? && state.transcript.value != ""
    requires NoBacktick(pre) && NoBacktick(body)
    requires o.invoke(ChatFor(state, o.search(SearchFor(state)))) == Success(pre + JsonFence + body + Fence + post)
    requires o.parse(Strip(body)) == Success(reply)
    ensures AutoContent(state, o).update.complianceResult == Some(reply.complianceResult.GetOr([]))
    ensures AutoContent(state, o).update.error.None?
  {
    FencedPayload(pre, body, post);
  }

  /** A reply with no fence is parsed as it is */
  lemma UnfencedReplyParsed(state: AuditState, o: AuditOracle, content: string, reply: ModelReply)
    requires state.transcript.Some? && state.transcript.value != ""
    requires !Contains(content, Fence)
    requires o.invoke(ChatFor(state, o.search(SearchFor(state)))) == Success(content)
    requires o.parse(content) == Success(reply)
    ensures AutoContent(state, o).update.complianceResult == Some(reply.complianceResult.GetOr([]))
    ensures AutoContent(state, o).update.finalStatus == Some(reply.finalStatus.GetOr(DefaultStatus))
  {
  }

  /** A search that finds nothing */
  function NoDocuments(request: SearchRequest): Result<seq<Document>, string> {
    Success([])
  }

  /** A failing retrieval is recovered: the audit proceeds exactly as if nothing had been
      found, with the sentinel rule context and no error of its own */
  lemma RetrievalFailureFallsBack(state: AuditState, o: AuditOracle)
    requires state.transcript.Some? && state.transcript.value != ""
    requires o.search(SearchFor(state)).Failure?
    ensures ChatFor(state, o.search(SearchFor(state))).rulesContext == SentinelRules
    ensures AutoContent(state, o) == AutoContent(state, o.(search := NoDocuments))
  {
  }

  /** The auditor never reads `final_status` */
  lemma AuditIgnoresFinalStatus(state: AuditState, o: AuditOracle, status: Option<string>)
    ensures AutoContent(state.(finalStatus := status), o) == AutoContent(state, o)
  {
  }
}
