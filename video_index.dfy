/** The video-indexing service: normalisation of a label-detection result and a transcript
    into the evidence record, the deterministic storage key and URI, and the transcription
    and label-detection calls, each against an abstract model of the remote service. */
module VideoIndex {
  import opened Wrappers

  /** The bucket that `upload_to_s3` falls back to */
  const DefaultBucket: string := "orchestra-frankfurt"

  // ---------------------------------------------------------------------------------------
  // Label-detection results and the evidence record
  // ---------------------------------------------------------------------------------------

  /** The `Label` dictionary of one detection: `Name` and `Confidence`, each possibly absent */
  datatype LabelInfo = LabelInfo(name: Option<string>, confidence: Option<real>)

  /** One element of the `Labels` list: its `Label` dictionary and its `Timestamp` (ms) */
  datatype DetectedLabel = DetectedLabel(info: Option<LabelInfo>, timestamp: Option<int>)

  /** A label-detection response. `NoInsights` is the empty dictionary (or `None`), the only
      falsy value; `Insights` is a non-empty dictionary whose `JobStatus` and `Labels` keys
      may each be absent. */
  datatype Insights =
    | NoInsights
    | Insights(jobStatus: Option<string>, labels: Option<seq<DetectedLabel>>)

  /** One normalised label of the evidence record: `{name, confidence, timestamp}` */
  datatype LabelEntry = LabelEntry(name: Option<string>, confidence: Option<real>, timestamp: Option<int>)

  /** The dictionary `extract_data` returns */
  datatype Evidence = Evidence(
    transcript: string,
    ocrText: seq<string>,
    videoMetadata: seq<LabelEntry>,
    finalStatus: string)

  /** The labels `extract_data` iterates over: `Labels`, or none when absent or falsy */
  function LabelsOf(insights: Insights): seq<DetectedLabel> {
    if insights.Insights? && insights.labels.Some? then insights.labels.value else []
  }

  /** One label normalised; a missing `Label`, `Name`, `Confidence` or `Timestamp` becomes
      `None` in the corresponding field */
  function NormalizeLabel(l: DetectedLabel): (e: LabelEntry)
    ensures e.timestamp == l.timestamp
    ensures l.info.None? ==> e.name.None? && e.confidence.None?
    ensures l.info.Some? ==> e.name == l.info.value.name && e.confidence == l.info.value.confidence
  {
    match l.info
    case None => LabelEntry(None, None, l.timestamp)
    case Some(info) => LabelEntry(info.name, info.confidence, l.timestamp)
  }

  /** The job status `extract_data` branches on: `FAILED` for an empty result,
      `IN_PROGRESS` when the key is absent */
  function JobStatusOf(insights: Insights): string {
    match insights
    case NoInsights => "FAILED"
    case Insights(status, _) => status.GetOr("IN_PROGRESS")
  }

  /** `extract_data(rek_insights, transcript_text)` */
  function ExtractData(insights: Insights, transcriptText: Option<string>): (r: Evidence)
    ensures |r.videoMetadata| == |LabelsOf(insights)|
    ensures forall i :: 0 <= i < |r.videoMetadata| ==> r.videoMetadata[i] == NormalizeLabel(LabelsOf(insights)[i])
    ensures r.transcript == if transcriptText.Some? then transcriptText.value else ""
    ensures r.ocrText == []
    ensures r.finalStatus == "success" <==> insights.Insights? && insights.jobStatus == Some("SUCCEEDED")
    ensures r.finalStatus == "failed" <==> insights.NoInsights? || insights.jobStatus == Some("FAILED")
    ensures r.finalStatus == "processing" <==>
      insights.Insights? && insights.jobStatus != Some("SUCCEEDED") && insights.jobStatus != Some("FAILED")
  {
    var labels := LabelsOf(insights);
    var status := JobStatusOf(insights);
    Evidence(
      transcriptText.GetOr(""),
      [],
      seq(|labels|, i requires 0 <= i < |labels| => NormalizeLabel(labels[i])),
      if status == "SUCCEEDED" then "success" else if status == "FAILED" then "failed" else "processing")
  }

  /** `_empty_response(message)`: the evidence of an absent result, plus the message */
  function EmptyResponse(message: string): (r: (Evidence, string))
    ensures r.0 == ExtractData(NoInsights, None)
    ensures r.1 == message
  {
    (Evidence("", [], [], "failed"), message)
  }

  /** A label entry is never dropped, whatever is missing from it */
  lemma LabelNeverDropped(insights: Insights, transcript: Option<string>, i: nat)
    requires i < |LabelsOf(insights)|
    ensures var l := LabelsOf(insights)[i];
      i < |ExtractData(insights, transcript).videoMetadata|
      && ExtractData(insights, transcript).videoMetadata[i].timestamp == l.timestamp
      && (l.info.None? ==> ExtractData(insights, transcript).videoMetadata[i] == LabelEntry(None, None, l.timestamp))
  {
  }

  // ---------------------------------------------------------------------------------------
  // Object storage
  // ---------------------------------------------------------------------------------------

  /** The storage key of a video: `videos/{video_id}.mp4` */
  function StorageKey(videoId: string): (k: string)
    ensures |k| == |videoId| + 11
    ensures k[..7] == "videos/" && k[|k| - 4..] == ".mp4"
    ensures k[7..|k| - 4] == videoId
  {
    "videos/" + videoId + ".mp4"
  }

  /** Two sessions with different ids never share a storage key */
  lemma StorageKeyInjective(a: string, b: string)
    requires StorageKey(a) == StorageKey(b)
    ensures a == b
  {
    var k := StorageKey(a);
    assert a == k[7..|k| - 4];
  }

  /** `s3://{bucket}/{key}` */
  function S3Uri(bucket: string, key: string): string {
    "s3://" + bucket + "/" + key
  }

  /** `bucket or self.default_bucket`: an absent or empty bucket name defaults */
  function ResolveBucket(bucket: Option<string>): (b: string)
    ensures bucket.Some? && bucket.value != "" ==> b == bucket.value
    ensures bucket.None? || bucket.value == "" ==> b == DefaultBucket
  {
    if bucket.Some? && bucket.value != "" then bucket.value else DefaultBucket
  }

  /** The object store: (bucket, key) to the local file whose bytes were uploaded there */
  type ObjectStore = map<(string, string), string>

  /** `upload_to_s3(local_path, video_id, bucket)`: the upload either raises (`uploadError`)
      or stores the file under the derived key and returns its URI */
  function UploadToS3(store: ObjectStore, localPath: string, videoId: string, bucket: Option<string>,
                      uploadError: Option<string>): (r: Result<(string, ObjectStore), string>)
    ensures r.Failure? <==> uploadError.Some?
    ensures r.Failure? ==> r.error == uploadError.value
    ensures r.Success? ==>
      var b, k := ResolveBucket(bucket), StorageKey(videoId);
      && r.value.0 == "s3://" + b + "/" + k
      && r.value.1 == store[(b, k) := localPath]
      && r.value.1.Keys == store.Keys + {(b, k)}
  {
    var b := ResolveBucket(bucket);
    var key := StorageKey(videoId);
    if uploadError.Some? then Failure(uploadError.value)
    else Success((S3Uri(b, key), store[(b, key) := localPath]))
  }

  /** Uploading the same file for the same session again overwrites the same object:
      the store is the same as after one upload */
  lemma UploadIdempotent(store: ObjectStore, localPath: string, videoId: string, bucket: Option<string>)
    ensures var once := UploadToS3(store, localPath, videoId, bucket, None);
      once.Success? && UploadToS3(once.value.1, localPath, videoId, bucket, None) == once
  {
    var once := UploadToS3(store, localPath, videoId, bucket, None).value.1;
    var slot := (ResolveBucket(bucket), StorageKey(videoId));
    assert once[slot := localPath] == once;
  }

  // ---------------------------------------------------------------------------------------
  // Label detection
  // ---------------------------------------------------------------------------------------

  /** `get_analysis_results(job_id)`: the service's response, or the empty dictionary when
      the call raised */
  function GetAnalysisResults(response: Result<Insights, string>): (r: Insights)
    ensures response.Failure? ==> r == NoInsights
    ensures response.Success? ==> r == response.value
  {
    match response
    case Success(insights) => insights
    case Failure(_) => NoInsights
  }

  // ---------------------------------------------------------------------------------------
  // Transcription
  // ---------------------------------------------------------------------------------------

  /** A transcription job as the speech-to-text service holds it */
  datatype TranscriptionJob = TranscriptionJob(mediaFileUri: string, mediaFormat: string, languageCode: string)

  /** The speech-to-text service's jobs, by job name */
  type Registry = map<string, TranscriptionJob>

  /** The error the service raises when a job name is already taken */
  const ConflictError: string := "ConflictException"

  /** The service's `delete_transcription_job`: `None` when it raises (no such job) */
  function DeleteJobCall(reg: Registry, name: string): (r: Option<Registry>)
    ensures r.Some? <==> name in reg
    ensures r.Some? ==> r.value == reg - {name}
  {
    if name in reg then Some(reg - {name}) else None
  }

  /** The service's `start_transcription_job`: fails on a name collision */
  function StartJobCall(reg: Registry, name: string, job: TranscriptionJob): (r: Result<Registry, string>)
    ensures r.Failure? <==> name in reg
    ensures r.Success? ==> r.value == reg[name := job]
  {
    if name in reg then Failure(ConflictError) else Success(reg[name := job])
  }

  /** `start_transcription_job(bucket, video_key, job_name)`: delete any job of that name,
      ignoring failure, then start a new one. `deleteOutage` says the deletion raises for a
      reason other than a missing job (the job then stays), and `outage` is an error raised by
      the start call for a reason other than a name collision. Returns the call's outcome (the
      given job name, unchanged, or the error) and the service's jobs afterwards: the deletion
      stands even when the start fails. */
  function StartTranscriptionJob(reg: Registry, bucket: string, videoKey: string, jobName: string,
                                 deleteOutage: bool, outage: Option<string>): (r: (Result<string, string>, Registry))
    ensures r.0.Failure? <==> outage.Some? || (deleteOutage && jobName in reg)
    ensures outage.Some? ==> r.0 == Failure(outage.value) && r.1 == (if deleteOutage then reg else reg - {jobName})
    ensures outage.None? && deleteOutage && jobName in reg ==> r == (Failure(ConflictError), reg)
    ensures r.0.Success? ==> r.0.value == jobName
    ensures r.0.Success? ==> r.1 == reg[jobName := TranscriptionJob(S3Uri(bucket, videoKey), "mp4", "en-US")]
  {
    var job := TranscriptionJob(S3Uri(bucket, videoKey), "mp4", "en-US");
    var cleared := if deleteOutage then reg else match DeleteJobCall(reg, jobName) case Some(r) => r case None => reg;
    if outage.Some? then (Failure(outage.value), cleared)
    else
      match StartJobCall(cleared, jobName, job)
      case Success(reg') => (Success(jobName), reg')
      case Failure(e) => (Failure(e), cleared)
  }

  /** Submitting the same job twice leaves the service as one submission does: the second
      submission does not fail on the name the first one took */
  lemma StartTranscriptionIdempotent(reg: Registry, bucket: string, videoKey: string, jobName: string)
    ensures var once := StartTranscriptionJob(reg, bucket, videoKey, jobName, false, None);
      once.0 == Success(jobName) && StartTranscriptionJob(once.1, bucket, videoKey, jobName, false, None) == once
  {
    var once := StartTranscriptionJob(reg, bucket, videoKey, jobName, false, None);
    var twice := StartTranscriptionJob(once.1, bucket, videoKey, jobName, false, None);
    assert twice.1 == once.1;
  }

  /** When the deletion fails while the job exists, the swallowed error leaves the job in
      place and the start collides with it: resubmitting a job that went through fails */
  lemma DeleteOutageConflicts(reg: Registry, bucket: string, videoKey: string, jobName: string)
    ensures var once := StartTranscriptionJob(reg, bucket, videoKey, jobName, false, None);
      StartTranscriptionJob(once.1, bucket, videoKey, jobName, true, None) == (Failure(ConflictError), once.1)
  {
  }

  /** Starting a job without first deleting a job of the same name would fail */
  lemma StartWithoutDeleteConflicts(reg: Registry, bucket: string, videoKey: string, jobName: string)
    requires jobName in reg
    ensures StartJobCall(reg, jobName, TranscriptionJob(S3Uri(bucket, videoKey), "mp4", "en-US")) == Failure(ConflictError)
  {
  }

  /** The response of `get_transcription_job`: `CallFailed` when the call (or reading its
      status) raised; otherwise the job's status and, for the download of the transcript
      file, either the `transcript` text it holds (`""` when absent) or `None` when the
      download or its parsing raised */
  datatype TranscriptionResponse =
    | CallFailed
    | JobDescription(status: string, fetchedTranscript: Option<string>)

  /** `get_transcription_text(job_name)` */
  function GetTranscriptionText(response: TranscriptionResponse): (r: string)
    ensures r != "" ==> response.JobDescription? && response.status == "COMPLETED"
    ensures response.JobDescription? && response.status == "COMPLETED" && response.fetchedTranscript.Some?
      ==> r == response.fetchedTranscript.value
    ensures response.CallFailed? || response.status != "COMPLETED" || response.fetchedTranscript.None? ==> r == ""
  {
    match response
    case CallFailed => ""
    case JobDescription(status, fetched) =>
      if status == "COMPLETED" then fetched.GetOr("")
      else if status == "FAILED" then ""
      else ""
  }
}
