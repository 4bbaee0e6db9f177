# BotoCop compliance audit, modelled in Dafny

BotoCop audits a YouTube video for brand compliance. It runs a two-node workflow over a shared
state record. The first node, `index_video`, does the following:

- it checks that the URL is a YouTube URL;
- it downloads the video and uploads it to object storage under `videos/{video_id}.mp4`;
- it submits a label-detection job and a speech-to-text job named `audit_{video_id}`, deleting any older job of that name first;
- it polls both jobs for at most 30 attempts;
- it normalises what it has into an evidence record (transcript, OCR text, one entry per detected label, and a status).

The second node, `auto_content`, does the following:

- it builds a retrieval query from the transcript and OCR text;
- it fetches up to three rule passages, falling back to a fixed sentinel context;
- it asks a language model for a verdict;
- it takes the reply's first ```` ```json ```` block, strips it and parses it;
- it fills in defaults for missing keys.

Failures end in one of three fixed shapes:

- a failed indexing step writes its message as the error, status `failed`, `Failed to index video: {message}`, and empty evidence (`Nodes.IndexFailure`);
- an auditor that finds no transcript writes its own message with the same empty evidence (`Nodes.NoTranscriptUpdate`);
- a failed model call, block search or parse writes only the error, status `failed`, an empty compliance result and an `Audit error: {message}` report (`Nodes.AuditFailureUpdate`).

The workflow merges each node's update into the state. `compliance_result` and `error` are concatenated; every other field is overwritten by
the latest writer.

The model has six modules:

| module | contents |
|---|---|
| `Wrappers` (`wrappers.dfy`) | `Option` (absent value or key) and `Result` (a call that raises) |
| `Text` (`text.dfy`) | Python's `in`, `str.find`, `str.join` and `str.strip()` |
| `VideoIndex` (`video_index.dfy`) | evidence extraction, storage key and URI, upload, and the calls that start and read the two jobs |
| `State` (`state.dfy`) | the state record, the update dictionary and the merge policy |
| `Nodes` (`nodes.dfy`) | both nodes. The indexing node's polling loop is an imperative method (`Nodes.Poll`, `Nodes.IndexVideoNode`) proved equal to a specification function (`Nodes.IndexVideo`) |
| `Workflow` (`workflow.dfy`) | the graph builder (a class whose methods mutate it), `create_graph`, and a run of the compiled graph |

Every external service is a parameter:

- `Nodes.IndexOracle` covers client construction, the download, the upload, the label-detection start, an outage of the deletion of an earlier speech-to-text job, the transcription-job start, and the responses the two services give at each polling attempt.
- `Nodes.AuditOracle` covers the vector search, the model call, and `json.loads` as a partial parser.
- The remote state the indexing node changes (the object store and the speech-to-text job registry) is an explicit value, `Nodes.Cloud`.
- Each node also returns a log of some of its external calls, in order:
  - the indexing node logs the download, the upload, the label-detection start, the deletion and start of the speech-to-text job, and the temp-file removal (`Nodes.ExternalCall`);
  - the auditor logs the vector search and the model call (`Nodes.AuditCall`);
  - client construction and the transcript fetch are not logged;
  - the poll's per-attempt status queries are recorded only as attempt numbers (`labelQueries` and `transcriptQueries` of `Nodes.PollState`).

Four behaviours of the code are easy to miss from its names and comments. The model follows the code in each:

- **Empty label-detection result.** `extract_data` maps an empty or absent result to status `failed`, even though the job may only be still running, the case the `processing` status otherwise covers (`VideoIndex.ExtractData`).
- **Temp-file cleanup.** The downloaded file is removed only on the success path. Any failure after the download leaves it in place (`Nodes.TempFileLeftOnLateFailure`).
- **No status branch.** The workflow has no conditional edge on `final_status`. The auditor runs after every indexing outcome, including a label-detection status of `failed` (`Workflow.AuditorRunsAfterFailedIndexing`).
- **`final_report`.** The auditor returns it, but it is not declared in the state schema, so the run drops it. The node's report is `Nodes.AuditResult.finalReport`. A run of the graph as built (`Workflow.Invoke`) leaves `Workflow.RunResult.report` at `None`; see "## Findings".

## Model

| member | source | states |
|---|---|---|
| Text.IndexOf | backend/src/graph/nodes.py:38 | the index found is an occurrence at or after the start, no earlier one exists, and "not found" means there is no occurrence at all |
| Text.IndexOfFirst | backend/src/graph/nodes.py:210 | an occurrence with none before it is the one the search returns |
| Text.ContainsIffOccurs | backend/src/graph/nodes.py:38 | `pat in s` holds exactly when `pat` occurs somewhere in `s` |
| Text.Join | backend/src/graph/nodes.py:169 | no parts join to `""`, one part to itself, and `n` parts to their total length plus `n - 1` separators |
| Text.JoinAppend | backend/src/graph/nodes.py:169 | joining a concatenation of two non-empty lists is joining each and putting the separator between |
| Text.JoinContainsPart | backend/src/graph/nodes.py:176 | every part occurs in the joined string |
| Text.TrimStart | backend/src/graph/nodes.py:210 | the result is a suffix, it does not start with whitespace, and everything removed is whitespace |
| Text.TrimEnd | backend/src/graph/nodes.py:210 | the result is a prefix, it does not end with whitespace, and everything removed is whitespace |
| Text.Strip | backend/src/graph/nodes.py:210 | `strip()` returns an infix with whitespace only on either side of it, and the infix neither starts nor ends with whitespace |
| Text.StripKeepsTrimmed | backend/src/graph/nodes.py:210 | a string with no surrounding whitespace is unchanged by `strip()` |
| Text.TrimStartSkips | backend/src/graph/nodes.py:210 | leading whitespace is removed up to the first non-space character |
| Text.TrimEndSkips | backend/src/graph/nodes.py:210 | trailing whitespace is removed back to the last non-space character |
| Text.StripSurrounded | backend/src/graph/nodes.py:210 | text between whitespace runs is exactly what `strip()` returns |
| VideoIndex.NormalizeLabel | backend/src/services/video_index.py:166-170 | a label's name and confidence come from its `Label` dictionary and its timestamp from `Timestamp`; each missing one becomes `None` |
| VideoIndex.ExtractData | backend/src/services/video_index.py:160-182 | one entry per label, in order; the transcript is the given text or `""`; the OCR text is `[]`; the status is `success` iff the job status is `SUCCEEDED`, `failed` iff the result is empty or the status is `FAILED`, and `processing` otherwise |
| VideoIndex.EmptyResponse | backend/src/services/video_index.py:184-191 | the empty response is the evidence of an absent result (no labels, `""`, `failed`) together with the message |
| VideoIndex.LabelNeverDropped | backend/src/services/video_index.py:164-172 | a label missing its `Label` dictionary is kept, with `None` name and confidence and its own timestamp |
| VideoIndex.StorageKey | backend/src/services/video_index.py:81 | the key is `videos/`, then the video id, then `.mp4` |
| VideoIndex.StorageKeyInjective | backend/src/services/video_index.py:81 | different video ids never share a storage key |
| VideoIndex.ResolveBucket | backend/src/services/video_index.py:80 | an absent or empty bucket name falls back to `orchestra-frankfurt`; any other is kept |
| VideoIndex.UploadToS3 | backend/src/services/video_index.py:78-89 | the upload fails exactly when the client raises, with its message; otherwise it stores the file under (bucket, derived key), adds only that slot, and returns `s3://{bucket}/{key}` |
| VideoIndex.UploadIdempotent | backend/src/services/video_index.py:84-86 | uploading the same file for the same video again leaves the store as one upload does |
| VideoIndex.GetAnalysisResults | backend/src/services/video_index.py:103-109 | a raising call yields the empty result; otherwise the service's response is returned unchanged |
| VideoIndex.DeleteJobCall | backend/src/services/video_index.py:122-125 | deletion succeeds exactly when a job of that name exists, and removes only that job |
| VideoIndex.StartJobCall | backend/src/services/video_index.py:127-132 | starting fails exactly on a name collision; otherwise it registers exactly the new job |
| VideoIndex.StartTranscriptionJob | backend/src/services/video_index.py:115-136 | it fails iff the start has an outage or a failed deletion left a job of that name; on a start outage it fails with that error and the old job is gone unless its deletion failed; a failed deletion of an existing job gives the conflict error with the registry unchanged; on success it returns the given job name and the registry holds the new mp4 / en-US job for `s3://{bucket}/{key}` |
| VideoIndex.StartTranscriptionIdempotent | backend/src/services/video_index.py:121-133 | delete-then-start makes resubmission succeed and leave the registry as one submission does |
| VideoIndex.DeleteOutageConflicts | backend/src/services/video_index.py:121-132 | when the deletion fails and its error is swallowed, resubmitting a job that went through collides and fails with the conflict, leaving the registry as it was |
| VideoIndex.StartWithoutDeleteConflicts | backend/src/services/video_index.py:121-127 | without the deletion, a start with a name that is already taken would fail |
| VideoIndex.GetTranscriptionText | backend/src/services/video_index.py:138-158 | the text is non-empty only for a `COMPLETED` job; then it is the fetched transcript; it is `""` for `FAILED`, for any other status and for every raised error |
| State.InitialState | backend/src/api/server.py:41-46 | a session starts with its URL and id, empty accumulating lists, and every other field absent |
| State.Merge | backend/src/graph/state.py:15-37 | `compliance_result` and `error` keep the current list as a prefix and append what was written; every other field takes the written value when there is one and keeps its own otherwise |
| State.MergeNoUpdate | backend/src/graph/state.py:15-37 | an update that writes nothing leaves the state unchanged |
| State.MergeCombine | backend/src/graph/state.py:29-37 | merging two updates in turn is merging their combination (lists concatenated, later writes winning) |
| State.MergeAllAccumulates | backend/src/graph/state.py:29-37 | across any sequence of merges, each accumulating list ends as its initial value followed by everything written to it, in order, and never gets shorter |
| State.MergeAllKeepsUnwritten | backend/src/graph/state.py:15-37 | each of the eight last-writer-wins fields that no update writes keeps its initial value across any sequence of merges |
| Nodes.TranscriptionJobName | backend/src/graph/nodes.py:50 | the job name is `audit_` followed by the video id |
| Nodes.IndexFailure | backend/src/graph/nodes.py:91-99 | the failure writes the message as the one error, `failed`, `Failed to index video: {message}`, an empty transcript, OCR text, metadata and compliance result, and nothing of the session's identity |
| Nodes.SubmittedObjectIsUploaded | backend/src/graph/nodes.py:44-51 | label detection reads the bucket and key the upload wrote, transcription reads that slot's `s3://` URI, and the delete and the start name the same job `audit_{video_id}` |
| Nodes.PollStep | backend/src/graph/nodes.py:69-75 | label detection is queried at the attempt, and its answer replaces the held one, iff the held result is empty or not `SUCCEEDED`; the transcript is queried, and replaced, iff none is held; otherwise each is left alone |
| Nodes.PollAfter | backend/src/graph/nodes.py:66-75 | after `n` attempts each service was queried at most `n` times, only at attempts below `n`, in increasing order; after none the poll holds nothing |
| Nodes.AttemptsFrom | backend/src/graph/nodes.py:66-79 | the attempts continue until the first one after which both results are in, or the budget is exhausted |
| Nodes.Attempts | backend/src/graph/nodes.py:61-79 | between 1 and 30 attempts; no earlier attempt converged; stopping before 30 means the last attempt converged |
| Nodes.AttemptsUnique | backend/src/graph/nodes.py:77-79 | the stopping rule determines the attempt count uniquely |
| Nodes.PollResult | backend/src/graph/nodes.py:61-82 | at most 30 attempts, and an early stop only once label detection has `SUCCEEDED` and a transcript is held |
| Nodes.TranscriptKept | backend/src/graph/nodes.py:74-75 | once a transcript is obtained, it is never overwritten |
| Nodes.SucceededInsightsKept | backend/src/graph/nodes.py:70-71 | once label detection has succeeded, its result is neither replaced nor queried again |
| Nodes.FailedJobRepolled | backend/src/graph/nodes.py:70-71 | a `FAILED` label-detection result is queried again at the next attempt |
| Nodes.QueriesBefore | backend/src/graph/nodes.py:66-75 | queries are recorded only for attempts already made |
| Nodes.QueriedExactlyWhilePending | backend/src/graph/nodes.py:70-75 | label detection is queried at an attempt iff its last result was empty or not `SUCCEEDED`; the transcript is queried iff none was held |
| Nodes.IndexVideo | backend/src/graph/nodes.py:25-99 | the calls made are a prefix of download, upload, label start, delete, start, remove; success iff all were made; on success the update is exactly the extraction of the final poll result (no `error`, no `compliance_result`); on failure it is the failure shape of one message and there is no poll; each failing step (client construction, URL check, download, upload, label start, transcription start) gives its own message, and the remote state is left as that step found it: unchanged up to the upload, the uploaded store after it, and the registry as the transcription start leaves it; on success the store holds the video under `orchestra-frankfurt` / `videos/{video_id}.mp4` and the registry is the one the transcription start leaves; a non-YouTube URL fails before any call; `video_url` and `video_id` are never written |
| Nodes.IndexVideoNode | backend/src/graph/nodes.py:25-99 | the step-by-step node computes exactly `IndexVideo` |
| Nodes.Poll | backend/src/graph/nodes.py:59-82 | the polling loop ends with the poll result and the attempt count of `PollResult` |
| Nodes.TempFileLeftOnLateFailure | backend/src/graph/nodes.py:55-57 | on every failure path the temporary file is not removed |
| Nodes.IndexVideoIdempotent | backend/src/graph/nodes.py:44-51 | re-running a successful indexing for the same session succeeds again and leaves the object store and the job registry as they were; when the deletion of the earlier job fails, the re-run fails with the conflict instead and leaves them as they were |
| Nodes.Query | backend/src/graph/nodes.py:168-169 | the query is the transcript, a space, and the OCR texts joined by spaces |
| Nodes.PageContents | backend/src/graph/nodes.py:176 | one page content per document, in order |
| Nodes.RulesContext | backend/src/graph/nodes.py:172-176 | a failed retrieval and an empty one both give the sentinel context; otherwise the context is the passages' contents joined by blank lines |
| Nodes.RulesContainEveryPassage | backend/src/graph/nodes.py:176 | every retrieved passage occurs in the rule context |
| Nodes.FindJsonBlock | backend/src/graph/nodes.py:210 | the match is an opening ```` ```json ```` with a closing fence after it; the opening is the leftmost; the closing is the first after it; no match means no block exists |
| Nodes.JsonBlockBody | backend/src/graph/nodes.py:210 | the group exists exactly when the search matches |
| Nodes.ResponsePayload | backend/src/graph/nodes.py:209-210 | a reply with no fence is passed on as it is; a fenced reply with no block gives the `.group` error; otherwise the stripped group is passed on |
| Nodes.FirstBlockFound | backend/src/graph/nodes.py:210 | a ```` ```json ```` opening with none before it, closed by the first fence after it, is the match, and its stripped body is the payload |
| Nodes.NoFenceInPlainText | backend/src/graph/nodes.py:210 | no fence starts inside text without backticks |
| Nodes.FencedPayload | backend/src/graph/nodes.py:209-210 | for prose, then a ```` ```json ```` block, then anything, the payload is the stripped body of the block |
| Nodes.UntaggedFenceRejected | backend/src/graph/nodes.py:209-210 | a reply fenced without the `json` tag gives the `.group` error |
| Nodes.Verdict | backend/src/graph/nodes.py:203-217 | a failure carries the error of the first step that raised (model call, block search, parse); the verdict fails iff one of them did; on success each key the reply holds keeps its parsed value, and a missing one gets `[]`, `success` or `Audit completed successfully.` |
| Nodes.AuditFailureUpdate | backend/src/graph/nodes.py:218-225 | the auditor's failure writes the message as the one error, `failed` and an empty compliance result, and no other state field |
| Nodes.AutoContent | backend/src/graph/nodes.py:105-225 | no calls are made iff the transcript is absent or empty, and then the update is the no-transcript failure shape; otherwise it is one search with the query and top-3/10 s, then one model call with the rule context and the state's evidence; a failed verdict gives the auditor's failure update and the report `Audit error: {message}`; a successful one writes exactly its compliance result and status and reports its report; `video_url` and `video_id` are never written |
| Nodes.AuditErrorIff | backend/src/graph/nodes.py:203-225 | with a transcript, the auditor reports an error iff the model call, the block search or the parse failed; a retrieval failure is not an error |
| Nodes.AuditDefaults | backend/src/graph/nodes.py:212-217 | a reply with none of the keys gives no issues, `success` and `Audit completed successfully.` |
| Nodes.FencedReplyParsed | backend/src/graph/nodes.py:209-217 | a fenced reply is parsed from the stripped block body, and its issues become the compliance result exactly, without error |
| Nodes.UnfencedReplyParsed | backend/src/graph/nodes.py:209-217 | a reply without any fence is parsed as it is, and its issues and status become the update |
| Nodes.RetrievalFailureFallsBack | backend/src/graph/nodes.py:172-176 | a failing retrieval uses the sentinel context and audits exactly as a retrieval that found nothing |
| Nodes.AuditIgnoresFinalStatus | backend/src/graph/nodes.py:105-225 | the auditor's outcome does not depend on `final_status` |
| Workflow.GraphBuilder.constructor | backend/src/graph/workflow.py:10 | a new builder has no nodes, no entry point and no edges |
| Workflow.GraphBuilder.AddNode | backend/src/graph/workflow.py:13-14 | binds the name to the node and changes nothing else |
| Workflow.GraphBuilder.SetEntryPoint | backend/src/graph/workflow.py:17 | sets the entry point and changes nothing else |
| Workflow.GraphBuilder.AddEdge | backend/src/graph/workflow.py:18-19 | sets the source's successor and changes nothing else |
| Workflow.GraphBuilder.Compile | backend/src/graph/workflow.py:22 | a graph is produced iff the entry point is a registered node and every edge resolves, and it holds exactly the builder's nodes, entry and edges |
| Workflow.CreateGraph | backend/src/graph/workflow.py:8-24 | the builder calls produce the graph `index_video -> auto_content -> END` |
| Workflow.Walk | backend/src/graph/workflow.py:17-19 | a walk starts at its node, never visits the end marker, and is bounded by its fuel |
| Workflow.Schedule | backend/src/graph/workflow.py:17-19 | the walk from the entry point is bounded by the number of registered nodes, so a schedule is finite even on a cyclic edge map |
| Workflow.AuditSchedule | backend/src/graph/workflow.py:17-19 | every run of the audit graph is exactly `index_video`, then `auto_content` |
| Workflow.RunNodes | backend/src/graph/state.py:15-37 | whatever the graph, a run keeps `video_url` and `video_id`, the accumulating lists only grow at their ends, and an undeclared report is never written |
| Workflow.Invoke | backend/src/graph/workflow.py:24 | a run of any graph on the declared schema keeps the session's identity, starts `compliance_result` and `error` with the input's lists, and returns no `final_report` |
| Workflow.AuditRunSteps | backend/src/graph/workflow.py:17-19 | a run of the audit graph is the indexing node merged into the input, then the auditor merged into that, with the report kept only when the schema declares it |
| Workflow.AuditRun | backend/src/graph/workflow.py:17-19 | a run is the indexing node merged into the input, then the auditor merged into that; the auditor's report is dropped |
| Workflow.AuditRunKeepsIdentity | backend/src/graph/workflow.py:13-19 | the final `video_url` and `video_id` equal the input's |
| Workflow.AuditRunComplianceOrder | backend/src/graph/workflow.py:18-19 | the final compliance result is the input list, then the indexing contribution, then the auditor's |
| Workflow.AuditRunAfterIndexFailure | backend/src/graph/workflow.py:18 | when indexing fails, the auditor makes no call and fails too; the run ends `failed` with the input's compliance list and exactly two more errors (the indexing message, then the no-transcript message) |
| Workflow.ServedReport | backend/src/api/server.py:55 | the endpoint's report is the run's `final_report`, or `No report generated` when there is none |
| Workflow.AuditReportNeverServed | backend/src/api/server.py:55 | as built, the endpoint always serves `No report generated`, never a report the auditor wrote |
| Workflow.InvokeDeclaringReport | backend/src/graph/state.py:15-37 | with `final_report` declared, a run keeps the session's identity and extends the accumulating lists just as `Invoke` does |
| Workflow.DeclaredReportServed | backend/src/graph/nodes.py:216-223 | with `final_report` declared, the run is the same except that it keeps the auditor's report, and the endpoint serves it |
| Workflow.AuditRunFromInitialState | backend/src/api/server.py:41-49 | a session started from its URL and id ends with exactly the issues, then exactly the errors, that the two nodes write, and with its URL and id intact |
| Workflow.AuditorRunsAfterFailedIndexing | backend/src/graph/workflow.py:18 | the edge is unconditional: even with status `failed` from indexing, the auditor searches and calls the model when a transcript was obtained |

## Left out

- **Service internals.** The behaviour of the cloud SDK clients, the video downloader, the HTTP fetch of the transcript file, the vector search and the language model is not modelled. Each is an oracle input (`Nodes.IndexOracle`, `Nodes.AuditOracle`); these are foreign network calls.
- **Download fallbacks.** The downloader's own fallbacks (renaming `output_path + ".mp4"`, the missing-file error) are folded into the download outcome.
- **Sleep.** The 10-second `time.sleep` between polling attempts and the progress `print`s are dropped. Only attempts are modelled; wall-clock time has no meaning here.
- **Logging, environment and credentials.** Logging, environment and credential loading, region selection and quote stripping are plumbing and are not modelled.
- **Failures outside the auditor's `try`.** Several steps of the auditor sit outside any `try`, so a failure in any of them raises out of the node. They are building the session, the model client and the embedding client, `session.get_credentials()`, and the `AWSV4SignerAuth` signer. The model assumes these steps succeed. Constructing the vector store sits inside the retrieval `try`, and its failure is part of the search outcome.
- **Prompts.** The wording of the system prompt and user message, and the Python `repr` of the state values inside them, are not modelled. `Nodes.ChatRequest` carries the values the prompt embeds.
- **`json.loads`.** It is an abstract partial parser from text to the three keys. The parser's own messages are whatever the oracle returns.
- **Ill-typed reply values.** In the source, a reply that parses but holds values of the wrong types raises nothing inside the node. The node returns the values as they are and writes no error (backend/src/graph/nodes.py:213-217). A `compliance_result` that is not a list (`null`, a single object) then makes the `operator.add` reducer (backend/src/graph/state.py:29) fail after the node has returned, outside every `try`. The whole run raises, and the endpoint answers with its error response (backend/src/api/server.py:60-62). A `final_status` or `final_report` that is not a string is stored unchecked. Neither the crash of the run nor an ill-typed stored value is modelled: the model's parser yields only well-typed replies, so such a reply is one of the oracle's parse failures.
- Nodes.Verdict: for a reply that parses to an object with ill-typed values, the model gives a parse failure, where the source passes the values on and the run crashes in the reducer or stores them as they are.
- Nodes.AuditErrorIff: the auditor error it promises for a failed parse covers, in the model, replies with ill-typed values; the source writes no node error for those (see "Ill-typed reply values").
- **Issue records.** The source passes the reply's issue dictionaries through unchanged. The model narrows each one to the four declared fields (`category`, `description`, `severity`, `timestamp`). The `suggestion` key the prompt asks for, and any other extra key, is dropped.
- **General regex.** The general regular-expression engine is not modelled; only the one search for ```` ```json(.*?)``` ```` (dot matches newline, non-greedy).
- **Label fields.** Label confidence is a `real`. Timestamps are integers, in milliseconds.
- **Delete outages.** A failing delete call is one flag in `Nodes.IndexOracle`. The model does not tell one delete error from another: any outage leaves the job in place.
- **Temp-file removal.** The `os.path.exists` check before `os.remove` is not modelled, and the removal is assumed to succeed. An `OSError` from `os.remove` (backend/src/graph/nodes.py:56-57) sits inside the node's `try`, so it would fail the node after all submission calls. The model cannot produce that path: `Nodes.IndexVideo` promises no error exactly when every call was made.
- **Partial downloads.** A partial file left behind by a failed download is not modelled. The temporary file is tracked only through the call log.
- **LangGraph.** The library's own validation, the recursion limit, fan-out edges and conditional edges are not modelled. `Workflow.GraphBuilder.Compile` checks only that the entry point is registered and that every edge resolves.
- **Out of scope.** The HTTP API (apart from how it reads the report, `Workflow.ServedReport`), the CLI runner, the document-ingestion script, the connectivity diagnostics, the browser front end and the device probe are outside the modelled core.
- Workflow.GraphBuilder.AddNode: re-registering a name overwrites its binding instead of raising as the library does. The library's behaviour here is not part of this model.
- Workflow.GraphBuilder.AddEdge: an edge map keeps one successor per node, so a second edge from the same source replaces the first instead of fanning out.

## Findings

| source | as written | input that shows it | evidently intended | confidence | as-written member | corrected member |
|---|---|---|---|---|---|---|
| backend/src/graph/state.py:15-37 | the auditor returns `final_report` (backend/src/graph/nodes.py:216, 223), but the state schema does not declare it. The run keeps only declared keys, so `result.get("final_report", "No report generated")` (backend/src/api/server.py:55) always falls back | any session with a transcript, where the model replies with a block holding `"final_report": "Summary"` | the endpoint serves the auditor's report, which needs `final_report: str` in the schema | not executed; relies on the graph library keeping only declared keys | Workflow.AuditReportNeverServed | Workflow.DeclaredReportServed |
