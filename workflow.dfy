/** The audit workflow: a graph builder that registers the two nodes and the edges
    `index_video -> auto_content -> END`, the compiled graph, and a run of it, in which every
    node's update is merged into the state before the next node starts. */
module Workflow {
  import opened Wrappers
  import opened State
  import opened Nodes

  /** The terminal marker of the graph */
  const End: string := "__end__"

  const IndexVideoName: string := "index_video"
  const AutoContentName: string := "auto_content"

  /** The node function a name is bound to */
  datatype NodeAction = IndexVideoAction | AutoContentAction

  /** A compiled graph: the registered nodes, the entry point and each node's successor */
  datatype Graph = Graph(nodes: map<string, NodeAction>, entry: string, edges: map<string, string>)

  /** Every edge leaves a registered node and enters a registered node or the end */
  predicate EdgesResolve(nodes: map<string, NodeAction>, edges: map<string, string>) {
    forall n :: n in edges ==> n in nodes && (edges[n] in nodes || edges[n] == End)
  }

  /** The graph `create_graph` builds */
  function AuditGraph(): Graph {
    Graph(map[IndexVideoName := IndexVideoAction, AutoContentName := AutoContentAction],
          IndexVideoName,
          map[IndexVideoName := AutoContentName, AutoContentName := End])
  }

  /** `StateGraph(VideoAuditState)` while it is being built */
  class GraphBuilder {
    var nodes: map<string, NodeAction>
    var entry: Option<string>
    var edges: map<string, string>

    constructor ()
      ensures nodes == map[] && entry == None && edges == map[]
    {
      nodes := map[];
      entry := None;
      edges := map[];
    }

    /** `add_node(name, action)` */
    method AddNode(name: string, action: NodeAction)
      modifies this
      ensures nodes == old(nodes)[name := action]
      ensures entry == old(entry) && edges == old(edges)
    {
      nodes := nodes[name := action];
    }

    /** `set_entry_point(name)` */
    method SetEntryPoint(name: string)
      modifies this
      ensures entry == Some(name)
      ensures nodes == old(nodes) && edges == old(edges)
    {
      entry := Some(name);
    }

    /** `add_edge(source, target)` */
    method AddEdge(source: string, target: string)
      modifies this
      ensures edges == old(edges)[source := target]
      ensures nodes == old(nodes) && entry == old(entry)
    {
      edges := edges[source := target];
    }

    /** `compile()`: the graph, when an entry point is set, names a registered node, and every
        edge resolves */
    function Compile(): (g: Option<Graph>)
      reads this
      ensures g.Some? <==> entry.Some? && entry.value in nodes && EdgesResolve(nodes, edges)
      ensures g.Some? ==> g.value.nodes == nodes && Some(g.value.entry) == entry && g.value.edges == edges
    {
      if entry.Some? && entry.value in nodes && EdgesResolve(nodes, edges) then
        Some(Graph(nodes, entry.value, edges))
      else None
    }
  }

  /** `create_graph()` */
  method CreateGraph() returns (g: Option<Graph>)
    ensures g == Some(AuditGraph())
  {
    var builder := new GraphBuilder();
    builder.AddNode(IndexVideoName, IndexVideoAction);
    builder.AddNode(AutoContentName, AutoContentAction);
    builder.SetEntryPoint(IndexVideoName);
    builder.AddEdge(IndexVideoName, AutoContentName);
    builder.AddEdge(AutoContentName, End);
    g := builder.Compile();
  }

  /** The nodes visited from `at` by following the edges, for at most `fuel` steps */
  function Walk(edges: map<string, string>, at: string, fuel: nat): (r: seq<string>)
    decreases fuel
    ensures |r| <= fuel
    ensures forall i :: 0 <= i < |r| ==> r[i] != End
    ensures at != End && fuel > 0 ==> r != [] && r[0] == at
  {
    if at == End || fuel == 0 then []
    else [at] + (if at in edges then Walk(edges, edges[at], fuel - 1) else [])
  }

  /** The order in which a run visits the nodes; no graph visits more steps than it has nodes */
  function Schedule(g: Graph): (r: seq<string>)
    ensures |r| <= |g.nodes|
  {
    Walk(g.edges, g.entry, |g.nodes|)
  }

  /** Every run of the audit graph is `index_video`, then `auto_content`, then the end */
  lemma AuditSchedule()
    ensures Schedule(AuditGraph()) == [IndexVideoName, AutoContentName]
  {
    var g := AuditGraph();
    assert |g.nodes| == 2 by {
      assert g.nodes.Keys == {IndexVideoName, AutoContentName};
    }
    assert Walk(g.edges, End, 0) == [];
    assert Walk(g.edges, AutoContentName, 1) == [AutoContentName];
  }

  /** What a run produces: the final state, the remote state, and the `final_report`
      channel. The auditor returns `final_report`, but the state schema does not declare it;
      a run of the graph as built drops every key outside the schema, so `report` stays `None`.
      `keepsReport` says whether the schema declares `final_report`, and so whether a run keeps
      the last report written to it. */
  datatype RunResult = RunResult(state: AuditState, cloud: Cloud, report: Option<string>)

  /** One node step: the node's update merged into the state */
  function StepNode(action: NodeAction, r: RunResult, io: IndexOracle, ao: AuditOracle, keepsReport: bool): RunResult {
    match action
    case IndexVideoAction =>
      var out := IndexVideo(r.state, r.cloud, io);
      RunResult(Merge(r.state, out.update), out.cloud, r.report)
    case AutoContentAction =>
      var out := AutoContent(r.state, ao);
      RunResult(Merge(r.state, out.update), r.cloud, if keepsReport then out.finalReport else r.report)
  }

  /** The steps of a schedule, one after the other. Whatever the graph, no step writes the
      session's identity, the accumulating lists only grow at their ends, and an undeclared
      report channel is never written. */
  function RunNodes(nodes: map<string, NodeAction>, schedule: seq<string>, r: RunResult, io: IndexOracle,
                    ao: AuditOracle, keepsReport: bool): (res: RunResult)
    decreases |schedule|
    ensures res.state.videoUrl == r.state.videoUrl && res.state.videoId == r.state.videoId
    ensures r.state.complianceResult <= res.state.complianceResult
    ensures r.state.error <= res.state.error
    ensures !keepsReport ==> res.report == r.report
  {
    if schedule == [] then r
    else
      var next := if schedule[0] in nodes then StepNode(nodes[schedule[0]], r, io, ao, keepsReport) else r;
      RunNodes(nodes, schedule[1..], next, io, ao, keepsReport)
  }

  /** `graph.invoke(initial_state)` on the state schema as declared: whatever the graph, the
      result keeps the session's identity, starts its accumulating lists with the input's,
      and holds no `final_report` */
  function Invoke(g: Graph, input: AuditState, cloud: Cloud, io: IndexOracle, ao: AuditOracle): (r: RunResult)
    ensures r.state.videoUrl == input.videoUrl && r.state.videoId == input.videoId
    ensures input.complianceResult <= r.state.complianceResult
    ensures input.error <= r.state.error
    ensures r.report.None?
  {
    RunNodes(g.nodes, Schedule(g), RunResult(input, cloud, None), io, ao, false)
  }

  /** The run of the audit graph, step by step, with or without a declared report channel */
  lemma AuditRunSteps(input: AuditState, cloud: Cloud, io: IndexOracle, ao: AuditOracle, keepsReport: bool)
    ensures var indexed := IndexVideo(input, cloud, io);
      var mid := Merge(input, indexed.update);
      var audited := AutoContent(mid, ao);
      RunNodes(AuditGraph().nodes, Schedule(AuditGraph()), RunResult(input, cloud, None), io, ao, keepsReport)
        == RunResult(Merge(mid, audited.update), indexed.cloud, if keepsReport then audited.finalReport else None)
  {
    AuditSchedule();
    var g := AuditGraph();
    var s := [IndexVideoName, AutoContentName];
    var r0 := RunResult(input, cloud, None);
    var r1 := StepNode(IndexVideoAction, r0, io, ao, keepsReport);
    var r2 := StepNode(AutoContentAction, r1, io, ao, keepsReport);
    assert s[1..][1..] == [];
    calc {
      RunNodes(g.nodes, s, r0, io, ao, keepsReport);
      RunNodes(g.nodes, s[1..], r1, io, ao, keepsReport);
      RunNodes(g.nodes, s[1..][1..], r2, io, ao, keepsReport);
    }
  }

  /** A run of the audit graph is the composition of the two nodes with a merge after each;
      the auditor's report is dropped */
  lemma AuditRun(input: AuditState, cloud: Cloud, io: IndexOracle, ao: AuditOracle)
    ensures var indexed := IndexVideo(input, cloud, io);
      var mid := Merge(input, indexed.update);
      var audited := AutoContent(mid, ao);
      Invoke(AuditGraph(), input, cloud, io, ao) == RunResult(Merge(mid, audited.update), indexed.cloud, None)
  {
    AuditRunSteps(input, cloud, io, ao, false);
  }

  /** The report the web endpoint returns: `result.get("final_report", "No report generated")` */
  const NoReportGenerated: string := "No report generated"

  function ServedReport(r: RunResult): (report: string)
    ensures r.report.None? ==> report == NoReportGenerated
    ensures r.report.Some? ==> report == r.report.value
  {
    r.report.GetOr(NoReportGenerated)
  }

  /** As built, the endpoint never serves the auditor's report: whatever the auditor writes,
      even when it completes with a report of its own, the caller gets the fallback text */
  lemma AuditReportNeverServed(input: AuditState, cloud: Cloud, io: IndexOracle, ao: AuditOracle)
    ensures ServedReport(Invoke(AuditGraph(), input, cloud, io, ao)) == NoReportGenerated
    ensures var audited := AutoContent(Merge(input, IndexVideo(input, cloud, io).update), ao);
      audited.finalReport.Some? && audited.finalReport.value != NoReportGenerated ==>
        ServedReport(Invoke(AuditGraph(), input, cloud, io, ao)) != audited.finalReport.value
  {
    AuditRun(input, cloud, io, ao);
  }

  /** `graph.invoke(initial_state)` on a state schema that also declares `final_report` */
  function InvokeDeclaringReport(g: Graph, input: AuditState, cloud: Cloud, io: IndexOracle, ao: AuditOracle): (r: RunResult)
    ensures r.state.videoUrl == input.videoUrl && r.state.videoId == input.videoId
    ensures input.complianceResult <= r.state.complianceResult
    ensures input.error <= r.state.error
  {
    RunNodes(g.nodes, Schedule(g), RunResult(input, cloud, None), io, ao, true)
  }

  /** With `final_report` declared the run is otherwise the same, and the endpoint serves the
      auditor's report whenever the auditor writes one */
  lemma DeclaredReportServed(input: AuditState, cloud: Cloud, io: IndexOracle, ao: AuditOracle)
    ensures var audited := AutoContent(Merge(input, IndexVideo(input, cloud, io).update), ao);
      && InvokeDeclaringReport(AuditGraph(), input, cloud, io, ao)
           == Invoke(AuditGraph(), input, cloud, io, ao).(report := audited.finalReport)
      && ServedReport(InvokeDeclaringReport(AuditGraph(), input, cloud, io, ao))
           == audited.finalReport.GetOr(NoReportGenerated)
  {
    AuditRunSteps(input, cloud, io, ao, false);
    AuditRunSteps(input, cloud, io, ao, true);
  }

  /** Neither node writes `video_url` or `video_id`: a run returns them as it was given them */
  lemma AuditRunKeepsIdentity(input: AuditState, cloud: Cloud, io: IndexOracle, ao: AuditOracle)
    ensures Invoke(AuditGraph(), input, cloud, io, ao).state.videoUrl == input.videoUrl
    ensures Invoke(AuditGraph(), input, cloud, io, ao).state.videoId == input.videoId
  {
    AuditRun(input, cloud, io, ao);
  }

  /** The final compliance result is the input list, then the indexing node's contribution,
      then the auditor's */
  lemma AuditRunComplianceOrder(input: AuditState, cloud: Cloud, io: IndexOracle, ao: AuditOracle)
    ensures var indexed := IndexVideo(input, cloud, io);
      var audited := AutoContent(Merge(input, indexed.update), ao);
      Invoke(AuditGraph(), input, cloud, io, ao).state.complianceResult
        == input.complianceResult + indexed.update.complianceResult.GetOr([]) + audited.update.complianceResult.GetOr([])
  {
    AuditRun(input, cloud, io, ao);
  }

  /** When indexing fails the auditor finds no transcript and fails too: the run ends
      `failed`, adds no compliance issue, and appends exactly the two error messages */
  lemma AuditRunAfterIndexFailure(input: AuditState, cloud: Cloud, io: IndexOracle, ao: AuditOracle)
    requires IndexVideo(input, cloud, io).update.error.Some?
    ensures var indexed := IndexVideo(input, cloud, io);
      var audited := AutoContent(Merge(input, indexed.update), ao);
      var final := Invoke(AuditGraph(), input, cloud, io, ao).state;
      && audited.calls == []
      && final.finalStatus == Some("failed")
      && final.complianceResult == input.complianceResult
      && final.error == input.error + indexed.update.error.value + [NoTranscriptMessage]
      && |final.error| == |input.error| + 2
  {
    AuditRun(input, cloud, io, ao);
  }

  /** A session started from its URL and id alone ends with exactly the issues the two nodes
      write and exactly the errors they write, in that order, and with its URL and id intact */
  lemma AuditRunFromInitialState(videoUrl: string, videoId: string, cloud: Cloud, io: IndexOracle, ao: AuditOracle)
    ensures var input := InitialState(videoUrl, videoId);
      var indexed := IndexVideo(input, cloud, io);
      var audited := AutoContent(Merge(input, indexed.update), ao);
      var final := Invoke(AuditGraph(), input, cloud, io, ao).state;
      && final.videoUrl == videoUrl && final.videoId == videoId
      && final.complianceResult == indexed.update.complianceResult.GetOr([]) + audited.update.complianceResult.GetOr([])
      && final.error == indexed.update.error.GetOr([]) + audited.update.error.GetOr([])
  {
    AuditRun(InitialState(videoUrl, videoId), cloud, io, ao);
  }

  /** The edge into the auditor is unconditional: even when indexing reports `failed` for the
      label-detection job, the auditor still retrieves rules and asks the model whenever a
      transcript was obtained */
  lemma AuditorRunsAfterFailedIndexing(input: AuditState, cloud: Cloud, io: IndexOracle, ao: AuditOracle)
    requires IndexVideo(input, cloud, io).update.error.None?
    requires IndexVideo(input, cloud, io).update.finalStatus == Some("failed")
    requires IndexVideo(input, cloud, io).poll.value.final.transcript != ""
    ensures AutoContent(Merge(input, IndexVideo(input, cloud, io).update), ao).calls != []
  {
  }
}
