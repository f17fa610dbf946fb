/**
 * The sample summarisation workflow: five node wrappers around the tools,
 * their registration with the engine, the constant five-node chain and its
 * idempotent registration as graph `"sample_graph"`.
 */
module Workflows {
  import opened Values
  import opened Text
  import opened Tools
  import opened Engine

  const GRAPH_ID := "sample_graph"
  const START := "split_text"

  const SAMPLE_NODES: set<string> :=
    {"split_text", "summarize_chunks", "merge_summaries", "refine_summary", "check_summary_length"}

  const SAMPLE_EDGES: Edges := map[
    "split_text" := Some("summarize_chunks"),
    "summarize_chunks" := Some("merge_summaries"),
    "merge_summaries" := Some("refine_summary"),
    "refine_summary" := Some("check_summary_length"),
    "check_summary_length" := None
  ]

  /** The sample graph as `register_workflow` stores it. */
  function SampleGraph(): Graph
  {
    Graph(SAMPLE_NODES, SAMPLE_EDGES, START)
  }

  // ---------------------------------------------------------------------
  // Node wrappers

  /** `get_tool(name)(state)`: calling the None of a missing tool raises TypeError. */
  function CallTool(tools: map<string, Node>, name: string, s: State): NodeResult
  {
    if name in tools then tools[name](s) else Raises(TYPE_ERROR)
  }

  function NodeSplitText(s: State): NodeResult { CallTool(SampleTools(), "chunk_text", s) }
  function NodeSummarizeChunks(s: State): NodeResult { CallTool(SampleTools(), "summarize_chunk", s) }
  function NodeMergeSummaries(s: State): NodeResult { CallTool(SampleTools(), "merge_summaries", s) }
  function NodeRefineSummary(s: State): NodeResult { CallTool(SampleTools(), "refine_summary", s) }
  function NodeCheckLength(s: State): NodeResult { CallTool(SampleTools(), "check_summary_length", s) }

  /** Each wrapper gives exactly what its tool gives on the same state. */
  lemma WrappersDelegate(s: State)
    ensures NodeSplitText(s) == ChunkText(s)
    ensures NodeSummarizeChunks(s) == SummarizeChunk(s)
    ensures NodeMergeSummaries(s) == MergeSummaries(s)
    ensures NodeRefineSummary(s) == RefineSummary(s)
    ensures NodeCheckLength(s) == CheckSummaryLength(s)
  {
  }

  /** The five node registrations of this module. */
  function SampleNodeRegistry(): map<string, Node>
  {
    map[
      "split_text" := NodeSplitText,
      "summarize_chunks" := NodeSummarizeChunks,
      "merge_summaries" := NodeMergeSummaries,
      "refine_summary" := NodeRefineSummary,
      "check_summary_length" := NodeCheckLength
    ]
  }

  /** Loading the module registers the five wrappers with the engine. */
  method LoadWorkflows(engine: WorkflowEngine)
    requires engine.Valid()
    modifies engine
    ensures engine.Valid()
    ensures engine.nodeRegistry == old(engine.nodeRegistry) + SampleNodeRegistry()
    ensures engine.graphs == old(engine.graphs) && engine.runs == old(engine.runs)
  {
    ghost var reg0 := engine.nodeRegistry;
    engine.RegisterNode("split_text", NodeSplitText);
    engine.RegisterNode("summarize_chunks", NodeSummarizeChunks);
    engine.RegisterNode("merge_summaries", NodeMergeSummaries);
    engine.RegisterNode("refine_summary", NodeRefineSummary);
    engine.RegisterNode("check_summary_length", NodeCheckLength);
    RegistrationsAreUnion(reg0);
  }

  /** The five registrations one after the other add the sample nodes,
      overriding earlier nodes of the same names. */
  lemma RegistrationsAreUnion(reg0: map<string, Node>)
    ensures reg0["split_text" := NodeSplitText]["summarize_chunks" := NodeSummarizeChunks]
                ["merge_summaries" := NodeMergeSummaries]["refine_summary" := NodeRefineSummary]
                ["check_summary_length" := NodeCheckLength]
            == reg0 + SampleNodeRegistry()
  {
    var r := reg0["split_text" := NodeSplitText]["summarize_chunks" := NodeSummarizeChunks]
                 ["merge_summaries" := NodeMergeSummaries]["refine_summary" := NodeRefineSummary]
                 ["check_summary_length" := NodeCheckLength];
    assert r.Keys == reg0.Keys + SampleNodeRegistry().Keys;
    forall n | n in r
      ensures r[n] == (reg0 + SampleNodeRegistry())[n]
    {
    }
  }

  // ---------------------------------------------------------------------
  // Graph registration

  /** The graph store after `register_workflow`: the sample graph is added
      only when no graph is stored under its id. */
  function WithSampleGraph(graphs: map<string, Graph>): map<string, Graph>
  {
    if GRAPH_ID in graphs then graphs else graphs[GRAPH_ID := SampleGraph()]
  }

  /** Creates the sample graph unless one is already stored under its id,
      and returns the id either way. */
  method RegisterWorkflow(engine: WorkflowEngine) returns (id: string)
    requires engine.Valid()
    modifies engine
    ensures engine.Valid()
    ensures id == GRAPH_ID
    ensures engine.graphs == WithSampleGraph(old(engine.graphs))
    ensures engine.runs == old(engine.runs) && engine.nodeRegistry == old(engine.nodeRegistry)
  {
    var g := engine.GetGraph(GRAPH_ID);
    if g.None? {
      var _ := engine.CreateGraph(GRAPH_ID, SAMPLE_NODES, SAMPLE_EDGES, START);
    }
    id := GRAPH_ID;
  }

  /** Registering twice stores what registering once does; a graph already
      stored under the id is kept, and other graphs are never touched. */
  lemma RegisterWorkflowIdempotent(graphs: map<string, Graph>)
    ensures WithSampleGraph(WithSampleGraph(graphs)) == WithSampleGraph(graphs)
    ensures GRAPH_ID in WithSampleGraph(graphs)
    ensures GRAPH_ID in graphs ==> WithSampleGraph(graphs) == graphs
    ensures forall id :: id in graphs ==> id in WithSampleGraph(graphs) && WithSampleGraph(graphs)[id] == graphs[id]
    ensures WithSampleGraph(graphs).Keys == graphs.Keys + {GRAPH_ID}
  {
  }

  /** The start node and every edge target are nodes of the graph, every
      node has an edge entry, and every node is registered. */
  lemma SampleGraphWellFormed()
    ensures START in SAMPLE_NODES
    ensures SAMPLE_EDGES.Keys == SAMPLE_NODES
    ensures forall n :: n in SAMPLE_EDGES && SAMPLE_EDGES[n].Some? ==> SAMPLE_EDGES[n].value in SAMPLE_NODES
    ensures SampleNodeRegistry().Keys == SAMPLE_NODES
  {
  }

  /** The node order of the sample chain. */
  const SAMPLE_ORDER: seq<string> :=
    ["split_text", "summarize_chunks", "merge_summaries", "refine_summary", "check_summary_length"]

  /** Walking the edges from the start node meets the five nodes once each,
      in order, and then reaches None. */
  lemma SampleEdgeWalk(fuel: nat)
    requires fuel >= 5
    ensures EdgePath(SAMPLE_EDGES, Some(START), fuel) == SAMPLE_ORDER
    ensures EdgeWalkStops(SAMPLE_EDGES, Some(START), fuel)
    ensures forall i, j :: 0 <= i < j < |SAMPLE_ORDER| ==> SAMPLE_ORDER[i] != SAMPLE_ORDER[j]
    ensures |SAMPLE_ORDER| == |SAMPLE_NODES|
  {
    assert EdgeOf(SAMPLE_EDGES, "check_summary_length") == None;
    assert EdgePath(SAMPLE_EDGES, Some("check_summary_length"), fuel - 4) == ["check_summary_length"];
    assert EdgePath(SAMPLE_EDGES, Some("refine_summary"), fuel - 3) == ["refine_summary", "check_summary_length"];
    assert EdgePath(SAMPLE_EDGES, Some("merge_summaries"), fuel - 2) == SAMPLE_ORDER[2..];
    assert EdgePath(SAMPLE_EDGES, Some("summarize_chunks"), fuel - 1) == SAMPLE_ORDER[1..];
    assert EdgeWalkStops(SAMPLE_EDGES, Some("check_summary_length"), fuel - 4);
    assert EdgeWalkStops(SAMPLE_EDGES, Some("refine_summary"), fuel - 3);
    assert EdgeWalkStops(SAMPLE_EDGES, Some("merge_summaries"), fuel - 2);
    assert EdgeWalkStops(SAMPLE_EDGES, Some("summarize_chunks"), fuel - 1);
  }

  // ---------------------------------------------------------------------
  // Running the sample graph

  /** Every tool either raises or returns a dictionary without a `"next"` key. */
  predicate NoNextKey(r: NodeResult)
  {
    r.Raises? || (r.Dict? && r.next == NoNext)
  }

  lemma ToolsNeverRoute(s: State)
    ensures NoNextKey(ChunkText(s))
    ensures NoNextKey(SummarizeChunk(s))
    ensures NoNextKey(MergeSummaries(s))
    ensures NoNextKey(RefineSummary(s))
    ensures NoNextKey(CheckSummaryLength(s))
  {
  }

  /** No sample node ever returns a `"next"` key: the tools name their
      successor under `"next_node"`, which the engine does not read. In
      particular the length check's request for `"refine_summary"` is not
      a `"next"` key. */
  lemma SampleNodesNeverRoute()
    ensures NeverRoutes(SampleNodeRegistry())
  {
    var reg := SampleNodeRegistry();
    forall name, s | name in reg
      ensures !(reg[name](s).Dict? && reg[name](s).next.NextKey?)
    {
      WrappersDelegate(s);
      ToolsNeverRoute(s);
      assert NoNextKey(reg[name](s));
    }
  }

  /** Every run of the sample graph stops within its five nodes, whatever
      the initial state; when it completes it has taken exactly the five
      steps of the chain, the last one logged with next node None. */
  lemma SampleRunStops(s0: State, fuel: nat)
    requires fuel >= 5
    ensures var e := RunFrom(SampleNodeRegistry(), SAMPLE_EDGES, Some(START), 0, s0, map[], Running, fuel);
      && e.status != Running
      && e.lastStep <= 6
      && (e.status == Completed ==>
            && e.lastStep == 5
            && 4 in e.logs && e.logs[4] == StepEntry("refine_summary", Some("check_summary_length"))
            && 5 in e.logs && e.logs[5] == StepEntry("check_summary_length", None))
  {
    SampleNodesNeverRoute();
    SampleEdgeWalk(fuel);
    FollowsEdgesWithoutOverride(SampleNodeRegistry(), SAMPLE_EDGES, Some(START), 0, s0, map[], fuel);
    var e := RunFrom(SampleNodeRegistry(), SAMPLE_EDGES, Some(START), 0, s0, map[], Running, fuel);
    if e.status == Completed {
      assert e.logs[4] == StepEntry(SAMPLE_ORDER[3], EdgeOf(SAMPLE_EDGES, SAMPLE_ORDER[3]));
      assert e.logs[5] == StepEntry(SAMPLE_ORDER[4], EdgeOf(SAMPLE_EDGES, SAMPLE_ORDER[4]));
    }
  }

  /** The log of a completed sample run: one entry per node of the chain,
      each naming its static edge. */
  function SampleLog(): Logs
  {
    map[
      1 := StepEntry("split_text", Some("summarize_chunks")),
      2 := StepEntry("summarize_chunks", Some("merge_summaries")),
      3 := StepEntry("merge_summaries", Some("refine_summary")),
      4 := StepEntry("refine_summary", Some("check_summary_length")),
      5 := StepEntry("check_summary_length", None)
    ]
  }

  /** One step of a run through a node that returns a dictionary without a
      `"next"` key and whose merged state is `next`. */
  lemma Advance(reg: map<string, Node>, name: string, step: nat, state: State, logs: Logs, fuel: nat,
                next: State)
    requires name != "" && name in reg && fuel > 0
    requires StepsTo(reg[name], state, next)
    ensures RunFrom(reg, SAMPLE_EDGES, Some(name), step, state, logs, Running, fuel)
            == RunFrom(reg, SAMPLE_EDGES, EdgeOf(SAMPLE_EDGES, name), step + 1, next,
                       logs[step + 1 := StepEntry(name, EdgeOf(SAMPLE_EDGES, name))], Running, fuel - 1)
  {
  }

  /** A node of the chain that returns a dictionary without a `"next"` key
      and leaves state `next`. */
  ghost predicate StepsTo(node: Node, s: State, next: State)
  {
    node(s).Dict? && node(s).next == NoNext && MergeState(s, node(s)) == next
  }

  // What each node of a successful sample run returns, and the state it leaves.

  lemma SplitTextStep(s: State, text: string, size: int)
    requires GetOr(s, "text", VStr(""), VStr("")) == VStr(text)
    requires IntArg(s, "chunk_size", 200) == Ok(size) && size > 0
    ensures StepsTo(SampleNodeRegistry()["split_text"], s, s["chunks" := VStrs(Chunks(text, size))])
  {
    assert SampleNodeRegistry()["split_text"] == NodeSplitText;
    assert NodeSplitText(s) == ChunkText(s);
    var r := ChunkText(s);
    if text == "" {
      ChunkTextWithoutText(s, size);
      assert r.state.delta == map["chunks" := VStrs(Chunks(text, size))];
    } else {
      assert r.state.delta == s["chunks" := VStrs(Chunks(text, size))];
    }
    MergeOneKey(s, "chunks", VStrs(Chunks(text, size)));
  }

  /** Merging a one-key delta, or a copy with one key set, sets that key. */
  lemma MergeOneKey(s: State, key: string, v: Value)
    ensures s + map[key := v] == s[key := v]
    ensures s + s[key := v] == s[key := v]
  {
  }

  lemma SummarizeChunksStep(s: State, chunks: seq<string>)
    requires "chunks" in s && s["chunks"] == VStrs(chunks)
    ensures StepsTo(SampleNodeRegistry()["summarize_chunks"], s, s["summaries" := VStrs(SummarizeAll(chunks))])
  {
    assert SampleNodeRegistry()["summarize_chunks"] == NodeSummarizeChunks;
    assert NodeSummarizeChunks(s) == SummarizeChunk(s);
    assert ListArg(s, "chunks") == Ok(chunks);
  }

  lemma MergeSummariesStep(s: State, summaries: seq<string>)
    requires "summaries" in s && s["summaries"] == VStrs(summaries)
    ensures StepsTo(SampleNodeRegistry()["merge_summaries"], s, s["merged_summary" := VStr(Join(summaries, ' '))])
  {
    assert SampleNodeRegistry()["merge_summaries"] == NodeMergeSummaries;
    assert NodeMergeSummaries(s) == MergeSummaries(s);
    assert ListArg(s, "summaries") == Ok(summaries);
  }

  lemma RefineSummaryStep(s: State, merged: string, maxLen: int)
    requires "merged_summary" in s && s["merged_summary"] == VStr(merged)
    requires IntArg(s, "max_summary_length", 300) == Ok(maxLen)
    ensures StepsTo(SampleNodeRegistry()["refine_summary"], s, s["refined_summary" := VStr(Refine(merged, maxLen))])
  {
    assert SampleNodeRegistry()["refine_summary"] == NodeRefineSummary;
    assert NodeRefineSummary(s) == RefineSummary(s);
    assert GetOr(s, "merged_summary", VStr(""), VStr("")) == VStr(merged);
  }

  lemma CheckLengthStep(s: State, refined: string, limit: int)
    requires "refined_summary" in s && s["refined_summary"] == VStr(refined)
    requires IntArg(s, "max_summary_length", 300) == Ok(limit)
    ensures StepsTo(SampleNodeRegistry()["check_summary_length"], s, s)
  {
    assert SampleNodeRegistry()["check_summary_length"] == NodeCheckLength;
    assert NodeCheckLength(s) == CheckSummaryLength(s);
    assert GetOr(s, "refined_summary", VStr(""), VStr("")) == VStr(refined);
    CheckSummaryLengthRoutes(s, refined, limit);
    assert s + s == s;
  }

  /** The last two nodes of the chain: refine, check, and the run completes. */
  lemma SampleChainTail(reg: map<string, Node>, s3: State, s4: State, logs: Logs, fuel: nat)
    requires fuel >= 2 && SAMPLE_NODES <= reg.Keys
    requires StepsTo(reg["refine_summary"], s3, s4)
    requires StepsTo(reg["check_summary_length"], s4, s4)
    ensures RunFrom(reg, SAMPLE_EDGES, Some("refine_summary"), 3, s3, logs, Running, fuel)
            == LoopEnd(s4, logs[4 := StepEntry("refine_summary", Some("check_summary_length"))]
                               [5 := StepEntry("check_summary_length", None)], Completed, 5)
  {
    assert EdgeOf(SAMPLE_EDGES, "refine_summary") == Some("check_summary_length");
    assert EdgeOf(SAMPLE_EDGES, "check_summary_length") == None;
    var l4 := logs[4 := StepEntry("refine_summary", Some("check_summary_length"))];
    Advance(reg, "refine_summary", 3, s3, logs, fuel, s4);
    Advance(reg, "check_summary_length", 4, s4, l4, fuel - 1, s4);
  }

  /** The first three nodes of the chain: split, summarize, merge. */
  lemma SampleChainHead(reg: map<string, Node>, s0: State, s1: State, s2: State, s3: State, fuel: nat)
    requires fuel >= 3 && SAMPLE_NODES <= reg.Keys
    requires StepsTo(reg["split_text"], s0, s1)
    requires StepsTo(reg["summarize_chunks"], s1, s2)
    requires StepsTo(reg["merge_summaries"], s2, s3)
    ensures RunFrom(reg, SAMPLE_EDGES, Some(START), 0, s0, map[], Running, fuel)
            == RunFrom(reg, SAMPLE_EDGES, Some("refine_summary"), 3, s3, SampleLog3(), Running, fuel - 3)
  {
    assert EdgeOf(SAMPLE_EDGES, "split_text") == Some("summarize_chunks");
    assert EdgeOf(SAMPLE_EDGES, "summarize_chunks") == Some("merge_summaries");
    assert EdgeOf(SAMPLE_EDGES, "merge_summaries") == Some("refine_summary");
    var l1 := map[][1 := StepEntry("split_text", Some("summarize_chunks"))];
    var l2 := l1[2 := StepEntry("summarize_chunks", Some("merge_summaries"))];
    Advance(reg, "split_text", 0, s0, map[], fuel, s1);
    Advance(reg, "summarize_chunks", 1, s1, l1, fuel - 1, s2);
    Advance(reg, "merge_summaries", 2, s2, l2, fuel - 2, s3);
  }

  /** The log after the first three nodes of the chain. */
  function SampleLog3(): Logs
  {
    map[][1 := StepEntry("split_text", Some("summarize_chunks"))]
         [2 := StepEntry("summarize_chunks", Some("merge_summaries"))]
         [3 := StepEntry("merge_summaries", Some("refine_summary"))]
  }

  /** When the five nodes of a registry each return a dictionary without a
      `"next"` key, a run of the sample graph follows the chain and
      completes with the chain's log. */
  lemma SampleChainCompletes(reg: map<string, Node>, s0: State, s1: State, s2: State, s3: State, s4: State,
                             fuel: nat)
    requires fuel >= 5 && SAMPLE_NODES <= reg.Keys
    requires StepsTo(reg["split_text"], s0, s1)
    requires StepsTo(reg["summarize_chunks"], s1, s2)
    requires StepsTo(reg["merge_summaries"], s2, s3)
    requires StepsTo(reg["refine_summary"], s3, s4)
    requires StepsTo(reg["check_summary_length"], s4, s4)
    ensures RunFrom(reg, SAMPLE_EDGES, Some(START), 0, s0, map[], Running, fuel)
            == LoopEnd(s4, SampleLog(), Completed, 5)
  {
    SampleChainHead(reg, s0, s1, s2, s3, fuel);
    SampleChainTail(reg, s3, s4, SampleLog3(), fuel - 3);
    assert SampleLog3()[4 := StepEntry("refine_summary", Some("check_summary_length"))]
                       [5 := StepEntry("check_summary_length", None)] == SampleLog();
  }

  /** Setting the four keys the sample tools write leaves every other key as it was. */
  lemma OtherKeysKept(s0: State, a: Value, b: Value, c: Value, d: Value, key: string)
    requires key !in {"chunks", "summaries", "merged_summary", "refined_summary"}
    ensures Get(s0["chunks" := a]["summaries" := b]["merged_summary" := c], key, VInt(300))
            == Get(s0, key, VInt(300))
    ensures Get(s0["chunks" := a]["summaries" := b]["merged_summary" := c]["refined_summary" := d], key, VInt(300))
            == Get(s0, key, VInt(300))
  {
  }

  /** A sample run on a state with a text, a positive chunk size and an
      integer length limit completes after the five nodes. Its state holds
      the chunks of the text, one summary per chunk, the summaries joined
      with spaces, and their normalized and truncated form; whatever the
      length check asks for, the run is not sent back to `refine_summary`. */
  lemma SampleRunResult(s0: State, text: string, size: int, maxLen: int, fuel: nat)
    requires fuel >= 5
    requires GetOr(s0, "text", VStr(""), VStr("")) == VStr(text)
    requires IntArg(s0, "chunk_size", 200) == Ok(size) && size > 0
    requires IntArg(s0, "max_summary_length", 300) == Ok(maxLen)
    ensures var chunks := Chunks(text, size);
            var summaries := SummarizeAll(chunks);
            var merged := Join(summaries, ' ');
      RunFrom(SampleNodeRegistry(), SAMPLE_EDGES, Some(START), 0, s0, map[], Running, fuel)
      == LoopEnd(s0["chunks" := VStrs(chunks)]["summaries" := VStrs(summaries)]
                   ["merged_summary" := VStr(merged)]["refined_summary" := VStr(Refine(merged, maxLen))],
                 SampleLog(), Completed, 5)
  {
    var reg := SampleNodeRegistry();
    var chunks := Chunks(text, size);
    var summaries := SummarizeAll(chunks);
    var merged := Join(summaries, ' ');
    var refined := Refine(merged, maxLen);
    var s1 := s0["chunks" := VStrs(chunks)];
    var s2 := s1["summaries" := VStrs(summaries)];
    var s3 := s2["merged_summary" := VStr(merged)];
    var s4 := s3["refined_summary" := VStr(refined)];

    SplitTextStep(s0, text, size);
    SummarizeChunksStep(s1, chunks);
    MergeSummariesStep(s2, summaries);
    OtherKeysKept(s0, VStrs(chunks), VStrs(summaries), VStr(merged), VStr(refined), "max_summary_length");
    RefineSummaryStep(s3, merged, maxLen);
    CheckLengthStep(s4, refined, maxLen);
    SampleChainCompletes(reg, s0, s1, s2, s3, s4, fuel);
  }
}
