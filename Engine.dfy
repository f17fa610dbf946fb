/**
 * The workflow engine: a node registry, a graph store and a run store, and
 * the loop that drives one run from its start node until the next node is
 * falsy, a node is not registered, or a node raises.
 *
 * The loop of the source has no bound (a node may route back to an earlier
 * node forever); here it is given `fuel`, the number of node invocations it
 * may make. A run whose fuel runs out stays `Running`: the model then shows
 * a prefix of the source's unbounded execution.
 */
module Engine {
  import opened Values

  datatype Status = Running | Completed | Failed

  /** Static fallback transitions: node name to next node name, or None. */
  type Edges = map<string, Option<string>>

  /** A graph definition. The per-node configurations of the source are
      never read by the engine, so only the node names are kept. */
  datatype Graph = Graph(nodes: set<string>, edges: Edges, startNode: string)

  /** A run's log: step number to entry. */
  type Logs = map<int, string>

  /** A run record. */
  datatype Run = Run(runId: string, graphId: string, state: State, logs: Logs, status: Status)

  /** `while current:` — None and the empty name both stop the loop. */
  predicate IsTruthy(current: Option<string>)
  {
    current.Some? && current.value != ""
  }

  /** `edges.get(current)`. */
  function EdgeOf(edges: Edges, current: string): Option<string>
  {
    if current in edges then edges[current] else None
  }

  /** The next node after a node returned `res`: the result's `"next"` key
      when it has one, else the static edge of `current`. */
  function NextNode(res: NodeResult, edges: Edges, current: string): Option<string>
  {
    if res.Dict? && res.next.NextKey? then res.next.target else EdgeOf(edges, current)
  }

  /** The state after a node returned `res`: a dictionary under `"state"` is
      merged in by key overwrite; anything else leaves the state as it was. */
  function MergeState(state: State, res: NodeResult): (r: State)
    ensures res.Dict? && res.state.StateDict? ==>
              && r.Keys == state.Keys + res.state.delta.Keys
              && (forall k :: k in res.state.delta ==> r[k] == res.state.delta[k])
              && (forall k :: k in state && k !in res.state.delta ==> r[k] == state[k])
    ensures !(res.Dict? && res.state.StateDict?) ==> r == state
  {
    if res.Dict? && res.state.StateDict? then state + res.state.delta else state
  }

  /** Merging the same result a second time changes nothing more. */
  lemma MergeIdempotent(state: State, res: NodeResult)
    ensures MergeState(MergeState(state, res), res) == MergeState(state, res)
  {
  }

  // ---------------------------------------------------------------------
  // Log entries

  /** `f"{next_node}"`: None prints as `None`. */
  function ShowNode(n: Option<string>): string
  {
    match n
    case None => "None"
    case Some(s) => s
  }

  function StartEntry(name: string): string
  {
    "Start node '" + name + "'"
  }

  function NextSuffix(next: Option<string>): string
  {
    " -> next: " + ShowNode(next)
  }

  /** The entry of a step that ran to its end. */
  function StepEntry(name: string, next: Option<string>): string
  {
    StartEntry(name) + NextSuffix(next)
  }

  function NotRegisteredEntry(name: string): string
  {
    "Node '" + name + "' not registered. Stopping."
  }

  function ExceptionEntry(repr: string): string
  {
    "Exception: " + repr
  }

  ghost predicate IsStepEntry(s: string)
  {
    exists name, next :: s == StepEntry(name, next)
  }

  ghost predicate IsStartEntry(s: string)
  {
    exists name :: s == StartEntry(name)
  }

  ghost predicate IsNotRegisteredEntry(s: string)
  {
    exists name :: s == NotRegisteredEntry(name)
  }

  ghost predicate IsExceptionEntry(s: string)
  {
    exists repr :: s == ExceptionEntry(repr)
  }

  ghost predicate IsFailureEntry(s: string)
  {
    IsNotRegisteredEntry(s) || IsExceptionEntry(s)
  }

  /** The log's keys are exactly `1..n`. */
  ghost predicate Dense(logs: Logs, n: nat)
  {
    forall i :: i in logs <==> 1 <= i <= n
  }

  // ---------------------------------------------------------------------
  // The run loop

  /** Where a run's loop leaves the run: its state, its log, its status and
      the number of the last log entry. */
  datatype LoopEnd = LoopEnd(state: State, logs: Logs, status: Status, lastStep: nat)

  /** The loop of `_execute_run` from node `current`, after `step` steps,
      with at most `fuel` more node invocations. `status` is the run's status
      when the loop began. */
  function RunFrom(reg: map<string, Node>, edges: Edges, current: Option<string>, step: nat,
                   state: State, logs: Logs, status: Status, fuel: nat): LoopEnd
    decreases fuel
  {
    if !IsTruthy(current) then
      LoopEnd(state, logs, if status == Failed then Failed else Completed, step)
    else if fuel == 0 then
      LoopEnd(state, logs, status, step)
    else
      var name, k := current.value, step + 1;
      if name !in reg then
        LoopEnd(state, logs[k := NotRegisteredEntry(name)], Failed, k)
      else
        var res := reg[name](state);
        if res.Raises? then
          LoopEnd(state, logs[k := StartEntry(name)][k + 1 := ExceptionEntry(res.repr)], Failed, k + 1)
        else
          var next := NextNode(res, edges, name);
          RunFrom(reg, edges, next, k, MergeState(state, res), logs[k := StepEntry(name, next)],
                  status, fuel - 1)
  }

  /** The record a run's loop leaves behind. */
  function Executed(run: Run, graph: Graph, reg: map<string, Node>, fuel: nat): Run
  {
    var e := RunFrom(reg, graph.edges, Some(graph.startNode), 0, run.state, run.logs, run.status, fuel);
    run.(state := e.state, logs := e.logs, status := e.status)
  }

  /** A falsy current node ends the loop, and a run that has not failed completes. */
  lemma FalsyNodeCompletes(reg: map<string, Node>, edges: Edges, current: Option<string>, step: nat,
                           state: State, logs: Logs, fuel: nat)
    requires current == None || current == Some("")
    ensures RunFrom(reg, edges, current, step, state, logs, Running, fuel)
            == LoopEnd(state, logs, Completed, step)
  {
  }

  /** A node that is not registered writes one entry naming it at the next
      step and fails the run, raising nothing. */
  lemma UnregisteredNodeFails(reg: map<string, Node>, edges: Edges, name: string, step: nat,
                              state: State, logs: Logs, status: Status, fuel: nat)
    requires name != "" && name !in reg && fuel > 0
    ensures RunFrom(reg, edges, Some(name), step, state, logs, status, fuel)
            == LoopEnd(state, logs[step + 1 := "Node '" + name + "' not registered. Stopping."],
                       Failed, step + 1)
  {
  }

  /** A node that raises leaves its start entry, adds one exception entry
      after it and fails the run; state and earlier entries stay. */
  lemma RaisingNodeFails(reg: map<string, Node>, edges: Edges, name: string, step: nat,
                         state: State, logs: Logs, status: Status, fuel: nat)
    requires name != "" && name in reg && reg[name](state).Raises? && fuel > 0
    ensures RunFrom(reg, edges, Some(name), step, state, logs, status, fuel)
            == LoopEnd(state,
                       logs[step + 1 := "Start node '" + name + "'"]
                           [step + 2 := "Exception: " + reg[name](state).repr],
                       Failed, step + 2)
  {
  }

  /** A `"next"` key in a node's result wins over the static edge, even when
      it holds None. */
  lemma OverrideWins(reg: map<string, Node>, edges: Edges, name: string, step: nat,
                     state: State, logs: Logs, status: Status, fuel: nat)
    requires name != "" && name in reg && fuel > 0
    requires reg[name](state).Dict? && reg[name](state).next.NextKey?
    ensures var res := reg[name](state);
            var target := res.next.target;
      RunFrom(reg, edges, Some(name), step, state, logs, status, fuel)
      == RunFrom(reg, edges, target, step + 1, MergeState(state, res),
                 logs[step + 1 := "Start node '" + name + "' -> next: " + ShowNode(target)],
                 status, fuel - 1)
  {
    var target := reg[name](state).next.target;
    assert StepEntry(name, target) == "Start node '" + name + "' -> next: " + ShowNode(target);
  }

  /** Without a `"next"` key (whatever other keys, such as `"next_node"`,
      the result has), or with a result that is not a dictionary, the run
      follows the static edge. */
  lemma StaticEdgeOtherwise(reg: map<string, Node>, edges: Edges, name: string, step: nat,
                            state: State, logs: Logs, status: Status, fuel: nat)
    requires name != "" && name in reg && fuel > 0
    requires reg[name](state).NotDict? || (reg[name](state).Dict? && reg[name](state).next == NoNext)
    ensures var res := reg[name](state);
            var target := if name in edges then edges[name] else None;
      RunFrom(reg, edges, Some(name), step, state, logs, status, fuel)
      == RunFrom(reg, edges, target, step + 1, MergeState(state, res),
                 logs[step + 1 := "Start node '" + name + "' -> next: " + ShowNode(target)],
                 status, fuel - 1)
  {
    var target := EdgeOf(edges, name);
    assert StepEntry(name, target) == "Start node '" + name + "' -> next: " + ShowNode(target);
  }

  /** Entries already in the log are never rewritten, and the step count never goes back. */
  lemma {:induction false} EarlierEntriesKept(reg: map<string, Node>, edges: Edges, current: Option<string>,
                                              step: nat, state: State, logs: Logs, status: Status, fuel: nat)
    ensures var e := RunFrom(reg, edges, current, step, state, logs, status, fuel);
      && step <= e.lastStep
      && forall i :: i in logs && i <= step ==> i in e.logs && e.logs[i] == logs[i]
    decreases fuel
  {
    if IsTruthy(current) && fuel > 0 {
      var name, k := current.value, step + 1;
      if name in reg && !reg[name](state).Raises? {
        var res := reg[name](state);
        var next := NextNode(res, edges, name);
        EarlierEntriesKept(reg, edges, next, k, MergeState(state, res), logs[k := StepEntry(name, next)],
                           status, fuel - 1);
      }
    }
  }

  /** A log whose keys are exactly `1..step` keeps that shape: when the loop
      stops, the keys are exactly `1..lastStep`. */
  lemma {:induction false} LogsGrowDensely(reg: map<string, Node>, edges: Edges, current: Option<string>,
                                           step: nat, state: State, logs: Logs, status: Status, fuel: nat)
    requires Dense(logs, step)
    ensures var e := RunFrom(reg, edges, current, step, state, logs, status, fuel);
      step <= e.lastStep && Dense(e.logs, e.lastStep)
    decreases fuel
  {
    if IsTruthy(current) && fuel > 0 {
      var name, k := current.value, step + 1;
      if name in reg && !reg[name](state).Raises? {
        var res := reg[name](state);
        var next := NextNode(res, edges, name);
        LogsGrowDensely(reg, edges, next, k, MergeState(state, res), logs[k := StepEntry(name, next)],
                        status, fuel - 1);
      }
    }
  }

  /** How a run that began `Running` ends: completed with one step entry
      per step; failed at an unregistered node, with its entry last and a
      step entry at every earlier step; failed by a raising node, with the
      exception entry last, the node's start entry just before it and a
      step entry at every earlier step; or still running, after exactly
      `fuel` steps. */
  lemma RunEnds(reg: map<string, Node>, edges: Edges, current: Option<string>,
                step: nat, state: State, logs: Logs, fuel: nat)
    ensures var e := RunFrom(reg, edges, current, step, state, logs, Running, fuel);
      && (e.status == Completed ==>
            forall i :: step < i <= e.lastStep ==> i in e.logs && IsStepEntry(e.logs[i]))
      && (e.status == Failed ==> FailedLog(e.logs, step, e.lastStep))
      && (e.status == Running ==> e.lastStep == step + fuel && IsTruthy(current))
  {
    CompletedEnd(reg, edges, current, step, state, logs, fuel);
    FailedEnd(reg, edges, current, step, state, logs, fuel);
    RunningEnd(reg, edges, current, step, state, logs, fuel);
  }

  /** The log of a run that failed after step `step`, ending at `last`: an
      unregistered node's entry last with step entries before it, or an
      exception entry last, the raising node's start entry before it, and
      step entries before that. */
  ghost predicate FailedLog(logs: Logs, step: nat, last: nat)
  {
    && step < last && last in logs
    && ((&& IsNotRegisteredEntry(logs[last])
         && forall i :: step < i < last ==> i in logs && IsStepEntry(logs[i]))
        || (&& step + 1 < last && last - 1 in logs
            && IsExceptionEntry(logs[last]) && IsStartEntry(logs[last - 1])
            && forall i :: step < i < last - 1 ==> i in logs && IsStepEntry(logs[i])))
  }

  lemma {:induction false} CompletedEnd(reg: map<string, Node>, edges: Edges, current: Option<string>,
                                        step: nat, state: State, logs: Logs, fuel: nat)
    ensures var e := RunFrom(reg, edges, current, step, state, logs, Running, fuel);
      e.status == Completed ==> forall i :: step < i <= e.lastStep ==> i in e.logs && IsStepEntry(e.logs[i])
    decreases fuel
  {
    if IsTruthy(current) && fuel > 0 {
      var name, k := current.value, step + 1;
      if name in reg && !reg[name](state).Raises? {
        var res := reg[name](state);
        var next := NextNode(res, edges, name);
        var logs' := logs[k := StepEntry(name, next)];
        assert IsStepEntry(logs'[k]);
        CompletedEnd(reg, edges, next, k, MergeState(state, res), logs', fuel - 1);
        EarlierEntriesKept(reg, edges, next, k, MergeState(state, res), logs', Running, fuel - 1);
      }
    }
  }

  lemma {:induction false} FailedEnd(reg: map<string, Node>, edges: Edges, current: Option<string>,
                                     step: nat, state: State, logs: Logs, fuel: nat)
    ensures var e := RunFrom(reg, edges, current, step, state, logs, Running, fuel);
      e.status == Failed ==> FailedLog(e.logs, step, e.lastStep)
    decreases fuel
  {
    if IsTruthy(current) && fuel > 0 {
      var name, k := current.value, step + 1;
      var e := RunFrom(reg, edges, current, step, state, logs, Running, fuel);
      if name !in reg {
        assert e.logs[k] == NotRegisteredEntry(name);
      } else if reg[name](state).Raises? {
        assert e.logs[k + 1] == ExceptionEntry(reg[name](state).repr) && e.logs[k] == StartEntry(name);
      } else {
        var res := reg[name](state);
        var next := NextNode(res, edges, name);
        var logs' := logs[k := StepEntry(name, next)];
        assert IsStepEntry(logs'[k]);
        FailedEnd(reg, edges, next, k, MergeState(state, res), logs', fuel - 1);
        EarlierEntriesKept(reg, edges, next, k, MergeState(state, res), logs', Running, fuel - 1);
        assert e == RunFrom(reg, edges, next, k, MergeState(state, res), logs', Running, fuel - 1);
      }
    }
  }

  lemma {:induction false} RunningEnd(reg: map<string, Node>, edges: Edges, current: Option<string>,
                                      step: nat, state: State, logs: Logs, fuel: nat)
    ensures var e := RunFrom(reg, edges, current, step, state, logs, Running, fuel);
      e.status == Running ==> e.lastStep == step + fuel && IsTruthy(current)
    decreases fuel
  {
    if IsTruthy(current) && fuel > 0 {
      var name, k := current.value, step + 1;
      if name in reg && !reg[name](state).Raises? {
        var res := reg[name](state);
        var next := NextNode(res, edges, name);
        RunningEnd(reg, edges, next, k, MergeState(state, res), logs[k := StepEntry(name, next)], fuel - 1);
      }
    }
  }

  /** More fuel never changes a run that has already stopped. */
  lemma {:induction false} FuelOnlyCutsOff(reg: map<string, Node>, edges: Edges, current: Option<string>,
                                           step: nat, state: State, logs: Logs, fuel: nat, more: nat)
    requires fuel <= more
    requires RunFrom(reg, edges, current, step, state, logs, Running, fuel).status != Running
    ensures RunFrom(reg, edges, current, step, state, logs, Running, more)
            == RunFrom(reg, edges, current, step, state, logs, Running, fuel)
    decreases fuel
  {
    if IsTruthy(current) && fuel > 0 {
      var name, k := current.value, step + 1;
      if name in reg && !reg[name](state).Raises? {
        var res := reg[name](state);
        var next := NextNode(res, edges, name);
        FuelOnlyCutsOff(reg, edges, next, k, MergeState(state, res), logs[k := StepEntry(name, next)],
                        fuel - 1, more - 1);
      }
    }
  }

  /** The loop only adds and overwrites state keys; it never removes one. */
  lemma {:induction false} StateKeysOnlyGrow(reg: map<string, Node>, edges: Edges, current: Option<string>,
                                             step: nat, state: State, logs: Logs, status: Status, fuel: nat)
    ensures state.Keys <= RunFrom(reg, edges, current, step, state, logs, status, fuel).state.Keys
    decreases fuel
  {
    if IsTruthy(current) && fuel > 0 {
      var name, k := current.value, step + 1;
      if name in reg && !reg[name](state).Raises? {
        var res := reg[name](state);
        var next := NextNode(res, edges, name);
        StateKeysOnlyGrow(reg, edges, next, k, MergeState(state, res), logs[k := StepEntry(name, next)],
                          status, fuel - 1);
      }
    }
  }

  /** A run freshly created by `RunGraph` (empty log, `Running`) ends with
      log keys exactly `1..n` for some `n`; a completed run's entries are all
      step entries, and a failed run's last entry is a failure entry. */
  lemma FreshRunOutcome(run: Run, graph: Graph, reg: map<string, Node>, fuel: nat)
    requires run.logs == map[] && run.status == Running
    ensures var r := Executed(run, graph, reg, fuel);
      exists n: nat ::
        && Dense(r.logs, n)
        && (r.status == Completed ==> forall i :: i in r.logs ==> IsStepEntry(r.logs[i]))
        && (r.status == Failed ==> n in r.logs && IsFailureEntry(r.logs[n]))
        && (r.status == Running ==> n == fuel)
  {
    var e := RunFrom(reg, graph.edges, Some(graph.startNode), 0, run.state, run.logs, run.status, fuel);
    assert Dense(run.logs, 0);
    LogsGrowDensely(reg, graph.edges, Some(graph.startNode), 0, run.state, run.logs, run.status, fuel);
    RunEnds(reg, graph.edges, Some(graph.startNode), 0, run.state, run.logs, fuel);
    var r := Executed(run, graph, reg, fuel);
    var n: nat := e.lastStep;
    assert r.logs == e.logs && r.status == e.status;
    assert Dense(r.logs, n);
    assert r.status == Completed ==> forall i :: i in r.logs ==> IsStepEntry(r.logs[i]);
  }

  // ---------------------------------------------------------------------
  // Runs that follow the static edges

  /** The nodes met walking the static edges from `current`, at most `fuel` of them. */
  function EdgePath(edges: Edges, current: Option<string>, fuel: nat): seq<string>
    decreases fuel
  {
    if !IsTruthy(current) || fuel == 0 then [] else [current.value] + EdgePath(edges, EdgeOf(edges, current.value), fuel - 1)
  }

  /** The walk along the static edges from `current` reaches a falsy node
      within `fuel` steps. */
  predicate EdgeWalkStops(edges: Edges, current: Option<string>, fuel: nat)
    decreases fuel
  {
    !IsTruthy(current) || (fuel > 0 && EdgeWalkStops(edges, EdgeOf(edges, current.value), fuel - 1))
  }

  /** No registered node ever returns a `"next"` key. */
  ghost predicate NeverRoutes(reg: map<string, Node>)
  {
    forall name, s :: name in reg ==> !(reg[name](s).Dict? && reg[name](s).next.NextKey?)
  }

  /** When no node returns a `"next"` key, the run visits the nodes of the
      static edge walk in order: it stops within one step after the walk,
      stops for good when the walk does, and a completed run logs exactly
      the walk, each entry naming the node's static edge. */
  lemma {:induction false} FollowsEdgesWithoutOverride(reg: map<string, Node>, edges: Edges,
                                                       current: Option<string>, step: nat, state: State,
                                                       logs: Logs, fuel: nat)
    requires NeverRoutes(reg)
    ensures var e := RunFrom(reg, edges, current, step, state, logs, Running, fuel);
            var path := EdgePath(edges, current, fuel);
      && e.lastStep <= step + |path| + 1
      && (EdgeWalkStops(edges, current, fuel) ==> e.status != Running)
      && (e.status == Completed ==>
            && e.lastStep == step + |path|
            && forall i :: step < i <= step + |path| ==>
                 i in e.logs && e.logs[i] == StepEntry(path[i - step - 1], EdgeOf(edges, path[i - step - 1])))
    decreases fuel
  {
    if IsTruthy(current) && fuel > 0 {
      var name, k := current.value, step + 1;
      if name in reg && !reg[name](state).Raises? {
        var res := reg[name](state);
        var next := EdgeOf(edges, name);
        assert NextNode(res, edges, name) == next;
        var logs' := logs[k := StepEntry(name, next)];
        FollowsEdgesWithoutOverride(reg, edges, next, k, MergeState(state, res), logs', fuel - 1);
        EarlierEntriesKept(reg, edges, next, k, MergeState(state, res), logs', Running, fuel - 1);
        var path := EdgePath(edges, current, fuel);
        var rest := EdgePath(edges, next, fuel - 1);
        assert path == [name] + rest;
        var e := RunFrom(reg, edges, current, step, state, logs, Running, fuel);
        assert e == RunFrom(reg, edges, next, k, MergeState(state, res), logs', Running, fuel - 1);
        if e.status == Completed {
          forall i | step < i <= step + |path|
            ensures i in e.logs && e.logs[i] == StepEntry(path[i - step - 1], EdgeOf(edges, path[i - step - 1]))
          {
            if i > k {
              assert path[i - step - 1] == rest[i - k - 1];
            }
          }
        }
      }
    }
  }

  // ---------------------------------------------------------------------
  // The engine

  /** The engine: registered nodes, stored graphs and run records. */
  class WorkflowEngine {
    var graphs: map<string, Graph>
    var runs: map<string, Run>
    var nodeRegistry: map<string, Node>

    /** Every run record is filed under its own id and names a stored graph. */
    ghost predicate Valid()
      reads this
    {
      forall id :: id in runs ==> runs[id].runId == id && runs[id].graphId in graphs
    }

    constructor ()
      ensures Valid()
      ensures graphs == map[] && runs == map[] && nodeRegistry == map[]
    {
      graphs := map[];
      runs := map[];
      nodeRegistry := map[];
    }

    /** Registers `fn` under `name`, replacing any node of that name. */
    method RegisterNode(name: string, fn: Node)
      requires Valid()
      modifies this
      ensures Valid()
      ensures nodeRegistry == old(nodeRegistry)[name := fn]
      ensures graphs == old(graphs) && runs == old(runs)
    {
      nodeRegistry := nodeRegistry[name := fn];
    }

    /** Stores a graph under `graphId`, replacing any graph of that id, and
        returns the id. */
    method CreateGraph(graphId: string, nodes: set<string>, edges: Edges, startNode: string)
      returns (id: string)
      requires Valid()
      modifies this
      ensures Valid()
      ensures id == graphId
      ensures graphs == old(graphs)[graphId := Graph(nodes, edges, startNode)]
      ensures runs == old(runs) && nodeRegistry == old(nodeRegistry)
    {
      graphs := graphs[graphId := Graph(nodes, edges, startNode)];
      id := graphId;
    }

    /** The graph stored under `graphId`, or None. */
    method GetGraph(graphId: string) returns (g: Option<Graph>)
      ensures graphId in graphs <==> g.Some?
      ensures g.Some? ==> g.value == graphs[graphId]
    {
      g := if graphId in graphs then Some(graphs[graphId]) else None;
    }

    /** The run record stored under `runId`, or None. */
    method GetRun(runId: string) returns (r: Option<Run>)
      ensures runId in runs <==> r.Some?
      ensures r.Some? ==> r.value == runs[runId]
    {
      r := if runId in runs then Some(runs[runId]) else None;
    }

    /** Starts a run of a stored graph: files a new `Running` record with a
        copy of `initialState` and an empty log under the fresh id `runId`.
        An unknown graph raises and files nothing. */
    method RunGraph(graphId: string, initialState: State, runId: string) returns (r: Result<string>)
      requires Valid() && runId !in runs
      modifies this
      ensures Valid()
      ensures graphs == old(graphs) && nodeRegistry == old(nodeRegistry)
      ensures graphId !in graphs ==> r == Err("ValueError('Graph not found')") && runs == old(runs)
      ensures graphId in graphs ==>
                && r == Ok(runId)
                && runs == old(runs)[runId := Run(runId, graphId, initialState, map[], Running)]
    {
      if graphId !in graphs {
        return Err("ValueError('Graph not found')");
      }
      runs := runs[runId := Run(runId, graphId, initialState, map[], Running)];
      r := Ok(runId);
    }

    /** Drives run `runId` from its graph's start node with at most `fuel`
        node invocations. The record is rewritten after every step, so a
        reader sees the state and log grow as the run goes; when the loop
        stops the record is the one `RunFrom` describes. */
    method ExecuteRun(runId: string, fuel: nat)
      requires Valid() && runId in runs
      modifies this
      ensures Valid()
      ensures graphs == old(graphs) && nodeRegistry == old(nodeRegistry)
      ensures runs == old(runs)[runId := Executed(old(runs)[runId], old(graphs)[old(runs)[runId].graphId],
                                                  old(nodeRegistry), fuel)]
    {
      var run := runs[runId];
      var graph := graphs[run.graphId];
      var state := run.state;
      var logs := run.logs;
      var current := Some(graph.startNode);
      var step: nat := 0;
      var left := fuel;
      while IsTruthy(current) && left > 0
        invariant Valid() && runId in runs
        invariant graphs == old(graphs) && nodeRegistry == old(nodeRegistry)
        invariant runs == old(runs)[runId := run.(state := state, logs := logs)]
        invariant RunFrom(nodeRegistry, graph.edges, current, step, state, logs, run.status, left)
                  == RunFrom(nodeRegistry, graph.edges, Some(graph.startNode), 0, run.state, run.logs,
                             run.status, fuel)
        decreases left
      {
        step := step + 1;
        var name := current.value;
        if name !in nodeRegistry {
          logs := logs[step := NotRegisteredEntry(name)];
          runs := runs[runId := run.(state := state, logs := logs, status := Failed)];
          return;
        }
        ghost var prev := logs;
        logs := logs[step := StartEntry(name)];
        var res := nodeRegistry[name](state);
        if res.Raises? {
          logs := logs[step + 1 := ExceptionEntry(res.repr)];
          runs := runs[runId := run.(state := state, logs := logs, status := Failed)];
          return;
        }
        var next := NextNode(res, graph.edges, name);
        state := MergeState(state, res);
        logs := logs[step := logs[step] + NextSuffix(next)];
        assert logs == prev[step := StepEntry(name, next)];
        runs := runs[runId := run.(state := state, logs := logs)];
        current := next;
        left := left - 1;
      }
      if !IsTruthy(current) && run.status != Failed {
        runs := runs[runId := run.(state := state, logs := logs, status := Completed)];
      }
    }
  }
}
