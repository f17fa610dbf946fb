/**
 * Concrete runs of small graphs through the engine's loop: a three-node
 * chain ended by an explicit `"next": None`, a single node that raises, and
 * a start node that was never registered.
 */
module Scenarios {
  import opened Values
  import opened Engine

  /** Returns the delta `{"x": 1}` and no `"next"` key. */
  function SetX(s: State): NodeResult { Dict(StateDict(map["x" := VInt(1)]), NoNext, map[]) }

  /** Returns neither a delta nor a `"next"` key. */
  function Plain(s: State): NodeResult { Dict(NoState, NoNext, map[]) }

  /** Returns `"next": None`. */
  function Stop(s: State): NodeResult { Dict(NoState, NextKey(None), map[]) }

  /** Raises. */
  function Fail(s: State): NodeResult { Raises(VALUE_ERROR) }

  /** A → B → C with C's result ending the run: it completes with state
      `{"x": 1}` and exactly three log entries. C's explicit None wins
      even over a static edge from C back to A. */
  lemma ChainScenario(back: Option<string>, fuel: nat)
    requires back == None || back == Some("A")
    requires fuel >= 3
    ensures RunFrom(map["A" := SetX, "B" := Plain, "C" := Stop],
                    map["A" := Some("B"), "B" := Some("C"), "C" := back],
                    Some("A"), 0, map[], map[], Running, fuel)
            == LoopEnd(map["x" := VInt(1)],
                       map[1 := StepEntry("A", Some("B")), 2 := StepEntry("B", Some("C")),
                           3 := StepEntry("C", None)],
                       Completed, 3)
  {
    var reg := map["A" := SetX, "B" := Plain, "C" := Stop];
    var edges := map["A" := Some("B"), "B" := Some("C"), "C" := back];
    var x := map["x" := VInt(1)];
    assert MergeState(map[], SetX(map[])) == x;
    var l1 := map[][1 := StepEntry("A", Some("B"))];
    var l2 := l1[2 := StepEntry("B", Some("C"))];
    calc {
      RunFrom(reg, edges, Some("A"), 0, map[], map[], Running, fuel);
      RunFrom(reg, edges, Some("B"), 1, x, l1, Running, fuel - 1);
      RunFrom(reg, edges, Some("C"), 2, x, l2, Running, fuel - 2);
      RunFrom(reg, edges, None, 3, x, l2[3 := StepEntry("C", None)], Running, fuel - 3);
    }
  }

  /** A single node A without an edge that raises: the run fails with its
      start entry and one exception entry, and the state as it was. */
  lemma RaiseScenario(s0: State, fuel: nat)
    requires fuel >= 1
    ensures RunFrom(map["A" := Fail], map[], Some("A"), 0, s0, map[], Running, fuel)
            == LoopEnd(s0, map[1 := StartEntry("A"), 2 := ExceptionEntry(VALUE_ERROR)], Failed, 2)
  {
  }

  /** A start node with no registered node: the run fails at step 1 with
      the entry naming it. */
  lemma UnregisteredScenario(s0: State, fuel: nat)
    requires fuel >= 1
    ensures RunFrom(map["A" := SetX], map["Z" := Some("A")], Some("Z"), 0, s0, map[], Running, fuel)
            == LoopEnd(s0, map[1 := NotRegisteredEntry("Z")], Failed, 1)
  {
  }
}
