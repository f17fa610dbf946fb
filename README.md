# Workflow engine with a sample summarisation workflow, in Dafny

This project models the core of a small workflow engine and proves properties of the model. The engine has three parts:

- a node registry, from node names to callables;
- a graph store: each graph has its nodes, static edges and a start node;
- a run store: each run has its state dictionary, a log keyed by step number, and a status.

A run starts from its graph's start node. At each step the engine looks up the current node and logs the step. It calls the node on the run's state and merges any dictionary under the result's `"state"` key. The next node is the result's `"next"` key when the result has one, and the node's static edge otherwise. The run stops when the next node is falsy, when a node is not registered, or when a node raises.

The model also covers the sample tools and the sample workflow built from them:

- chunking a text;
- summarising each chunk by its first sentence;
- joining the summaries;
- normalising and truncating the result at a word boundary;
- checking its length.

The five nodes form a fixed chain registered as `"sample_graph"`.

The model is organised as follows:

- `Values.dfy`: the values in a run's state, Python truthiness, and what a node returns.
- `Text.dfy`: the Python string operations the tools use:
  - `str.strip()` and `str.split()` on Python's whitespace set;
  - `str.split(sep)`, `sep.join`, `s[:n]` and `rsplit(" ", 1)[0]`;
  - `str(n)` for a count.
- `Tools.dfy`: the tool registry as a class, and the five tools as functions from state to node result. The loop of `summarize_chunk` is a method proved against its specification function.
- `Engine.dfy`: `RunFrom`, a fuel-bounded specification of `_execute_run`, with lemmas about how runs end, their logs and their routing. Also the `WorkflowEngine` class, whose loop method `ExecuteRun` is proved to leave exactly the record `RunFrom` describes.
- `Workflows.dfy`: the five node wrappers, their registration, the constant graph, and the idempotent `register_workflow`. Also the end-to-end result of a sample run.
- `Scenarios.dfy`: concrete runs of small graphs:
  - a chain that an explicit `"next": None` ends;
  - a node that raises;
  - an unregistered start node.

Two behaviours of the source are worth knowing:

- Every tool returns its routing wish under `"next_node"`, while the engine reads only `"next"`. So no tool ever changes the route, and the length check's request to go back to `refine_summary` is never honoured. A sample run always follows the static edges and completes after five steps, unless a tool raises (`Workflows.SampleNodesNeverRoute`, `Workflows.SampleRunStops`, `Workflows.SampleRunResult`).
- An explicit `"next": None` in a node's result ends the run even where a static edge exists (`Engine.OverrideWins`, `Scenarios.ChainScenario`).

## Model

| member | source | states |
|---|---|---|
| Engine.WorkflowEngine.constructor | app/engine.py:7-10 | an engine starts with no graphs, no runs and no registered nodes |
| Engine.WorkflowEngine.RegisterNode | app/engine.py:12-13 | binds the name to the callable, replacing an earlier binding; graphs and runs unchanged |
| Engine.WorkflowEngine.CreateGraph | app/engine.py:15-17 | stores the graph under its id, overwriting any graph of that id, leaves every other graph, run and node as it was, and returns the id |
| Engine.WorkflowEngine.GetGraph | app/engine.py:19-20 | the stored graph exactly when the id is stored, otherwise None |
| Engine.WorkflowEngine.GetRun | app/engine.py:22-23 | the stored run record exactly when the id is stored, otherwise None |
| Engine.WorkflowEngine.RunGraph | app/engine.py:70-83 | an unknown graph id raises ValueError and files no record; otherwise exactly one new record is filed under the fresh id: that graph, the initial state as a value, an empty log and status running; other runs untouched |
| Engine.WorkflowEngine.ExecuteRun | app/engine.py:25-68 | the loop leaves the run's record as `RunFrom` says (state, log and status), changes no other run, graph or node, and keeps every record filed under its own id |
| Engine.MergeState | app/engine.py:49-52 | a dictionary delta overwrites exactly its keys and keeps every other key; a non-dictionary result or `"state"` value leaves the state as it was |
| Engine.MergeIdempotent | app/engine.py:49-52 | merging the same result twice is merging it once |
| Engine.FalsyNodeCompletes | app/engine.py:34-65 | a current node of None or the empty name ends the loop and a running run completes, with state and log unchanged |
| Engine.UnregisteredNodeFails | app/engine.py:36-40 | an unregistered node writes `Node '<name>' not registered. Stopping.` at the next step and fails the run, with state kept |
| Engine.RaisingNodeFails | app/engine.py:42-68 | a node that raises leaves its `Start node '<name>'` entry, adds `Exception: <repr>` one step later and fails the run; the state and earlier entries are kept |
| Engine.OverrideWins | app/engine.py:49-60 | a `"next"` key in the result decides the next node, even when it is None; the step is logged with that next node |
| Engine.StaticEdgeOtherwise | app/engine.py:53-57 | without a `"next"` key (e.g. only `"next_node"`), or for a non-dictionary result, the next node is the static edge or None |
| Engine.EarlierEntriesKept | app/engine.py:35-68 | log entries at or before the current step are never rewritten, and the step count never decreases |
| Engine.LogsGrowDensely | app/engine.py:35-68 | a log keyed exactly `1..step` ends keyed exactly `1..lastStep` |
| Engine.RunEnds | app/engine.py:34-68 | the three ends of a run: completed with a step entry at every step; failed in one of two ways (an unregistered node: step entries up to the step before, then `Node '<name>' not registered`; a raising node: step entries up to two steps before, then that node's `Start node` entry, then the exception entry); or still running with a truthy current node once the fuel is spent |
| Engine.CompletedEnd | app/engine.py:34-65 | a completed run has a step entry at every step it took |
| Engine.FailedEnd | app/engine.py:33-68 | a failed run ends with one of the two failure shapes, unregistered node or exception after its start entry, preceded only by step entries |
| Engine.RunningEnd | app/engine.py:34-35 | a run that is still running has used all its fuel and its current node is truthy |
| Engine.FuelOnlyCutsOff | app/engine.py:34 | more fuel never changes a run that has stopped: the bound only cuts off runs that have not |
| Engine.StateKeysOnlyGrow | app/engine.py:50-52 | the loop only adds and overwrites state keys, never removes one |
| Engine.FreshRunOutcome | app/engine.py:25-81 | a run filed by `run_graph` ends with log keys exactly `1..n`; a completed run logs only step entries, a failed run's entry `n` is a failure entry |
| Engine.FollowsEdgesWithoutOverride | app/engine.py:49-57 | when no node returns `"next"`, the run visits the static edge walk in order, stops once the walk does, and a completed run logs exactly that walk |
| Tools.ToolRegistry.constructor | app/tools.py:4 | the registry starts empty |
| Tools.ToolRegistry.Register | app/tools.py:6-7 | binds the name to the tool, replacing an earlier binding |
| Tools.ToolRegistry.Get | app/tools.py:9-10 | the tool most recently registered under the name, None for an unregistered name |
| Tools.LoadTools | app/tools.py:113-117 | after the module loads, the registry maps the five tool names to the five tools |
| Tools.IntArg | app/tools.py:16 | `int(state.get(key, default))`: the stored or default integer; otherwise ValueError for a string, TypeError for anything else |
| Tools.ListArg | app/tools.py:38 | `state.get(key, []) or []`: a falsy value reads as the empty list, a stored list reads as itself |
| Tools.ChunkTextWithoutText | app/tools.py:15-23 | empty or missing text gives the delta `{"chunks": []}` only, with no next node |
| Tools.ChunkTextSplits | app/tools.py:25-34 | for a text and a positive size, the delta is a copy of the state with `"chunks"` set to chunks that concatenate back to the text, none longer than the size and all but the last exactly that long |
| Tools.ChunksConcat | app/tools.py:25 | the chunks concatenate back to the text |
| Tools.ChunkSizes | app/tools.py:25 | no chunk is empty or longer than the size, and all but the last have exactly the size |
| Tools.ChunkAt | app/tools.py:25 | chunk `i` is the slice `text[i*n:i*n+n]` of the comprehension |
| Tools.ChunksCover | app/tools.py:25 | the chunks reach the end of the text: there are as many chunks as `range(0, len(text), n)` has starts |
| Tools.NonBlankStrippedKept | app/tools.py:43 | `[p.strip() for p in pieces if p.strip()]` keeps only non-empty, stripped pieces |
| Tools.FirstNonBlankIsFirst | app/tools.py:43-44 | every piece before the first non-blank one is blank, and that one is not |
| Tools.NonBlankStrippedHead | app/tools.py:43-45 | the comprehension is non-empty exactly when some piece is non-blank, and then starts with the first such piece, stripped |
| Tools.SummaryFirstSentence | app/tools.py:42-46 | a chunk with a `'.'` and a non-blank piece is summarised by its first non-blank piece, stripped, followed by `"."`; that piece is trimmed and holds no `'.'` |
| Tools.SummaryPrefix | app/tools.py:42-48 | otherwise the summary is the chunk's first `max(20, len // 2)` characters, stripped |
| Tools.StripNoNewChar | app/tools.py:43 | stripping never brings in a character the string does not hold |
| Tools.SummarizeAll | app/tools.py:41-48 | one summary per chunk |
| Tools.SummarizeAllInOrder | app/tools.py:41-48 | the i-th summary is the summary of the i-th chunk |
| Tools.SummarizeChunks | app/tools.py:39-48 | the loop appends one summary per chunk, in order, and ends with exactly `SummarizeAll` of the chunks |
| Tools.MergeSummariesJoins | app/tools.py:60-71 | the delta is a copy of the state with `"merged_summary"` set to exactly the summaries joined by single spaces: `""` for none, the one summary for one, the summaries' total length plus one per gap otherwise, and summaries without spaces come back in order when the merged text is split on spaces |
| Tools.Refine | app/tools.py:75-82 | the result is whitespace-normalised and a prefix of the normalised text: unchanged when it fits `max_len`; otherwise at most `max_len` long, cut at the last space before `max_len` or at `max_len` itself when there is no space |
| Tools.NormalizedPrefix | app/tools.py:80-82 | cutting a normalised string at a space, at its end or before its first space keeps it normalised |
| Tools.CheckSummaryLengthRoutes | app/tools.py:94-109 | `"next_node"` is `"refine_summary"` exactly when the refined summary is at least as long as the limit, and None otherwise; the state comes back unchanged, with no `"next"` key |
| Tools.ToolsSetOneKey | app/tools.py:50-90 | when they do not raise, summarize, merge and refine return a copy of the state with exactly one key set and `"next_node"` None |
| Text.Strip | app/tools.py:43 | `str.strip()` leaves no whitespace at either end |
| Text.StripLeftDrops | app/tools.py:43 | `lstrip` keeps a suffix and drops only whitespace, up to the first non-whitespace character |
| Text.StripRightDrops | app/tools.py:43 | `rstrip` keeps a prefix and drops only whitespace, back to the last non-whitespace character |
| Text.StripIsInfix | app/tools.py:43 | what `strip()` keeps is a contiguous infix, and everything it drops is whitespace |
| Text.StripEmptyIffBlank | app/tools.py:43 | a piece strips to `""` exactly when it is all whitespace |
| Text.SplitOnPieces | app/tools.py:43 | no piece of `c.split(".")` holds a `'.'` |
| Text.JoinSplitOn | app/tools.py:43 | joining the pieces of `split(d)` with `d` gives the string back |
| Text.SplitOnJoin | app/tools.py:62 | joining parts that do not hold `d` with `d` and splitting on `d` gives the parts back |
| Text.JoinLength | app/tools.py:62 | `" ".join` adds exactly one separator between neighbouring parts |
| Text.Words | app/tools.py:76 | `split()` gives non-empty words without whitespace |
| Text.WordsAreRuns | app/tools.py:76 | `split()` is cutting at every whitespace character and dropping the empty pieces, so its words are exactly the maximal non-whitespace runs of the string, in order |
| Text.FirstPieceIsWord | app/tools.py:76 | the first piece between whitespace characters is the string's leading non-whitespace run |
| Text.JoinedWordsNormalized | app/tools.py:76 | words joined by single spaces have no whitespace at the ends and no whitespace run |
| Text.WordsOfJoin | app/tools.py:76 | splitting words joined by single spaces gives the words back |
| Text.Normalize | app/tools.py:76 | `" ".join(s.split())` is trimmed, its only whitespace is plain spaces, and no two are adjacent |
| Text.NormalizeKeepsWords | app/tools.py:76 | normalising keeps the words, so normalising twice is normalising once |
| Text.PyPrefix | app/tools.py:48 | `s[:n]` is a prefix of length `min(n, len)`, or `max(0, len + n)` for a negative `n` |
| Text.BeforeLastSpace | app/tools.py:81-82 | `rsplit(" ", 1)[0]` is the prefix before the last space |
| Text.NatToString | app/tools.py:33 | `str(n)` of a count is a non-empty digit string without a leading zero |
| Text.NatToStringValue | app/tools.py:33 | the decimal digits of `str(n)` denote `n` |
| Workflows.WrappersDelegate | app/workflows.py:6-24 | each node wrapper returns exactly what its tool returns on the same state |
| Workflows.LoadWorkflows | app/workflows.py:28-32 | loading registers the five wrappers under the five node names, overriding earlier nodes of those names; graphs and runs untouched |
| Workflows.RegistrationsAreUnion | app/workflows.py:28-32 | the five successive registrations add the sample nodes over the earlier registry |
| Workflows.RegisterWorkflow | app/workflows.py:55-62 | creates `"sample_graph"` with the constant nodes, edges and start `"split_text"` only when no graph has that id, and returns the id either way |
| Workflows.RegisterWorkflowIdempotent | app/workflows.py:60-61 | registering twice stores what registering once does; a stored graph of that id is kept and other graphs are untouched |
| Workflows.SampleGraphWellFormed | app/workflows.py:28-52 | the start node and every edge target are nodes, every node has an edge entry, and every node is registered |
| Workflows.SampleEdgeWalk | app/workflows.py:46-52 | walking the edges from `"split_text"` meets the five nodes once each, in order, then reaches None |
| Workflows.ToolsNeverRoute | app/tools.py:14-109 | no tool returns a `"next"` key |
| Workflows.SampleNodesNeverRoute | app/workflows.py:6-32 | no registered sample node returns a `"next"` key, so the length check's `"next_node"` never reroutes |
| Workflows.SampleRunStops | app/workflows.py:46-52 | every sample run stops within the five nodes whatever its initial state; a completed one took exactly five steps, the last logged with next node None |
| Workflows.SampleChainCompletes | app/workflows.py:46-52 | when the five nodes each return a dictionary without `"next"`, the run follows the chain and completes with the chain's five log entries |
| Workflows.SampleRunResult | app/workflows.py:6-62 | a sample run on a state with a text, a positive chunk size and an integer limit completes after five steps. Its state holds the chunks, the per-chunk summaries, their join and its refined form. The length check never sends it back |
| Scenarios.ChainScenario | app/engine.py:34-65 | a three-node chain whose last node returns `"next": None` completes with three step entries and the merged state, even with an edge back to the start |
| Scenarios.RaiseScenario | app/engine.py:42-68 | a raising start node fails the run with its start entry and one exception entry |
| Scenarios.UnregisteredScenario | app/engine.py:36-40 | an unregistered start node fails the run at step 1 with the entry naming it |

## Left out

- Asynchronous scheduling is not modelled. This covers `asyncio.create_task`, `await asyncio.sleep(0)`, `run_in_executor` and the coroutine check (app/engine.py:43-47,62,82). A run's loop is one sequential execution, and `run_graph` only files the record; `ExecuteRun` is called separately.
- `uuid.uuid4()` is not modelled: the fresh run id is a parameter of `RunGraph`, with a precondition that it is not in use.
- `repr(e)` is reduced to the exception's class, e.g. `TypeError()`, or to a fixed description for `ValueError('Graph not found')`.
- `int()` of a string always raises ValueError. Parsing numeric strings is not modelled.
- Python values are limited to None, integers, strings and lists of strings. A text that is a list or a non-zero integer makes `chunk_text` raise TypeError. Python would slice a list instead.
- A node's `"next"` value is None or a string. The results of node functions are abstract; a node that mutates the state object it receives in place is not modelled.
- Graph nodes are kept as a set of names. The per-node configurations are never read by the engine.
- The loop is bounded by `fuel`, the number of node invocations. A run whose fuel runs out stays `Running`: it is a prefix of the source's unbounded execution (`Engine.FuelOnlyCutsOff`).
- Engine.WorkflowEngine.ExecuteRun: while a node runs, the source's record already shows that step's `Start node '<name>'` entry. The model writes the record only after the step ends, so that intermediate view is not captured.
- Changes to the node registry or graph store by other code during a run are not modelled. The run reads the registry and its graph as they were when it started.
- Workflows.WrappersDelegate: each wrapper is bound to the tool map as loaded (`SampleTools`). The source looks its tool up in the live `_TOOL_REG` on every call (app/workflows.py:7, app/tools.py:9-10), so a tool registered or replaced later, or a missing tool (`None`, which raises when called), is not captured.
- Engine.WorkflowEngine.CreateGraph: the graph record holds the nodes and edges as values. The source stores the caller's own dicts (app/engine.py:16), so later changes the caller makes to them would show in the stored graph; that aliasing is not modelled.
- Engine.WorkflowEngine.RunGraph: the run record's state is a copy by value of the initial state. The source's `initial_state.copy()` (app/engine.py:78) is shallow, so nested lists stay shared with the caller; that sharing is not modelled.
- app/main.py (the HTTP and WebSocket layer) and app/models.py (request schemas) are not part of this model.
