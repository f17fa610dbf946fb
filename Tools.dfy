/**
 * The sample node tools and their registry: fixed-size chunking of a text,
 * first-sentence summaries, joining, whitespace normalisation with
 * word-boundary truncation, and a length check. Every tool takes the run's
 * state and returns a dictionary with a `"state"` (a copy of the input with
 * one key set), a `"next_node"` and a `"logs"` entry, or raises.
 */
module Tools {
  import opened Values
  import opened Text

  /** The module-level registry from tool name to tool. */
  class ToolRegistry {
    var tools: map<string, Node>

    constructor ()
      ensures tools == map[]
    {
      tools := map[];
    }

    /** Binds `name` to `fn`, replacing an earlier binding. */
    method Register(name: string, fn: Node)
      modifies this
      ensures tools == old(tools)[name := fn]
    {
      tools := tools[name := fn];
    }

    /** The tool most recently registered under `name`, or None. */
    method Get(name: string) returns (fn: Option<Node>)
      ensures name in tools <==> fn.Some?
      ensures name in tools ==> fn.value == tools[name]
    {
      fn := if name in tools then Some(tools[name]) else None;
    }
  }

  /** The registry's contents once this module has loaded. */
  function SampleTools(): map<string, Node>
  {
    map[
      "chunk_text" := ChunkText,
      "summarize_chunk" := SummarizeChunk,
      "merge_summaries" := MergeSummaries,
      "refine_summary" := RefineSummary,
      "check_summary_length" := CheckSummaryLength
    ]
  }

  /** Loading the module: an empty registry, then the five registrations. */
  method LoadTools() returns (reg: ToolRegistry)
    ensures fresh(reg)
    ensures reg.tools == SampleTools()
  {
    reg := new ToolRegistry();
    reg.Register("chunk_text", ChunkText);
    reg.Register("summarize_chunk", SummarizeChunk);
    reg.Register("merge_summaries", MergeSummaries);
    reg.Register("refine_summary", RefineSummary);
    reg.Register("check_summary_length", CheckSummaryLength);
  }

  // ---------------------------------------------------------------------
  // Reading arguments out of the state

  /** `int(state.get(key, default))`. Only integers convert; None and lists
      raise TypeError, and a string is taken as unparsable. */
  function IntArg(s: State, key: string, default: int): (r: Result<int>)
    ensures r.Ok? <==> Get(s, key, VInt(default)).VInt?
    ensures r.Ok? ==> r.value == Get(s, key, VInt(default)).n
    ensures Get(s, key, VInt(default)).VStr? ==> r == Err(VALUE_ERROR)
    ensures Get(s, key, VInt(default)).VNone? || Get(s, key, VInt(default)).VStrs? ==> r == Err(TYPE_ERROR)
  {
    match Get(s, key, VInt(default))
    case VInt(n) => Ok(n)
    case VStr(_) => Err(VALUE_ERROR)
    case _ => Err(TYPE_ERROR)
  }

  /** `state.get(key, []) or []` iterated over: a list of strings, or the
      characters of a string; an integer is not iterable. */
  function ListArg(s: State, key: string): (r: Result<seq<string>>)
    ensures !Truthy(Get(s, key, VStrs([]))) ==> r == Ok([])
    ensures Get(s, key, VStrs([])).VStrs? ==> r == Ok(Get(s, key, VStrs([])).items)
  {
    match GetOr(s, key, VStrs([]), VStrs([]))
    case VStrs(items) => Ok(items)
    case VStr(t) => Ok(seq(|t|, i requires 0 <= i < |t| => [t[i]]))
    case VInt(_) => Err(TYPE_ERROR)
    case VNone => Ok([])
  }

  /** `d` is a copy of `s` with `key` set and nothing else changed. */
  predicate SetsOneKey(s: State, d: State, key: string)
  {
    key in d && d == s[key := d[key]]
  }

  /** The extra keys every tool returns beside `"state"`. */
  function ToolExtra(nextNode: Value, logs: seq<string>): State
  {
    map["next_node" := nextNode, "logs" := VStrs(logs)]
  }

  /** A tool's normal return: the new state and the extra keys. */
  function ToolReturn(newState: State, nextNode: Value, log: string): NodeResult
  {
    Dict(StateDict(newState), NoNext, ToolExtra(nextNode, [log]))
  }

  // ---------------------------------------------------------------------
  // chunk_text

  /** Consecutive pieces of `t` of length `n`, the last one possibly shorter. */
  function Chunks(t: string, n: nat): (chunks: seq<string>)
    requires n > 0
    ensures t == [] <==> chunks == []
    decreases |t|
  {
    if t == [] then []
    else if |t| <= n then [t]
    else [t[..n]] + Chunks(t[n..], n)
  }

  /** No chunk is empty or longer than `n`, and all but the last are exactly `n` long. */
  lemma {:induction false} ChunkSizes(t: string, n: nat)
    requires n > 0
    ensures var cs := Chunks(t, n);
      && (forall i :: 0 <= i < |cs| ==> 0 < |cs[i]| <= n)
      && (forall i :: 0 <= i < |cs| - 1 ==> |cs[i]| == n)
    decreases |t|
  {
    if |t| > n {
      ChunkSizes(t[n..], n);
      var cs := Chunks(t, n);
      assert forall i :: 1 <= i < |cs| ==> cs[i] == Chunks(t[n..], n)[i - 1];
    }
  }

  /** The concatenation of a list of strings. */
  function Concat(parts: seq<string>): string
    decreases |parts|
  {
    if parts == [] then "" else parts[0] + Concat(parts[1..])
  }

  /** The chunks put back together are the text. */
  lemma {:induction false} ChunksConcat(t: string, n: nat)
    requires n > 0
    ensures Concat(Chunks(t, n)) == t
    decreases |t|
  {
    if |t| > n {
      ChunksConcat(t[n..], n);
      assert t == t[..n] + t[n..];
    }
  }

  /** Chunk `i` is the slice `t[i*n : i*n+n]` of the comprehension. */
  lemma ChunkAt(t: string, n: nat, i: nat)
    requires n > 0 && i < |Chunks(t, n)|
    ensures i * n < |t| && Chunks(t, n)[i] == t[i * n..Min(i * n + n, |t|)]
  {
    ChunkAtOffset(t, n, i);
    OffsetIsProduct(i, n);
  }

  /** `i * n`, counted up by steps of `n`. */
  function Offset(i: nat, n: nat): nat
  {
    if i == 0 then 0 else Offset(i - 1, n) + n
  }

  lemma {:induction false} OffsetIsProduct(i: nat, n: nat)
    ensures Offset(i, n) == i * n
  {
    if i > 0 {
      OffsetIsProduct(i - 1, n);
      MulStep(i, n);
    }
  }

  lemma {:induction false} ChunkAtOffset(t: string, n: nat, i: nat)
    requires n > 0 && i < |Chunks(t, n)|
    ensures var k := Offset(i, n); k < |t| && Chunks(t, n)[i] == t[k..Min(k + n, |t|)]
    decreases |t|
  {
    var cs := Chunks(t, n);
    if i == 0 {
      assert cs[0] == t[..Min(n, |t|)];
    } else {
      var rest := t[n..];
      assert |t| > n && cs == [t[..n]] + Chunks(rest, n);
      ChunkAtOffset(rest, n, i - 1);
      var m := Offset(i - 1, n);
      var e := Min(m + n, |rest|);
      assert Min(m + n + n, |t|) == e + n;
      assert cs[i] == rest[m..e];
      SliceOfSuffix(t, n, m, e);
    }
  }

  lemma SliceOfSuffix(t: string, n: nat, m: nat, e: nat)
    requires n <= |t| && m <= e <= |t| - n
    ensures t[n..][m..e] == t[m + n..e + n]
  {
    assert forall j :: 0 <= j < e - m ==> t[n..][m..e][j] == t[m + n + j];
  }

  lemma MulStep(i: int, n: int)
    ensures (i - 1) * n + n == i * n
  {
  }

  /** The chunks reach the end of the text: with `ChunkAt`, chunk `i` starts
      at `i*n` for exactly the `i` with `i*n < |t|`, as `range(0, len(t), n)` does. */
  lemma {:induction false} ChunksCover(t: string, n: nat)
    requires n > 0
    ensures |t| <= |Chunks(t, n)| * n
    decreases |t|
  {
    if |t| > n {
      var k := |Chunks(t[n..], n)|;
      ChunksCover(t[n..], n);
      assert |Chunks(t, n)| == k + 1;
      assert (k + 1) * n == k * n + n by { MulStep(k + 1, n); }
    } else if t != [] {
      assert |Chunks(t, n)| == 1;
    }
  }

  /** The chunk list of `chunk_text`: `range` with a negative step is empty. */
  function ChunkList(t: string, size: int): seq<string>
    requires size != 0
  {
    if size < 0 then [] else Chunks(t, size)
  }

  /** chunk_text: splits `state["text"]` into `chunk_size`-long chunks. */
  function ChunkText(s: State): NodeResult
  {
    var text := GetOr(s, "text", VStr(""), VStr(""));
    match IntArg(s, "chunk_size", 200)
    case Err(e) => Raises(e)
    case Ok(size) =>
      if !Truthy(text) then
        ToolReturn(map["chunks" := VStrs([])], VNone, "No text found — created empty chunks list")
      else if !text.VStr? then Raises(TYPE_ERROR)
      else if size == 0 then Raises(VALUE_ERROR)
      else
        var chunks := ChunkList(text.s, size);
        ToolReturn(s["chunks" := VStrs(chunks)], VNone,
                   "Split text into " + NatToString(|chunks|) + " chunks")
  }

  /** With no text, the delta is `{"chunks": []}` and nothing else. */
  lemma ChunkTextWithoutText(s: State, size: int)
    requires !Truthy(Get(s, "text", VStr("")))
    requires IntArg(s, "chunk_size", 200) == Ok(size)
    ensures ChunkText(s).Dict? && ChunkText(s).next == NoNext
    ensures ChunkText(s).state == StateDict(map["chunks" := VStrs([])])
    ensures ChunkText(s).extra["next_node"] == VNone
  {
  }

  /** With a text and a positive size, the delta is a copy of the state whose
      `"chunks"` are chunks that concatenate back to the text. */
  lemma ChunkTextSplits(s: State, text: string, size: int)
    requires Get(s, "text", VStr("")) == VStr(text) && text != ""
    requires IntArg(s, "chunk_size", 200) == Ok(size) && size > 0
    ensures ChunkText(s).Dict? && ChunkText(s).next == NoNext
    ensures ChunkText(s).extra["next_node"] == VNone
    ensures exists chunks: seq<string> ::
              && ChunkText(s).state == StateDict(s["chunks" := VStrs(chunks)])
              && Concat(chunks) == text
              && (forall i :: 0 <= i < |chunks| ==> 0 < |chunks[i]| <= size)
              && (forall i :: 0 <= i < |chunks| - 1 ==> |chunks[i]| == size)
  {
    var chunks := Chunks(text, size);
    ChunksConcat(text, size);
    ChunkSizes(text, size);
    assert ChunkText(s).state == StateDict(s["chunks" := VStrs(chunks)]);
  }

  // ---------------------------------------------------------------------
  // summarize_chunk

  /** `[p.strip() for p in pieces if p.strip()]`. */
  function NonBlankStripped(pieces: seq<string>): (r: seq<string>)
    ensures |r| <= |pieces|
    decreases |pieces|
  {
    if pieces == [] then []
    else
      var h := Strip(pieces[0]);
      (if h != "" then [h] else []) + NonBlankStripped(pieces[1..])
  }

  /** The comprehension keeps no blank piece: each element is a stripped,
      non-empty piece. */
  lemma {:induction false} NonBlankStrippedKept(pieces: seq<string>)
    ensures forall x <- NonBlankStripped(pieces) :: x != "" && Trimmed(x)
    decreases |pieces|
  {
    if pieces != [] {
      NonBlankStrippedKept(pieces[1..]);
    }
  }

  /** The index of the first piece that is not blank, or `|pieces|` when all are. */
  function FirstNonBlank(pieces: seq<string>): (i: nat)
    ensures i <= |pieces|
    decreases |pieces|
  {
    if pieces == [] then 0
    else if Strip(pieces[0]) != "" then 0
    else 1 + FirstNonBlank(pieces[1..])
  }

  /** Every piece before `FirstNonBlank` is blank, and the piece at it is not. */
  lemma {:induction false} FirstNonBlankIsFirst(pieces: seq<string>)
    ensures forall j :: 0 <= j < FirstNonBlank(pieces) ==> Strip(pieces[j]) == ""
    ensures FirstNonBlank(pieces) < |pieces| ==> Strip(pieces[FirstNonBlank(pieces)]) != ""
    decreases |pieces|
  {
    if pieces != [] && Strip(pieces[0]) == "" {
      var rest := pieces[1..];
      FirstNonBlankIsFirst(rest);
      forall j | 1 <= j < FirstNonBlank(pieces)
        ensures Strip(pieces[j]) == ""
      {
        assert pieces[j] == rest[j - 1];
      }
      assert FirstNonBlank(pieces) < |pieces| ==> pieces[FirstNonBlank(pieces)] == rest[FirstNonBlank(rest)];
    }
  }

  /** The comprehension is non-empty exactly when some piece is not blank,
      and it then starts with the first such piece, stripped. */
  lemma {:induction false} NonBlankStrippedHead(pieces: seq<string>)
    ensures NonBlankStripped(pieces) != [] <==> FirstNonBlank(pieces) < |pieces|
    ensures FirstNonBlank(pieces) < |pieces| ==>
              NonBlankStripped(pieces)[0] == Strip(pieces[FirstNonBlank(pieces)])
    decreases |pieces|
  {
    if pieces != [] && Strip(pieces[0]) == "" {
      NonBlankStrippedHead(pieces[1..]);
    }
  }

  /** The summary of one chunk: its first non-blank sentence, or else the
      stripped first half (at least 20 characters) of it. */
  function Summary(c: string): string
  {
    var firsts := NonBlankStripped(SplitOn(c, '.'));
    if '.' in c && firsts != [] then firsts[0] + "."
    else Strip(PyPrefix(c, Max(20, |c| / 2)))
  }

  /** First rule of a summary: a chunk with a `'.'` and a piece between
      dots that is not blank is summarised by the first such piece,
      stripped, with a `'.'` after it. */
  lemma SummaryFirstSentence(c: string)
    requires '.' in c && FirstNonBlank(SplitOn(c, '.')) < |SplitOn(c, '.')|
    ensures var piece := SplitOn(c, '.')[FirstNonBlank(SplitOn(c, '.'))];
      && Summary(c) == Strip(piece) + "."
      && Strip(piece) != "" && '.' !in Strip(piece) && Trimmed(Strip(piece))
  {
    var pieces := SplitOn(c, '.');
    NonBlankStrippedHead(pieces);
    var i := FirstNonBlank(pieces);
    SplitOnPieces(c, '.');
    assert pieces[i] in pieces;
    StripNoNewChar(pieces[i], '.');
  }

  /** Second rule of a summary: otherwise it is the chunk's first
      `max(20, len // 2)` characters, stripped. */
  lemma SummaryPrefix(c: string)
    requires '.' !in c || FirstNonBlank(SplitOn(c, '.')) == |SplitOn(c, '.')|
    ensures Summary(c) == Strip(c[..Min(|c|, Max(20, |c| / 2))])
  {
    var n := Max(20, |c| / 2);
    assert PyPrefix(c, n) == c[..Min(|c|, n)];
    if '.' in c {
      NonBlankStrippedHead(SplitOn(c, '.'));
      assert NonBlankStripped(SplitOn(c, '.')) == [];
    }
  }

  /** Stripping does not introduce a character. */
  lemma StripNoNewChar(s: string, d: char)
    requires d !in s
    ensures d !in Strip(s)
  {
    var r, a := Strip(s), |s| - |StripLeft(s)|;
    StripIsInfix(s);
    assert forall x :: x in s[a..a + |r|] ==> x in s;
  }

  /** `[f(x) for x in xs]`. */
  function MapAll(f: string -> string, xs: seq<string>): (ys: seq<string>)
    ensures |ys| == |xs|
    decreases |xs|
  {
    if xs == [] then [] else [f(xs[0])] + MapAll(f, xs[1..])
  }

  /** The i-th result is `f` of the i-th element. */
  lemma {:induction false} MapAllInOrder(f: string -> string, xs: seq<string>)
    ensures forall i :: 0 <= i < |xs| ==> MapAll(f, xs)[i] == f(xs[i])
    decreases |xs|
  {
    if xs != [] {
      MapAllInOrder(f, xs[1..]);
      assert forall i :: 1 <= i < |xs| ==> xs[i] == xs[1..][i - 1];
    }
  }

  /** Mapping one more element appends its image. */
  lemma {:induction false} MapAllSnoc(f: string -> string, xs: seq<string>, x: string)
    ensures MapAll(f, xs + [x]) == MapAll(f, xs) + [f(x)]
    decreases |xs|
  {
    if xs != [] {
      MapAllSnoc(f, xs[1..], x);
      assert (xs + [x])[1..] == xs[1..] + [x];
    }
  }

  /** One summary per chunk. */
  function SummarizeAll(chunks: seq<string>): (summaries: seq<string>)
    ensures |summaries| == |chunks|
  {
    MapAll(Summary, chunks)
  }

  /** The i-th summary is the summary of the i-th chunk. */
  lemma SummarizeAllInOrder(chunks: seq<string>)
    ensures forall i :: 0 <= i < |chunks| ==> SummarizeAll(chunks)[i] == Summary(chunks[i])
  {
    MapAllInOrder(Summary, chunks);
  }

  /** The summaries loop of summarize_chunk. */
  method SummarizeChunks(chunks: seq<string>) returns (summaries: seq<string>)
    ensures summaries == SummarizeAll(chunks)
  {
    summaries := [];
    for k := 0 to |chunks|
      invariant summaries == SummarizeAll(chunks[..k])
    {
      SummarizeAllStep(chunks, k);
      summaries := summaries + [Summary(chunks[k])];
    }
    assert chunks[..|chunks|] == chunks;
  }

  lemma SummarizeAllStep(chunks: seq<string>, k: nat)
    requires k < |chunks|
    ensures SummarizeAll(chunks[..k + 1]) == SummarizeAll(chunks[..k]) + [Summary(chunks[k])]
  {
    assert chunks[..k + 1] == chunks[..k] + [chunks[k]];
    MapAllSnoc(Summary, chunks[..k], chunks[k]);
  }

  /** summarize_chunk: a summary for each of `state["chunks"]`. */
  function SummarizeChunk(s: State): NodeResult
  {
    match ListArg(s, "chunks")
    case Err(e) => Raises(e)
    case Ok(chunks) =>
      var summaries := SummarizeAll(chunks);
      ToolReturn(s["summaries" := VStrs(summaries)], VNone,
                 "Generated " + NatToString(|summaries|) + " summaries")
  }

  // ---------------------------------------------------------------------
  // merge_summaries

  /** merge_summaries: `state["summaries"]` joined with single spaces. */
  function MergeSummaries(s: State): NodeResult
  {
    match ListArg(s, "summaries")
    case Err(e) => Raises(e)
    case Ok(summaries) =>
      ToolReturn(s["merged_summary" := VStr(Join(summaries, ' '))], VNone, "Merged all summaries")
  }

  /** The merged summary holds the summaries in order with one space between
      neighbours: empty for no summaries, otherwise as long as the summaries
      together plus one per gap; summaries without spaces are given back by
      splitting it on spaces. */
  lemma MergeSummariesJoins(s: State, summaries: seq<string>)
    requires ListArg(s, "summaries") == Ok(summaries)
    ensures MergeSummaries(s).Dict? && MergeSummaries(s).next == NoNext
    ensures exists merged: string ::
              && MergeSummaries(s).state == StateDict(s["merged_summary" := VStr(merged)])
              && (summaries == [] ==> merged == "")
              && (summaries != [] ==> |merged| == TotalLength(summaries) + |summaries| - 1)
              && (|summaries| == 1 ==> merged == summaries[0])
              && merged == Join(summaries, ' ')
              && (summaries != [] && (forall p <- summaries :: ' ' !in p) ==> SplitOn(merged, ' ') == summaries)
  {
    var merged := Join(summaries, ' ');
    if summaries != [] {
      JoinLength(summaries, ' ');
      if forall p <- summaries :: ' ' !in p {
        SplitOnJoin(summaries, ' ');
      }
    }
    assert MergeSummaries(s).state == StateDict(s["merged_summary" := VStr(merged)]);
  }

  // ---------------------------------------------------------------------
  // refine_summary

  /** A prefix of a normalized string that ends at a space, at its end, or
      before its first space, is normalized. */
  lemma NormalizedPrefix(s: string, k: nat)
    requires Normalized(s) && k <= |s|
    requires k == |s| || s[k] == ' ' || ' ' !in s[..k]
    ensures Normalized(s[..k])
  {
    var p := s[..k];
    assert forall i :: 0 <= i < k ==> p[i] == s[i];
  }

  /** `" ".join(merged.split())`, cut to `maxLen` and back to the last space
      when it is longer than `maxLen`. */
  function Refine(merged: string, maxLen: int): (r: string)
    ensures Normalized(r)
    ensures var norm := Normalize(merged);
      && |r| <= |norm| && r == norm[..|r|]
      && (|norm| <= maxLen ==> r == norm)
      && (0 <= maxLen < |norm| ==>
            |r| <= maxLen
            && ((r == norm[..maxLen] && ' ' !in norm[..maxLen])
                || (|r| < maxLen && norm[|r|] == ' ' && ' ' !in norm[|r| + 1..maxLen])))
  {
    var refined := Normalize(merged);
    if |refined| > maxLen then
      var cut := PyPrefix(refined, maxLen);
      if ' ' in cut then
        var r := BeforeLastSpace(cut);
        assert refined[..|r|] == r && refined[|r|] == ' ';
        assert 0 <= maxLen ==> refined[|r| + 1..maxLen] == cut[|r| + 1..];
        NormalizedPrefix(refined, |r|);
        r
      else
        NormalizedPrefix(refined, |cut|);
        cut
    else
      refined
  }

  /** refine_summary: the merged summary, normalized and cut to `max_summary_length`. */
  function RefineSummary(s: State): NodeResult
  {
    var merged := GetOr(s, "merged_summary", VStr(""), VStr(""));
    if !merged.VStr? then Raises(ATTRIBUTE_ERROR)
    else
      match IntArg(s, "max_summary_length", 300)
      case Err(e) => Raises(e)
      case Ok(maxLen) =>
        ToolReturn(s["refined_summary" := VStr(Refine(merged.s, maxLen))], VNone,
                   "Refined summary for size + formatting")
  }

  // ---------------------------------------------------------------------
  // check_summary_length

  /** `len(v)` of a string or a list. */
  function Length(v: Value): Result<nat>
  {
    match v
    case VStr(t) => Ok(|t|)
    case VStrs(items) => Ok(|items|)
    case _ => Err(TYPE_ERROR)
  }

  /** check_summary_length: asks for `"refine_summary"` as the next node when
      the refined summary reaches `max_summary_length`; the state is returned as it is. */
  function CheckSummaryLength(s: State): NodeResult
  {
    var refined := GetOr(s, "refined_summary", VStr(""), VStr(""));
    match IntArg(s, "max_summary_length", 300)
    case Err(e) => Raises(e)
    case Ok(limit) =>
      match Length(refined)
      case Err(e) => Raises(e)
      case Ok(n) =>
        if n >= limit then
          ToolReturn(s, VStr("refine_summary"), "Summary exceeded limit → sending back to refine_summary")
        else
          ToolReturn(s, VNone, "Summary is within limit → workflow finished")
  }

  /** The length check names `"refine_summary"` exactly when the refined
      summary is at least as long as the limit, and changes nothing. */
  lemma CheckSummaryLengthRoutes(s: State, refined: string, limit: int)
    requires GetOr(s, "refined_summary", VStr(""), VStr("")) == VStr(refined)
    requires IntArg(s, "max_summary_length", 300) == Ok(limit)
    ensures CheckSummaryLength(s).Dict?
    ensures CheckSummaryLength(s).state == StateDict(s)
    ensures CheckSummaryLength(s).next == NoNext
    ensures CheckSummaryLength(s).extra["next_node"] == VStr("refine_summary") <==> |refined| >= limit
    ensures |refined| < limit ==> CheckSummaryLength(s).extra["next_node"] == VNone
  {
  }

  /** When they do not raise, summarize_chunk, merge_summaries and
      refine_summary return a copy of the state with one key set, and no
      next node. */
  lemma ToolsSetOneKey(s: State)
    ensures SummarizeChunk(s).Dict? ==>
              && SummarizeChunk(s).next == NoNext && SummarizeChunk(s).extra["next_node"] == VNone
              && SummarizeChunk(s).state.StateDict? && SetsOneKey(s, SummarizeChunk(s).state.delta, "summaries")
    ensures MergeSummaries(s).Dict? ==>
              && MergeSummaries(s).next == NoNext && MergeSummaries(s).extra["next_node"] == VNone
              && MergeSummaries(s).state.StateDict? && SetsOneKey(s, MergeSummaries(s).state.delta, "merged_summary")
    ensures RefineSummary(s).Dict? ==>
              && RefineSummary(s).next == NoNext && RefineSummary(s).extra["next_node"] == VNone
              && RefineSummary(s).state.StateDict? && SetsOneKey(s, RefineSummary(s).state.delta, "refined_summary")
  {
  }
}
