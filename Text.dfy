/**
 * The string operations the sample tools are built from, with Python's
 * semantics: `str.isspace`, `str.strip()`, `str.split()`, `str.split(sep)`,
 * `sep.join(parts)`, slicing `s[:n]`, `str.rsplit(" ", 1)[0]` and the
 * decimal rendering of a count inside an f-string.
 */
module Text {

  /** Python's whitespace characters: those for which `str.isspace()` holds
      and on which `str.split()` and `str.strip()` cut. */
  predicate IsSpace(c: char)
  {
    || '\t' <= c <= '\r'
    || '\U{1C}' <= c <= ' '
    || c == '\U{85}' || c == '\U{A0}' || c == '\U{1680}'
    || '\U{2000}' <= c <= '\U{200A}'
    || c == '\U{2028}' || c == '\U{2029}' || c == '\U{202F}' || c == '\U{205F}'
    || c == '\U{3000}'
  }

  predicate AllSpace(s: string)
  {
    forall i :: 0 <= i < |s| ==> IsSpace(s[i])
  }

  predicate NoSpace(s: string)
  {
    forall i :: 0 <= i < |s| ==> !IsSpace(s[i])
  }

  /** No whitespace at either end. */
  predicate Trimmed(s: string)
  {
    s == [] || (!IsSpace(s[0]) && !IsSpace(s[|s| - 1]))
  }

  /** What `" ".join(s.split())` produces: trimmed, with single plain spaces
      as the only whitespace, never two in a row. */
  predicate Normalized(s: string)
  {
    && Trimmed(s)
    && (forall i :: 0 <= i < |s| && IsSpace(s[i]) ==> s[i] == ' ')
    && (forall i :: 0 <= i < |s| - 1 ==> !(IsSpace(s[i]) && IsSpace(s[i + 1])))
  }

  function Min(a: int, b: int): int { if a <= b then a else b }
  function Max(a: int, b: int): int { if a >= b then a else b }

  // ---------------------------------------------------------------------
  // strip()

  /** `s.lstrip()`: drops the leading whitespace and nothing else
      (`StripLeftDrops` says what it drops). */
  function StripLeft(s: string): (r: string)
    ensures |r| <= |s|
    decreases |s|
  {
    if s != [] && IsSpace(s[0]) then StripLeft(s[1..]) else s
  }

  /** `StripLeft` keeps a suffix, drops only whitespace, and stops at a
      character that is not whitespace. */
  lemma {:induction false} StripLeftDrops(s: string)
    ensures var r := StripLeft(s);
      && r == s[|s| - |r|..] && AllSpace(s[..|s| - |r|])
      && (r == [] || !IsSpace(r[0]))
    decreases |s|
  {
    if s != [] && IsSpace(s[0]) {
      StripLeftDrops(s[1..]);
      var r := StripLeft(s);
      assert s[..|s| - |r|] == [s[0]] + s[1..][..|s| - 1 - |r|];
    }
  }

  /** `s.rstrip()`: drops the trailing whitespace and nothing else
      (`StripRightDrops` says what it drops). */
  function StripRight(s: string): (r: string)
    ensures |r| <= |s|
    decreases |s|
  {
    if s != [] && IsSpace(s[|s| - 1]) then StripRight(s[..|s| - 1]) else s
  }

  /** `StripRight` keeps a prefix, drops only whitespace, and stops at a
      character that is not whitespace. */
  lemma {:induction false} StripRightDrops(s: string)
    ensures var r := StripRight(s);
      && r == s[..|r|] && AllSpace(s[|r|..])
      && (r == [] || !IsSpace(r[|r| - 1]))
    decreases |s|
  {
    if s != [] && IsSpace(s[|s| - 1]) {
      StripRightDrops(s[..|s| - 1]);
      var r := StripRight(s);
      assert s[|r|..] == s[..|s| - 1][|r|..] + [s[|s| - 1]];
    }
  }

  /** `s.strip()`: `s` without the whitespace at both ends. */
  function Strip(s: string): (r: string)
    ensures Trimmed(r) && |r| <= |s|
  {
    StripLeftDrops(s);
    StripRightDrops(StripLeft(s));
    StripRight(StripLeft(s))
  }

  /** What `strip()` keeps is the infix of `s` after its leading whitespace,
      and what it drops at either end is whitespace. */
  lemma StripIsInfix(s: string)
    ensures var r, a := Strip(s), |s| - |StripLeft(s)|;
      && a + |r| <= |s| && r == s[a..a + |r|]
      && AllSpace(s[..a]) && AllSpace(s[a + |r|..])
  {
    var l := StripLeft(s);
    var r := StripRight(l);
    var a := |s| - |l|;
    StripLeftDrops(s);
    StripRightDrops(l);
    assert r == s[a..a + |r|] && s[a + |r|..] == l[|r|..];
  }

  /** A blank string (empty or all whitespace) strips to the empty string, and only it. */
  lemma {:induction false} StripEmptyIffBlank(s: string)
    ensures Strip(s) == [] <==> AllSpace(s)
  {
    var l := StripLeft(s);
    var r := StripRight(l);
    StripLeftDrops(s);
    StripRightDrops(l);
    assert l != [] ==> l[0] == s[|s| - |l|];
    assert l == [] ==> s[..|s|] == s;
    assert r == [] ==> l[|r|..] == l;
  }

  // ---------------------------------------------------------------------
  // sep.join(parts) and s.split(sep)

  /** `sep.join(parts)` for a one-character separator. */
  function Join(parts: seq<string>, sep: char): (r: string)
    ensures parts == [] ==> r == ""
    decreases |parts|
  {
    if parts == [] then ""
    else if |parts| == 1 then parts[0]
    else parts[0] + [sep] + Join(parts[1..], sep)
  }

  /** Joining adds exactly one separator between neighbouring parts. */
  lemma {:induction false} JoinLength(parts: seq<string>, sep: char)
    requires parts != []
    ensures |Join(parts, sep)| == TotalLength(parts) + |parts| - 1
    decreases |parts|
  {
    if |parts| > 1 { JoinLength(parts[1..], sep); }
  }

  function TotalLength(parts: seq<string>): nat
    decreases |parts|
  {
    if parts == [] then 0 else |parts[0]| + TotalLength(parts[1..])
  }

  /** The position of the first occurrence of `d` in `s`. */
  function IndexOf(s: string, d: char): (i: nat)
    requires d in s
    ensures i < |s| && s[i] == d && d !in s[..i]
  {
    if s[0] == d then 0
    else
      assert d in s[1..] by { var k :| 0 <= k < |s| && s[k] == d; assert s[1..][k - 1] == d; }
      var j := IndexOf(s[1..], d);
      assert s[..j + 1] == [s[0]] + s[1..][..j];
      j + 1
  }

  /** The position of the last occurrence of `d` in `s`. */
  function LastIndexOf(s: string, d: char): (i: nat)
    requires d in s
    ensures i < |s| && s[i] == d && d !in s[i + 1..]
    decreases |s|
  {
    if s[|s| - 1] == d then |s| - 1
    else
      assert d in s[..|s| - 1] by { var k :| 0 <= k < |s| && s[k] == d; assert s[..|s| - 1][k] == d; }
      var i := LastIndexOf(s[..|s| - 1], d);
      assert s[i + 1..] == s[..|s| - 1][i + 1..] + [s[|s| - 1]];
      i
  }

  /** `s.split(d)`: the pieces between the occurrences of `d`, empty pieces included. */
  function SplitOn(s: string, d: char): (pieces: seq<string>)
    ensures |pieces| >= 1
    decreases |s|
  {
    if d !in s then [s]
    else
      var i := IndexOf(s, d);
      [s[..i]] + SplitOn(s[i + 1..], d)
  }

  /** No piece of `s.split(d)` holds `d`. */
  lemma {:induction false} SplitOnPieces(s: string, d: char)
    ensures forall p <- SplitOn(s, d) :: d !in p
    decreases |s|
  {
    if d in s {
      var i := IndexOf(s, d);
      SplitOnPieces(s[i + 1..], d);
    }
  }

  /** Splitting on a character and joining with it again gives back the string. */
  lemma {:induction false} JoinSplitOn(s: string, d: char)
    ensures Join(SplitOn(s, d), d) == s
    decreases |s|
  {
    if d in s {
      var i := IndexOf(s, d);
      var rest := SplitOn(s[i + 1..], d);
      JoinSplitOn(s[i + 1..], d);
      JoinCons(s[..i], rest, d);
      SplitAround(s, i);
    }
  }

  /** Joining a part in front of at least one more part puts the separator between them. */
  lemma JoinCons(p: string, rest: seq<string>, d: char)
    requires rest != []
    ensures Join([p] + rest, d) == p + [d] + Join(rest, d)
  {
    assert ([p] + rest)[1..] == rest;
  }

  /** A string is its prefix, the character at `i` and its suffix. */
  lemma SplitAround(s: string, i: nat)
    requires i < |s|
    ensures s == s[..i] + [s[i]] + s[i + 1..]
  {
  }

  /** Joining parts that do not hold `d` with `d` and splitting on `d`
      again gives back the parts. */
  lemma {:induction false} SplitOnJoin(parts: seq<string>, d: char)
    requires parts != [] && forall p <- parts :: d !in p
    ensures SplitOn(Join(parts, d), d) == parts
    decreases |parts|
  {
    var p := parts[0];
    assert p in parts;
    if |parts| > 1 {
      assert forall q <- parts[1..] :: q in parts;
      var rest := Join(parts[1..], d);
      var s := p + [d] + rest;
      assert Join(parts, d) == s;
      assert s[|p|] == d;
      assert d in s;
      var i := IndexOf(s, d);
      assert s[..i] == p && s[i + 1..] == rest;
      SplitOnJoin(parts[1..], d);
      assert parts == [p] + parts[1..];
    }
  }

  // ---------------------------------------------------------------------
  // s.split() and " ".join(words)

  /** The length of the run of non-whitespace characters at the start of `s`. */
  function WordLength(s: string): (n: nat)
    ensures n <= |s| && NoSpace(s[..n])
    ensures n < |s| ==> IsSpace(s[n])
    decreases |s|
  {
    if s == [] || IsSpace(s[0]) then 0
    else
      var n := WordLength(s[1..]);
      assert s[..n + 1] == [s[0]] + s[1..][..n];
      n + 1
  }

  /** `s.split()`: the maximal runs of non-whitespace characters, in order. */
  function Words(s: string): (words: seq<string>)
    ensures forall w <- words :: w != "" && NoSpace(w)
    decreases |s|
  {
    if s == [] then []
    else if IsSpace(s[0]) then Words(s[1..])
    else
      var n := WordLength(s);
      [s[..n]] + Words(s[n..])
  }

  /** The pieces between the whitespace characters of `s`, empty pieces included. */
  function SplitAtSpaces(s: string): (pieces: seq<string>)
    ensures |pieces| >= 1
    decreases |s|
  {
    if s == [] then [""]
    else
      var rest := SplitAtSpaces(s[1..]);
      if IsSpace(s[0]) then [""] + rest else [[s[0]] + rest[0]] + rest[1..]
  }

  /** The pieces that are not empty, in order. */
  function NonEmpty(pieces: seq<string>): seq<string>
    decreases |pieces|
  {
    if pieces == [] then []
    else (if pieces[0] == "" then [] else [pieces[0]]) + NonEmpty(pieces[1..])
  }

  /** The first piece between whitespace characters is the leading run of non-whitespace. */
  lemma {:induction false} FirstPieceIsWord(s: string)
    ensures SplitAtSpaces(s)[0] == s[..WordLength(s)]
    decreases |s|
  {
    if s != [] && !IsSpace(s[0]) {
      FirstPieceIsWord(s[1..]);
      var m := WordLength(s[1..]);
      assert s[..m + 1] == [s[0]] + s[1..][..m];
    }
  }

  /** `s.split()` as Python documents it: cut `s` at every whitespace
      character and drop the empty pieces; so the words are exactly the
      maximal runs of non-whitespace characters of `s`, in order. */
  lemma {:induction false} WordsAreRuns(s: string)
    ensures Words(s) == NonEmpty(SplitAtSpaces(s))
    decreases |s|
  {
    if s != [] {
      WordsAreRuns(s[1..]);
      if IsSpace(s[0]) {
        NonEmptyCons("", SplitAtSpaces(s[1..]));
      } else {
        WordStartsRun(s);
      }
    }
  }

  /** Dropping empty pieces from a piece in front of others. */
  lemma NonEmptyCons(head: string, tail: seq<string>)
    ensures NonEmpty([head] + tail) == (if head == "" then [] else [head]) + NonEmpty(tail)
  {
    assert ([head] + tail)[1..] == tail;
  }

  /** The inductive step of `WordsAreRuns` when `s` starts with a word. */
  lemma WordStartsRun(s: string)
    requires s != [] && !IsSpace(s[0])
    requires Words(s[1..]) == NonEmpty(SplitAtSpaces(s[1..]))
    ensures Words(s) == NonEmpty(SplitAtSpaces(s))
  {
    var t := s[1..];
    var rest := SplitAtSpaces(t);
    FirstPieceIsWord(t);
    var n := WordLength(s);
    var m := WordLength(t);
    assert n == m + 1;
    var head := [s[0]] + rest[0];
    assert head == s[..n];
    NonEmptyCons(head, rest[1..]);
    assert NonEmpty(SplitAtSpaces(s)) == [head] + NonEmpty(rest[1..]);
    assert t[m..] == s[n..];
    NonEmptyCons(rest[0], rest[1..]);
    assert rest == [rest[0]] + rest[1..];
    if m != 0 {
      assert Words(t) == [t[..m]] + Words(t[m..]);
      assert Words(t)[1..] == Words(t[m..]);
    }
    assert Words(s[n..]) == NonEmpty(rest[1..]);
  }


  predicate IsWord(w: string)
  {
    w != "" && NoSpace(w)
  }

  /** Words separated by single spaces: the form `Normalize` produces. */
  lemma {:induction false} JoinedWordsNormalized(words: seq<string>)
    requires forall w <- words :: IsWord(w)
    ensures Normalized(Join(words, ' '))
    ensures words != [] ==> Join(words, ' ') != "" && Join(words, ' ')[0] == words[0][0]
    decreases |words|
  {
    if |words| == 1 {
      assert words[0] in words;
    } else if |words| > 1 {
      var w := words[0];
      assert w in words;
      assert forall v <- words[1..] :: v in words;
      JoinedWordsNormalized(words[1..]);
      var rest := Join(words[1..], ' ');
      var s := w + [' '] + rest;
      assert Join(words, ' ') == s;
      assert forall i :: 0 <= i < |w| ==> s[i] == w[i];
      assert forall i :: |w| < i < |s| ==> s[i] == rest[i - |w| - 1];
      forall i | 0 <= i < |s| - 1 ensures !(IsSpace(s[i]) && IsSpace(s[i + 1])) {
        if i + 1 < |w| {
          assert s[i + 1] == w[i + 1];
        } else if i + 1 == |w| {
        } else if i == |w| {
          assert s[i + 1] == rest[0];
        } else {
          assert s[i] == rest[i - |w| - 1] && s[i + 1] == rest[i - |w|];
        }
      }
      assert s[|s| - 1] == rest[|rest| - 1];
    }
  }

  /** Splitting words that were joined by single spaces gives back the words. */
  lemma {:induction false} WordsOfJoin(words: seq<string>)
    requires forall w <- words :: IsWord(w)
    ensures Words(Join(words, ' ')) == words
    decreases |words|
  {
    if words != [] {
      var w := words[0];
      assert w in words;
      assert WordLength(w) == |w| by { WordLengthOfWord(w, []); assert w + [] == w; }
      if |words| == 1 {
        assert w[..|w|] == w && w[|w|..] == [];
      } else {
        assert forall v <- words[1..] :: v in words;
        WordsOfJoin(words[1..]);
        WordsOfWordThenSpace(w, Join(words[1..], ' '));
        assert words == [w] + words[1..];
      }
    }
  }

  lemma {:induction false} WordsOfWordThenSpace(w: string, rest: string)
    requires IsWord(w)
    ensures Words(w + [' '] + rest) == [w] + Words(rest)
  {
    var s := w + [' '] + rest;
    WordLengthOfWord(w, [' '] + rest);
    assert s == w + ([' '] + rest);
    assert s[0] == w[0];
    assert s[..|w|] == w;
    var t := s[|w|..];
    assert t == [' '] + rest;
    assert t[1..] == rest;
  }

  lemma {:induction false} WordLengthOfWord(w: string, tail: string)
    requires IsWord(w)
    requires tail == [] || IsSpace(tail[0])
    ensures WordLength(w + tail) == |w|
  {
    var s := w + tail;
    assert forall i :: 0 <= i < |w| ==> s[i] == w[i];
    assert tail != [] ==> s[|w|] == tail[0];
    var n := WordLength(s);
    assert n >= |w|;
  }

  /** `" ".join(s.split())`: whitespace runs collapsed to one space, ends trimmed. */
  function Normalize(s: string): (r: string)
    ensures Normalized(r)
  {
    JoinedWordsNormalized(Words(s));
    Join(Words(s), ' ')
  }

  /** Normalizing keeps the words, so normalizing twice is normalizing once. */
  lemma NormalizeKeepsWords(s: string)
    ensures Words(Normalize(s)) == Words(s)
    ensures Normalize(Normalize(s)) == Normalize(s)
  {
    WordsOfJoin(Words(s));
  }

  // ---------------------------------------------------------------------
  // slicing and rsplit

  /** `s[:n]`, where a negative `n` counts from the end. */
  function PyPrefix(s: string, n: int): (r: string)
    ensures |r| <= |s| && r == s[..|r|]
    ensures 0 <= n ==> |r| == Min(n, |s|)
    ensures n < 0 ==> |r| == Max(0, |s| + n)
  {
    if n >= 0 then s[..Min(n, |s|)] else s[..Max(0, |s| + n)]
  }

  /** `s.rsplit(" ", 1)[0]` for a string that holds a space: everything
      before its last space. */
  function BeforeLastSpace(s: string): (r: string)
    requires ' ' in s
    ensures |r| < |s| && r == s[..|r|] && s[|r|] == ' '
    ensures ' ' !in s[|r| + 1..]
  {
    s[..LastIndexOf(s, ' ')]
  }

  // ---------------------------------------------------------------------
  // decimal rendering

  function DigitChar(d: nat): (c: char)
    requires d < 10
    ensures '0' <= c <= '9'
  {
    "0123456789"[d]
  }

  /** `str(n)` for a count: its decimal digits, without leading zeros. */
  function NatToString(n: nat): (r: string)
    ensures r != [] && forall i :: 0 <= i < |r| ==> '0' <= r[i] <= '9'
    ensures |r| > 1 ==> r[0] != '0'
  {
    if n < 10 then [DigitChar(n)] else NatToString(n / 10) + [DigitChar(n % 10)]
  }

  /** The number a string of decimal digits denotes. */
  function DigitsValue(r: string): nat
    decreases |r|
  {
    if r == [] then 0
    else
      var d := r[|r| - 1] as int - '0' as int;
      DigitsValue(r[..|r| - 1]) * 10 + (if 0 <= d then d else 0)
  }

  /** `str(n)` denotes `n`. */
  lemma {:induction false} NatToStringValue(n: nat)
    ensures DigitsValue(NatToString(n)) == n
  {
    var r := NatToString(n);
    var d := n % 10;
    assert "0123456789"[d] as int - '0' as int == d;
    if n >= 10 {
      NatToStringValue(n / 10);
      assert r[..|r| - 1] == NatToString(n / 10);
    }
  }
}
