/**
 * The JavaScript string primitives the application relies on: `trim`,
 * `includes`, ASCII `toUpperCase`/`toLowerCase`, and `split` on a regular
 * expression of the form `[class]+`.
 */
module Strings {

  /** The code points JavaScript counts as WhiteSpace or LineTerminator:
      what `String.prototype.trim` removes and what `\s` matches. */
  predicate IsWhitespace(c: char)
  {
    var n := c as int;
    n == 0x09 || n == 0x0A || n == 0x0B || n == 0x0C || n == 0x0D || n == 0x20
    || n == 0xA0 || n == 0x1680 || (0x2000 <= n <= 0x200A)
    || n == 0x2028 || n == 0x2029 || n == 0x202F || n == 0x205F
    || n == 0x3000 || n == 0xFEFF
  }

  /** `s` with its leading whitespace removed. */
  function TrimStart(s: string): (r: string)
    ensures |r| <= |s| && r == s[|s| - |r|..]
    ensures r == [] || !IsWhitespace(r[0])
    ensures forall i :: 0 <= i < |s| - |r| ==> IsWhitespace(s[i])
  {
    if s != [] && IsWhitespace(s[0]) then TrimStart(s[1..]) else s
  }

  /** `s` with its trailing whitespace removed. */
  function TrimEnd(s: string): (r: string)
    ensures |r| <= |s| && r == s[..|r|]
    ensures r == [] || !IsWhitespace(r[|r| - 1])
    ensures forall i :: |r| <= i < |s| ==> IsWhitespace(s[i])
  {
    if s != [] && IsWhitespace(s[|s| - 1]) then TrimEnd(s[..|s| - 1]) else s
  }

  /** `String.prototype.trim`: the longest slice of `s` that neither starts
      nor ends with whitespace; empty exactly when `s` is all whitespace. */
  function Trim(s: string): (r: string)
    ensures |r| <= |s|
    ensures r == [] || (!IsWhitespace(r[0]) && !IsWhitespace(r[|r| - 1]))
    ensures r == [] <==> forall i :: 0 <= i < |s| ==> IsWhitespace(s[i])
  {
    var t := TrimStart(s);
    var r := TrimEnd(t);
    assert (forall i :: 0 <= i < |s| ==> IsWhitespace(s[i])) ==> t == [] by {
      if t != [] {
        assert t[0] == s[|s| - |t|];
      }
    }
    r
  }

  /** Trimming a trimmed string changes nothing. */
  lemma TrimIdempotent(s: string)
    ensures Trim(Trim(s)) == Trim(s)
  {
    var r := Trim(s);
    if r != [] {
      assert TrimStart(r) == r;
      assert TrimEnd(r) == r;
    }
  }

  /** Leading whitespace in front of a string that does not start with whitespace is all that `TrimStart` removes. */
  lemma {:induction false} TrimStartPadded(w: string, c: string)
    requires forall i :: 0 <= i < |w| ==> IsWhitespace(w[i])
    requires c == [] || !IsWhitespace(c[0])
    ensures TrimStart(w + c) == c
    decreases |w|
  {
    if w == [] {
      assert w + c == c;
    } else {
      assert (w + c)[1..] == w[1..] + c;
      TrimStartPadded(w[1..], c);
    }
  }

  /** Trailing whitespace after a string that does not end with whitespace is all that `TrimEnd` removes. */
  lemma {:induction false} TrimEndPadded(c: string, w: string)
    requires forall i :: 0 <= i < |w| ==> IsWhitespace(w[i])
    requires c == [] || !IsWhitespace(c[|c| - 1])
    ensures TrimEnd(c + w) == c
    decreases |w|
  {
    if w == [] {
      assert c + w == c;
    } else {
      assert (c + w)[..|c + w| - 1] == c + w[..|w| - 1];
      TrimEndPadded(c, w[..|w| - 1]);
    }
  }

  /** `trim` removes exactly the whitespace padding around a string that
      neither starts nor ends with whitespace. */
  lemma TrimPadded(before: string, c: string, after: string)
    requires forall i :: 0 <= i < |before| ==> IsWhitespace(before[i])
    requires forall i :: 0 <= i < |after| ==> IsWhitespace(after[i])
    requires c != [] && !IsWhitespace(c[0]) && !IsWhitespace(c[|c| - 1])
    ensures Trim(before + c + after) == c
  {
    assert before + c + after == before + (c + after);
    TrimStartPadded(before, c + after);
    TrimEndPadded(c, after);
  }

  lemma ConcatAssoc(a: string, b: string, c: string)
    ensures a + (b + c) == a + b + c
  {
  }

  /** The JavaScript truthiness test `!s.trim()`: `s` is all whitespace
      (see `BlankIffTrimsToEmpty`). */
  predicate IsBlank(s: string)
  {
    forall i :: 0 <= i < |s| ==> IsWhitespace(s[i])
  }

  /** A string is blank exactly when trimming leaves nothing of it. */
  lemma BlankIffTrimsToEmpty(s: string)
    ensures IsBlank(s) <==> Trim(s) == []
  {
  }

  predicate StartsWith(s: string, prefix: string)
  {
    |prefix| <= |s| && s[..|prefix|] == prefix
  }

  /** `String.prototype.includes`: `sub` occurs somewhere in `s`. */
  predicate Contains(s: string, sub: string)
    decreases |s|
  {
    StartsWith(s, sub) || (s != [] && Contains(s[1..], sub))
  }

  /** `sub` occurs in `s` starting at position `i`. */
  predicate OccursAt(s: string, sub: string, i: int)
  {
    0 <= i && i + |sub| <= |s| && s[i..i + |sub|] == sub
  }

  /** An occurrence of `sub` at position `i` of `s` makes `Contains` true. */
  lemma {:induction false} ContainsAt(s: string, sub: string, i: nat)
    requires OccursAt(s, sub, i)
    ensures Contains(s, sub)
    decreases i
  {
    if i > 0 {
      assert s[1..][i - 1..i - 1 + |sub|] == s[i..i + |sub|];
      ContainsAt(s[1..], sub, i - 1);
    } else {
      assert s[..|sub|] == s[0..|sub|];
    }
  }

  /** `Contains` is only ever true at an actual occurrence. */
  lemma {:induction false} ContainsHasWitness(s: string, sub: string)
    requires Contains(s, sub)
    ensures exists i :: OccursAt(s, sub, i)
    decreases |s|
  {
    if StartsWith(s, sub) {
      assert OccursAt(s, sub, 0);
    } else {
      ContainsHasWitness(s[1..], sub);
      var i :| OccursAt(s[1..], sub, i);
      assert s[1..][i..i + |sub|] == s[i + 1..i + 1 + |sub|];
      assert OccursAt(s, sub, i + 1);
    }
  }

  /** A string occurs in any string that has it in the middle. */
  lemma ContainsMiddle(a: string, m: string, b: string)
    ensures Contains(a + m + b, m)
  {
    var s := a + m + b;
    assert s[|a|..|a| + |m|] == m;
    ContainsAt(s, m, |a|);
  }

  /** Two strings framed by the same prefix and suffix are framed equally only when they are equal. */
  lemma MiddleInjective(a: string, x: string, y: string, b: string)
    requires a + x + b == a + y + b
    ensures x == y
  {
    assert |x| == |y|;
    assert x == (a + x + b)[|a|..|a| + |x|];
    assert y == (a + y + b)[|a|..|a| + |y|];
  }

  /** `s.substring(start, end)`: both bounds are clamped to `[0, |s|]` and
      swapped when `start` exceeds `end`. */
  function Substring(s: string, start: int, end: int): (r: string)
    ensures |r| <= |s|
    ensures 0 <= start <= end <= |s| ==> r == s[start..end]
  {
    var a := Clamp(start, |s|);
    var b := Clamp(end, |s|);
    if a <= b then s[a..b] else s[b..a]
  }

  /** `substring` swaps reversed bounds and clamps each bound into `[0, |s|]`. */
  lemma SubstringSwapsAndClamps(s: string, start: int, end: int)
    ensures end < start ==> Substring(s, start, end) == Substring(s, end, start)
    ensures start < 0 ==> Substring(s, start, end) == Substring(s, 0, end)
    ensures |s| < start ==> Substring(s, start, end) == Substring(s, |s|, end)
    ensures end < 0 ==> Substring(s, start, end) == Substring(s, start, 0)
    ensures |s| < end ==> Substring(s, start, end) == Substring(s, start, |s|)
  {
  }

  /** `x` forced into `[0, n]`, as `substring` does with its arguments. */
  function Clamp(x: int, n: nat): (r: nat)
    ensures r <= n
    ensures 0 <= x <= n ==> r == x
    ensures x < 0 ==> r == 0
    ensures n < x ==> r == n
  {
    if x < 0 then 0 else if x > n then n else x
  }

  /** ASCII `toUpperCase` of one character. */
  function ToUpper(c: char): (u: char)
    ensures ('a' <= c <= 'z') == ('A' <= u <= 'Z' && u != c)
    ensures 'a' <= c <= 'z' ==> u as int == c as int - 32
    ensures !('a' <= c <= 'z') ==> u == c
  {
    if 'a' <= c <= 'z' then (c as int - 32) as char else c
  }

  /** ASCII `toLowerCase` of one character. */
  function ToLower(c: char): (l: char)
    ensures ('A' <= c <= 'Z') == ('a' <= l <= 'z' && l != c)
    ensures 'A' <= c <= 'Z' ==> l as int == c as int + 32
    ensures !('A' <= c <= 'Z') ==> l == c
  {
    if 'A' <= c <= 'Z' then (c as int + 32) as char else c
  }

  /** ASCII `toLowerCase` of a string. */
  function LowerAll(s: string): (r: string)
    ensures |r| == |s|
    ensures forall i :: 0 <= i < |s| ==> r[i] == ToLower(s[i])
  {
    if s == [] then [] else [ToLower(s[0])] + LowerAll(s[1..])
  }

  /** The character classes of the two `[class]+` patterns the source splits on:
      `/\s+/` and `/[-_\s]+/`. */
  datatype Separators = Spaces | DashesUnderscoresSpaces

  predicate IsSeparator(k: Separators, c: char)
  {
    IsWhitespace(c) || (k == DashesUnderscoresSpaces && (c == '-' || c == '_'))
  }

  /** The longest prefix of `s` free of separators. */
  function WordPrefix(k: Separators, s: string): (w: string)
    ensures |w| <= |s| && w == s[..|w|]
    ensures forall i :: 0 <= i < |w| ==> !IsSeparator(k, w[i])
    ensures |w| == |s| || IsSeparator(k, s[|w|])
  {
    if s == [] || IsSeparator(k, s[0]) then [] else [s[0]] + WordPrefix(k, s[1..])
  }

  /** `s` without its leading run of separators. */
  function DropSeparators(k: Separators, s: string): (r: string)
    ensures |r| <= |s| && r == s[|s| - |r|..]
    ensures r == [] || !IsSeparator(k, r[0])
    ensures s != [] && IsSeparator(k, s[0]) ==> |r| < |s|
  {
    if s != [] && IsSeparator(k, s[0]) then DropSeparators(k, s[1..]) else s
  }

  /** `s.split(/[class]+/)`: the pieces between maximal runs of separators,
      with an empty first (last) piece when `s` starts (ends) with a run;
      `"".split(...)` is `[""]`. */
  function Split(k: Separators, s: string): (parts: seq<string>)
    ensures |parts| >= 1
    ensures forall i, j :: 0 <= i < |parts| && 0 <= j < |parts[i]| ==> !IsSeparator(k, parts[i][j])
    ensures forall i :: 0 < i < |parts| - 1 ==> parts[i] != []
    ensures s != [] && !IsSeparator(k, s[0]) ==> parts[0] != []
    decreases |s|
  {
    var w := WordPrefix(k, s);
    if |w| == |s| then [w]
    else
      var rest := DropSeparators(k, s[|w|..]);
      assert |rest| < |s|;
      var more := Split(k, rest);
      assert forall i :: 0 < i < |more| + 1 ==> ([w] + more)[i] == more[i - 1];
      [w] + more
  }

  /** A non-empty run of separators. */
  predicate IsSeparatorRun(k: Separators, run: string)
  {
    run != [] && forall i :: 0 <= i < |run| ==> IsSeparator(k, run[i])
  }

  /** The run of separators `DropSeparators` removes from the front of `s`. */
  function LeadingRun(k: Separators, s: string): string
  {
    s[..|s| - |DropSeparators(k, s)|]
  }

  /** The leading run and what follows it make up `s`. */
  lemma LeadingRunThenRest(k: Separators, s: string)
    ensures LeadingRun(k, s) + DropSeparators(k, s) == s
  {
    var rest := DropSeparators(k, s);
    PrefixThenSuffix(s, |s| - |rest|);
  }

  lemma PrefixThenSuffix(s: string, n: nat)
    requires n <= |s|
    ensures s[..n] + s[n..] == s
  {
  }

  /** Before a separator, the leading run is a non-empty run of separators. */
  lemma {:induction false} LeadingRunIsRun(k: Separators, s: string)
    requires s != [] && IsSeparator(k, s[0])
    ensures IsSeparatorRun(k, LeadingRun(k, s))
  {
    DroppedAreSeparators(k, s);
  }

  /** What `DropSeparators` removes is all separators. */
  lemma {:induction false} DroppedAreSeparators(k: Separators, s: string)
    ensures forall i :: 0 <= i < |s| - |DropSeparators(k, s)| ==> IsSeparator(k, s[i])
  {
    if s != [] && IsSeparator(k, s[0]) {
      DroppedAreSeparators(k, s[1..]);
    }
  }

  /** The separator runs `Split` removes, in order. */
  function SeparatorRuns(k: Separators, s: string): (runs: seq<string>)
    ensures |runs| == |Split(k, s)| - 1
    decreases |s|
  {
    var w := WordPrefix(k, s);
    if |w| == |s| then []
    else
      var tail := s[|w|..];
      var rest := DropSeparators(k, tail);
      SplitStep(k, s, w, rest);
      [LeadingRun(k, tail)] + SeparatorRuns(k, rest)
  }

  /** `parts[0] + runs[0] + parts[1] + ... + parts[|parts| - 1]`. */
  function Interleave(parts: seq<string>, runs: seq<string>): (r: string)
    requires |parts| == |runs| + 1
    ensures |parts| == 1 ==> r == parts[0]
  {
    if |runs| == 0 then parts[0] else parts[0] + runs[0] + Interleave(parts[1..], runs[1..])
  }

  lemma InterleaveCons(p: string, parts: seq<string>, run: string, runs: seq<string>)
    requires |parts| == |runs| + 1
    ensures Interleave([p] + parts, [run] + runs) == p + run + Interleave(parts, runs)
  {
    assert ([p] + parts)[1..] == parts;
    assert ([run] + runs)[1..] == runs;
  }

  /** One step of `Split`: the word, then the split of what follows the run. */
  lemma SplitStep(k: Separators, s: string, w: string, rest: string)
    requires w == WordPrefix(k, s) && |w| < |s|
    requires rest == DropSeparators(k, s[|w|..])
    ensures Split(k, s) == [w] + Split(k, rest)
  {
  }

  /** One step of `SeparatorRuns`: the leading run after the word, then the
      runs of what follows it. */
  lemma SeparatorRunsStep(k: Separators, s: string, w: string, tail: string)
    requires w == WordPrefix(k, s) && |w| < |s| && tail == s[|w|..]
    ensures SeparatorRuns(k, s) == [LeadingRun(k, tail)] + SeparatorRuns(k, DropSeparators(k, tail))
  {
  }

  /** Every run `Split` removes is a non-empty run of separators. */
  lemma {:induction false} SeparatorRunsAreRuns(k: Separators, s: string)
    ensures forall run :: run in SeparatorRuns(k, s) ==> IsSeparatorRun(k, run)
    decreases |s|
  {
    var w := WordPrefix(k, s);
    if |w| < |s| {
      var tail := s[|w|..];
      var rest := DropSeparators(k, tail);
      SeparatorRunsStep(k, s, w, tail);
      assert tail[0] == s[|w|];
      LeadingRunIsRun(k, tail);
      SeparatorRunsAreRuns(k, rest);
    }
  }

  /** Splitting loses nothing: the pieces, glued back with the non-empty
      separator runs that were removed between them, give back `s`. */
  lemma {:induction false} SplitRejoins(k: Separators, s: string)
    ensures Interleave(Split(k, s), SeparatorRuns(k, s)) == s
    decreases |s|
  {
    var w := WordPrefix(k, s);
    if |w| < |s| {
      var tail := s[|w|..];
      var rest := DropSeparators(k, tail);
      var run := LeadingRun(k, tail);
      LeadingRunThenRest(k, tail);
      SplitStep(k, s, w, rest);
      SeparatorRunsStep(k, s, w, tail);
      assert s == w + tail;
      SplitRejoins(k, rest);
      InterleaveCons(w, Split(k, rest), run, SeparatorRuns(k, rest));
      assert tail == run + rest;
      ConcatAssoc(w, run, rest);
    } else {
      assert w == s;
    }
  }
}
