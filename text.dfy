/**
  Character classes and string scanning shared by the value normalisers and the
  line matchers: Python's `\d`, `\s`/`str.isspace`, `str.strip`, `str.split('\n')`,
  and the "first position that works" search a backtracking regex engine performs.
*/
module Text {
  import opened Wrappers

  /** `\d`, restricted to the ASCII digits. */
  predicate IsDigit(c: char) {
    '0' <= c <= '9'
  }

  /** Python's `str.isspace()`; `\s` on `str` patterns and `str.strip()` use the same set. */
  predicate IsSpace(c: char) {
    || c == ' ' || '\t' <= c <= '\r' || '\U{1C}' <= c <= '\U{1F}'
    || c == '\U{85}' || c == '\U{A0}' || c == '\U{1680}' || '\U{2000}' <= c <= '\U{200A}'
    || c == '\U{2028}' || c == '\U{2029}' || c == '\U{202F}' || c == '\U{205F}' || c == '\U{3000}'
  }

  /** The class `[\d\.,]` of the amount columns (`[,.\d]` is the same class). */
  predicate IsAmountChar(c: char) {
    IsDigit(c) || c == '.' || c == ','
  }

  /** Any character but a line break: what `.` matches without DOTALL. */
  predicate NotNewline(c: char) {
    c != '\n'
  }

  predicate AllDigits(s: string) {
    forall i :: 0 <= i < |s| ==> IsDigit(s[i])
  }

  predicate AllAmountChars(s: string) {
    forall i :: 0 <= i < |s| ==> IsAmountChar(s[i])
  }

  /** End of the longest run of characters satisfying `p` that starts at `i` (a greedy `p*`). */
  function RunEnd(s: string, i: nat, p: char -> bool): (e: nat)
    requires i <= |s|
    ensures i <= e <= |s|
    ensures forall j {:trigger p(s[j])} :: i <= j < e ==> p(s[j])
    ensures e == |s| || !p(s[e])
    decreases |s| - i
  {
    if i < |s| && p(s[i]) then RunEnd(s, i + 1, p) else i
  }

  /** RunEnd stops exactly at `e` when every character before `e` qualifies and the one at `e` does not. */
  lemma {:induction false} RunEndAt(s: string, i: nat, e: nat, p: char -> bool)
    requires i <= e <= |s|
    requires forall k :: i <= k < e ==> p(s[k])
    requires e == |s| || !p(s[e])
    ensures RunEnd(s, i, p) == e
    decreases e - i
  {
    if i < e {
      RunEndAt(s, i + 1, e, p);
    }
  }

  function SpaceEnd(s: string, i: nat): (e: nat)
    requires i <= |s|
    ensures i <= e <= |s|
    ensures forall j {:trigger IsSpace(s[j])} :: i <= j < e ==> IsSpace(s[j])
    ensures e == |s| || !IsSpace(s[e])
  {
    RunEnd(s, i, IsSpace)
  }

  function DigitEnd(s: string, i: nat): (e: nat)
    requires i <= |s|
    ensures i <= e <= |s|
    ensures forall j {:trigger IsDigit(s[j])} :: i <= j < e ==> IsDigit(s[j])
    ensures e == |s| || !IsDigit(s[e])
  {
    RunEnd(s, i, IsDigit)
  }

  function AmountEnd(s: string, i: nat): (e: nat)
    requires i <= |s|
    ensures i <= e <= |s|
    ensures forall j {:trigger IsAmountChar(s[j])} :: i <= j < e ==> IsAmountChar(s[j])
    ensures e == |s| || !IsAmountChar(s[e])
  {
    RunEnd(s, i, IsAmountChar)
  }

  /** How far `.` can reach from `i`: the next line break, or the end. */
  function LineEnd(s: string, i: nat): (e: nat)
    requires i <= |s|
    ensures i <= e <= |s|
    ensures forall j {:trigger NotNewline(s[j])} :: i <= j < e ==> NotNewline(s[j])
    ensures e == |s| || !NotNewline(s[e])
  {
    RunEnd(s, i, NotNewline)
  }

  /** A slice that stays within one line holds no line break. */
  lemma LineSlice(s: string, a: nat, e: nat)
    requires a <= |s| && a <= e <= LineEnd(s, a)
    ensures '\n' !in s[a..e]
  {
    forall j | 0 <= j < e - a ensures s[a..e][j] != '\n' {
      assert NotNewline(s[a + j]);
    }
  }

  /** The literal `lit` occurs in `s` at position `i`. */
  predicate LitAt(s: string, i: nat, lit: string) {
    i + |lit| <= |s| && s[i..i + |lit|] == lit
  }

  /** The characters of a literal that occurs at `i`. */
  lemma LitAtChars(s: string, i: nat, lit: string)
    requires LitAt(s, i, lit)
    ensures forall j :: 0 <= j < |lit| ==> s[i + j] == lit[j]
  {
    forall j | 0 <= j < |lit| ensures s[i + j] == lit[j] {
      assert s[i..i + |lit|][j] == s[i + j];
    }
  }

  /** Where `$` matches without MULTILINE: at the end, or before a final line break. */
  predicate AtDollar(s: string, i: nat) {
    i == |s| || (i + 1 == |s| && s[i] == '\n')
  }

  /**
    The case folding behind IGNORECASE for the letters the header patterns use:
    ASCII and Latin-1 capitals, and the extra equivalences of Python's `re`
    (dotless and dotted I, long s, Kelvin sign, Angstrom sign).
  */
  function FoldCase(c: char): char {
    if 'A' <= c <= 'Z' || ('\U{C0}' <= c <= '\U{DE}' && c != '\U{D7}') then (c as int + 32) as char
    else if c == '\U{130}' || c == '\U{131}' then 'i'
    else if c == '\U{17F}' then 's'
    else if c == '\U{212A}' then 'k'
    else if c == '\U{212B}' then '\U{E5}'
    else c
  }

  /** `lit` occurs at `i` when compared with IGNORECASE. */
  predicate LitAtFold(s: string, i: nat, lit: string) {
    i + |lit| <= |s| && forall j :: 0 <= j < |lit| ==> FoldCase(s[i + j]) == FoldCase(lit[j])
  }

  /**
    The first position in `lo..hi` (both inclusive) where `p` holds: the order in
    which a backtracking engine tries start positions and lazy repetitions.
  */
  function Find(lo: nat, hi: nat, p: nat -> bool): (r: Option<nat>)
    ensures r.Some? ==> lo <= r.value <= hi && p(r.value)
    ensures r.Some? ==> forall j :: lo <= j < r.value ==> !p(j)
    ensures r.None? ==> forall j :: lo <= j <= hi ==> !p(j)
    decreases hi + 1 - lo
  {
    if lo > hi then None
    else if p(lo) then Some(lo)
    else Find(lo + 1, hi, p)
  }

  /** A search finds something when some position in range works. */
  lemma FindSome(lo: nat, hi: nat, p: nat -> bool, k: nat)
    requires lo <= k <= hi && p(k)
    ensures Find(lo, hi, p).Some? && Find(lo, hi, p).value <= k
  {
  }

  /** A search stops at the first position in range that works. */
  lemma FindFirst(lo: nat, hi: nat, p: nat -> bool, k: nat)
    requires lo <= k <= hi && p(k) && forall j :: lo <= j < k ==> !p(j)
    ensures Find(lo, hi, p) == Some(k)
  {
  }

  /**
    The last position in `lo..hi` where `p` holds: the order in which a greedy
    repetition gives characters back when what follows it fails.
  */
  function FindLast(lo: nat, hi: nat, p: nat -> bool): (r: Option<nat>)
    ensures r.Some? ==> lo <= r.value <= hi && p(r.value)
    ensures r.Some? ==> forall j :: r.value < j <= hi ==> !p(j)
    ensures r.None? ==> forall j :: lo <= j <= hi ==> !p(j)
    decreases hi
  {
    if lo > hi then None
    else if p(hi) then Some(hi)
    else if hi == lo then None
    else FindLast(lo, hi - 1, p)
  }

  /** End of `s` once its trailing whitespace is dropped, looking no further left than `lo`. */
  function TrailStart(s: string, lo: nat, hi: nat): (b: nat)
    requires lo <= hi <= |s|
    ensures lo <= b <= hi
    ensures forall j :: b <= j < hi ==> IsSpace(s[j])
    ensures b == lo || !IsSpace(s[b - 1])
    decreases hi
  {
    if hi > lo && IsSpace(s[hi - 1]) then TrailStart(s, lo, hi - 1) else hi
  }

  /**
    Python's `str.strip()`: the slice of `s` left once the whitespace at both
    ends is dropped; it neither starts nor ends with whitespace.
  */
  function Strip(s: string): (r: string)
    ensures |r| <= |s|
    ensures r == [] || (!IsSpace(r[0]) && !IsSpace(r[|r| - 1]))
  {
    var a := SpaceEnd(s, 0);
    var b := TrailStart(s, a, |s|);
    assert a < b ==> s[a..b][0] == s[a] && s[a..b][b - a - 1] == s[b - 1];
    s[a..b]
  }

  /** Strip removes whitespace only, and only at the two ends. */
  lemma StripSlice(s: string) returns (a: nat, b: nat)
    ensures a <= b <= |s| && Strip(s) == s[a..b]
    ensures forall j :: 0 <= j < a ==> IsSpace(s[j])
    ensures forall j :: b <= j < |s| ==> IsSpace(s[j])
  {
    a := RunEnd(s, 0, IsSpace);
    b := TrailStart(s, a, |s|);
  }

  /** Text that neither starts nor ends with whitespace is left alone by Strip. */
  lemma StripUnpadded(s: string)
    requires s != [] && !IsSpace(s[0]) && !IsSpace(s[|s| - 1])
    ensures Strip(s) == s
  {
    var a, b := StripSlice(s);
  }

  /** Python's `s.split('\n')`: always at least one piece, and no piece holds a line break. */
  function SplitLines(s: string): (lines: seq<string>)
    ensures |lines| >= 1
    ensures forall k :: 0 <= k < |lines| ==> '\n' !in lines[k]
    decreases |s|
  {
    var k := LineEnd(s, 0);
    LineSlice(s, 0, k);
    if k == |s| then [s] else [s[..k]] + SplitLines(s[k + 1..])
  }

  /** `'\n'.join(lines)`, the inverse of SplitLines. */
  function JoinLines(lines: seq<string>): string
    requires |lines| >= 1
  {
    if |lines| == 1 then lines[0] else lines[0] + "\n" + JoinLines(lines[1..])
  }

  /** Splitting loses nothing: joining the pieces gives the page text back. */
  lemma {:induction false} JoinSplitLines(s: string)
    ensures JoinLines(SplitLines(s)) == s
    decreases |s|
  {
    var k := LineEnd(s, 0);
    if k < |s| {
      JoinSplitLines(s[k + 1..]);
      assert s == s[..k] + "\n" + s[k + 1..];
    }
  }

  /** And splitting a join of break-free lines gives exactly those lines. */
  lemma {:induction false} SplitJoinLines(lines: seq<string>)
    requires |lines| >= 1
    requires forall k :: 0 <= k < |lines| ==> '\n' !in lines[k]
    ensures SplitLines(JoinLines(lines)) == lines
    decreases |lines|
  {
    var s := JoinLines(lines);
    var k := LineEnd(s, 0);
    if |lines| > 1 {
      var n := |lines[0]|;
      assert s == lines[0] + "\n" + JoinLines(lines[1..]);
      assert !NotNewline(s[n]);
      forall j | 0 <= j < n ensures s[j] != '\n' {
        assert s[j] == lines[0][j];
      }
      assert k == n;
      assert s[..k] == lines[0];
      assert s[k + 1..] == JoinLines(lines[1..]);
      SplitJoinLines(lines[1..]);
    }
  }
}
