/**
  What each pattern of app.py reads from a line written in the reports' format:
  for every such line the search finds the fields it was written for.  The
  patterns themselves only promise the shape of what they capture; these
  lemmas give the other direction.
*/
module Layouts {
  import opened Wrappers
  import opened Text
  import opened Patterns

  /**
    The first `CNPJ/CEI:` label of a page (in any case) at `k`, followed by a
    run `k + 9..e` of `[\d./-]` that the next character does not extend,
    gives that run.
  */
  lemma CnpjCeiIs(s: string, k: nat, e: nat)
    requires k + 9 < e <= |s|
    requires forall i :: 0 <= i < k ==> !LitAtFold(s, i, "CNPJ/CEI:")
    requires LitAtFold(s, k, "CNPJ/CEI:")
    requires forall j {:trigger IsIdChar(s[j])} :: k + 9 <= j < e ==> IsIdChar(s[j])
    requires e == |s| || !IsIdChar(s[e])
    ensures CnpjCei(s) == Some(s[k + 9..e])
  {
    RunEndAt(s, k + 9, e, IsIdChar);
    assert CnpjCeiAt(s, k) == Some(s[k + 9..e]);
    var p := (i: nat) => i <= |s| && CnpjCeiAt(s, i).Some?;
    FindFirst(0, |s|, p, k);
  }

  /** `\s*` from `a` stops at `b` when whitespace runs from `a` to `b` and not further. */
  lemma SpaceRun(s: string, a: nat, b: nat)
    requires a <= b <= |s| && forall j {:trigger IsSpace(s[j])} :: a <= j < b ==> IsSpace(s[j])
    requires b == |s| || !IsSpace(s[b])
    ensures SpaceEnd(s, a) == b
  {
    RunEndAt(s, a, b, IsSpace);
  }

  /** `[\d.,]+` from `a` stops at `b` when amount characters run from `a` to `b` and not further. */
  lemma AmountRun(s: string, a: nat, b: nat)
    requires a <= b <= |s| && forall j {:trigger IsAmountChar(s[j])} :: a <= j < b ==> IsAmountChar(s[j])
    requires b == |s| || !IsAmountChar(s[b])
    ensures AmountEnd(s, a) == b
  {
    RunEndAt(s, a, b, IsAmountChar);
  }

  lemma DigitRun(s: string, a: nat, b: nat)
    requires a <= b <= |s| && forall j {:trigger IsDigit(s[j])} :: a <= j < b ==> IsDigit(s[j])
    requires b == |s| || !IsDigit(s[b])
    ensures DigitEnd(s, a) == b
  {
    RunEndAt(s, a, b, IsDigit);
  }

  /** No item line for `tag` starts inside `s[..k]` when the label does not occur there and no digit run crosses `k`. */
  lemma NoItemBefore(s: string, k: nat, tag: string)
    requires k <= |s| && (k == 0 || !IsDigit(s[k - 1]))
    requires forall i :: 0 <= i < k ==> !LitAt(s, i, tag)
    ensures forall i :: 0 <= i < k ==> ItemColumnAt(s, i, tag).None?
  {
    forall i | 0 <= i < k ensures ItemColumnAt(s, i, tag).None? {
      var d := DigitEnd(s, i);
      assert d < k || d == i;
    }
  }

  /** `\d+LABEL\s+([\d.,]+)` at `k`, written as positions: code `k..e`, label, whitespace, column `b..f`. */
  lemma ItemColumnIs(s: string, k: nat, e: nat, tag: string, b: nat, f: nat)
    requires k < e && e + |tag| < b < f <= |s|
    requires forall j {:trigger IsDigit(s[j])} :: k <= j < e ==> IsDigit(s[j])
    requires LitAt(s, e, tag) && tag != [] && !IsDigit(tag[0])
    requires forall j {:trigger IsSpace(s[j])} :: e + |tag| <= j < b ==> IsSpace(s[j])
    requires forall j {:trigger IsAmountChar(s[j])} :: b <= j < f ==> IsAmountChar(s[j])
    requires f == |s| || !IsAmountChar(s[f])
    ensures ItemColumnAt(s, k, tag) == Some((s[b..f], f))
  {
    assert s[e] == tag[0] by { LitAtChars(s, e, tag); }
    DigitRun(s, k, e);
    assert IsAmountChar(s[b]);
    SpaceRun(s, e + |tag|, b);
    AmountRun(s, b, f);
  }

  /**
    An item line, written as positions: the first line for the label starts
    with the digit code `k..e` (no digit just before it), then the label,
    whitespace, the reference column `b1..e1`, whitespace and the amount
    column `b2..e2`. The search gives that amount column.
  */
  lemma ItemAmountIs(s: string, k: nat, e: nat, tag: string, b1: nat, e1: nat, b2: nat, e2: nat)
    requires k < e && e + |tag| < b1 < e1 < b2 < e2 <= |s|
    requires k == 0 || !IsDigit(s[k - 1])
    requires forall i :: 0 <= i < k ==> !LitAt(s, i, tag)
    requires forall j {:trigger IsDigit(s[j])} :: k <= j < e ==> IsDigit(s[j])
    requires LitAt(s, e, tag) && tag != [] && !IsDigit(tag[0])
    requires forall j {:trigger IsSpace(s[j])} :: e + |tag| <= j < b1 ==> IsSpace(s[j])
    requires forall j {:trigger IsAmountChar(s[j])} :: b1 <= j < e1 ==> IsAmountChar(s[j])
    requires forall j {:trigger IsSpace(s[j])} :: e1 <= j < b2 ==> IsSpace(s[j])
    requires forall j {:trigger IsAmountChar(s[j])} :: b2 <= j < e2 ==> IsAmountChar(s[j])
    requires e2 == |s| || !IsAmountChar(s[e2])
    ensures ItemAmount(s, tag) == Some(s[b2..e2])
  {
    assert IsSpace(s[e1]);
    ItemColumnIs(s, k, e, tag, b1, e1);
    assert IsAmountChar(s[b2]);
    SpaceRun(s, e1, b2);
    AmountRun(s, b2, e2);
    assert ItemSecondAt(s, k, tag) == Some(s[b2..e2]);
    NoItemBefore(s, k, tag);
    var p := (i: nat) => i <= |s| && ItemSecondAt(s, i, tag).Some?;
    FindFirst(0, |s|, p, k);
  }

  /**
    A one-column item line, written as positions: the first line for the
    label starts with the code `k..e`, then the label, whitespace and the
    column `b..f`. The search gives that column.
  */
  lemma ItemSingleIs(s: string, k: nat, e: nat, tag: string, b: nat, f: nat)
    requires k < e && e + |tag| < b < f <= |s|
    requires k == 0 || !IsDigit(s[k - 1])
    requires forall i :: 0 <= i < k ==> !LitAt(s, i, tag)
    requires forall j {:trigger IsDigit(s[j])} :: k <= j < e ==> IsDigit(s[j])
    requires LitAt(s, e, tag) && tag != [] && !IsDigit(tag[0])
    requires forall j {:trigger IsSpace(s[j])} :: e + |tag| <= j < b ==> IsSpace(s[j])
    requires forall j {:trigger IsAmountChar(s[j])} :: b <= j < f ==> IsAmountChar(s[j])
    requires f == |s| || !IsAmountChar(s[f])
    ensures ItemSingle(s, tag) == Some(s[b..f])
  {
    ItemColumnIs(s, k, e, tag, b, f);
    NoItemBefore(s, k, tag);
    var p := (i: nat) => i <= |s| && ItemColumnAt(s, i, tag).Some?;
    FindFirst(0, |s|, p, k);
  }

  /**
    Any item line for `tag`, anywhere in `s`: a digit code `k..e`, the label,
    whitespace up to `b` and an amount character there. The item is present.
  */
  lemma ItemPresentIs(s: string, k: nat, e: nat, tag: string, b: nat)
    requires k < e && e + |tag| < b < |s|
    requires forall j {:trigger IsDigit(s[j])} :: k <= j < e ==> IsDigit(s[j])
    requires LitAt(s, e, tag) && tag != [] && !IsDigit(tag[0])
    requires forall j {:trigger IsSpace(s[j])} :: e + |tag| <= j < b ==> IsSpace(s[j])
    requires IsAmountChar(s[b])
    ensures ItemPresent(s, tag)
  {
    var f := AmountEnd(s, b);
    ItemColumnIs(s, k, e, tag, b, f);
  }

  /**
    A label at `k`, its first occurrence, then whitespace up to `b` and the
    amount `b..f`: the search gives that amount.
  */
  lemma LabelAmountIs(s: string, k: nat, tag: string, b: nat, f: nat)
    requires k + |tag| <= b < f <= |s|
    requires forall i :: 0 <= i < k ==> !LitAt(s, i, tag)
    requires LitAt(s, k, tag)
    requires forall j {:trigger IsSpace(s[j])} :: k + |tag| <= j < b ==> IsSpace(s[j])
    requires forall j {:trigger IsAmountChar(s[j])} :: b <= j < f ==> IsAmountChar(s[j])
    requires f == |s| || !IsAmountChar(s[f])
    ensures LabelAmount(s, tag) == Some(s[b..f])
  {
    AmountAfterIs(s, k + |tag|, b, f);
    LabelFirst(s, k, tag, s[b..f]);
  }

  /** The amount after a label at `k` with no occurrence of the label before it is the one the search gives. */
  lemma LabelFirst(s: string, k: nat, tag: string, v: string)
    requires k + |tag| <= |s| && LitAt(s, k, tag) && AmountAfter(s, k + |tag|) == Some(v)
    requires forall i :: 0 <= i < k ==> !LitAt(s, i, tag)
    ensures LabelAmount(s, tag) == Some(v)
  {
    forall i | 0 <= i < k ensures LabelAmountAt(s, i, tag).None? { }
    var p := (i: nat) => i <= |s| && LabelAmountAt(s, i, tag).Some?;
    FindFirst(0, |s|, p, k);
  }

  /** `\s*([\d.,]+)` from `a`, written as positions: whitespace up to `b`, the amount `b..f`. */
  lemma AmountAfterIs(s: string, a: nat, b: nat, f: nat)
    requires a <= b < f <= |s|
    requires forall j {:trigger IsSpace(s[j])} :: a <= j < b ==> IsSpace(s[j])
    requires forall j {:trigger IsAmountChar(s[j])} :: b <= j < f ==> IsAmountChar(s[j])
    requires f == |s| || !IsAmountChar(s[f])
    ensures AmountAfter(s, a) == Some(s[b..f])
  {
    assert IsAmountChar(s[b]);
    SpaceRun(s, a, b);
    AmountRun(s, b, f);
  }

  /**
    A contract line, written as positions: the first `Admissão:` of the line
    at `k`, whitespace up to the date at `x0`, then text on the same line in
    which no `Salário:` starts, up to the `Salário:` at `m`, whitespace up to
    `b` and the amount `b..f`.
  */
  predicate ContractText(s: string, k: nat, x0: nat, m: nat, b: nat, f: nat) {
    && k + 9 <= x0 && x0 + 10 <= m && m + 8 <= b < f <= |s|
    && (forall i :: 0 <= i < k ==> !LitAt(s, i, "Admissão:"))
    && LitAt(s, k, "Admissão:") && (forall j {:trigger IsSpace(s[j])} :: k + 9 <= j < x0 ==> IsSpace(s[j]))
    && ShapeAt(s, x0, DateShape)
    && (forall j {:trigger NotNewline(s[j])} :: x0 + 10 <= j < m ==> NotNewline(s[j]))
    && (forall j :: x0 + 10 <= j < m ==> !LitAt(s, j, "Salário:"))
    && LitAt(s, m, "Salário:") && (forall j {:trigger IsSpace(s[j])} :: m + 8 <= j < b ==> IsSpace(s[j]))
    && (forall j {:trigger IsAmountChar(s[j])} :: b <= j < f ==> IsAmountChar(s[j]))
    && (f == |s| || !IsAmountChar(s[f]))
  }

  /** Such a line gives that date and that salary. */
  lemma ContractIs(s: string, k: nat, x0: nat, m: nat, b: nat, f: nat)
    requires ContractText(s, k, x0, m, b, f)
    ensures ContractLine(s) == Some(ContractFields(s[x0..x0 + 10], s[b..f]))
  {
    ContractAtPos(s, k, x0, m, b, f);
    ContractFirst(s, k, ContractFields(s[x0..x0 + 10], s[b..f]));
  }

  lemma ContractAtPos(s: string, k: nat, x0: nat, m: nat, b: nat, f: nat)
    requires k + 9 <= x0 && x0 + 10 <= m && m + 8 <= b < f <= |s|
    requires LitAt(s, k, "Admissão:") && forall j {:trigger IsSpace(s[j])} :: k + 9 <= j < x0 ==> IsSpace(s[j])
    requires ShapeAt(s, x0, DateShape)
    requires forall j {:trigger NotNewline(s[j])} :: x0 + 10 <= j < m ==> NotNewline(s[j])
    requires forall j :: x0 + 10 <= j < m ==> !LitAt(s, j, "Salário:")
    requires LitAt(s, m, "Salário:") && forall j {:trigger IsSpace(s[j])} :: m + 8 <= j < b ==> IsSpace(s[j])
    requires forall j {:trigger IsAmountChar(s[j])} :: b <= j < f ==> IsAmountChar(s[j])
    requires f == |s| || !IsAmountChar(s[f])
    ensures ContractAt(s, k) == Some(ContractFields(s[x0..x0 + 10], s[b..f]))
  {
    assert DateShape[0] == '9' && IsDigit(s[x0]);
    SpaceRun(s, k + 9, x0);
    SalaryAfterIs(s, x0 + 10, m, b, f);
    ContractFromIs(s, x0, s[b..f]);
    ContractAtIs(s, k, x0, ContractFields(s[x0..x0 + 10], s[b..f]));
  }

  /** `Admissão:\s*` at `k`, then the rest of the contract pattern from `x0`. */
  lemma ContractAtIs(s: string, k: nat, x0: nat, r: ContractFields)
    requires k + 9 <= x0 <= |s| && LitAt(s, k, "Admissão:") && SpaceEnd(s, k + 9) == x0
    requires ContractFrom(s, x0) == Some(r)
    ensures ContractAt(s, k) == Some(r)
  {
  }

  /** A contract at `k` with no `Admissão:` before it is the one the line gives. */
  lemma ContractFirst(s: string, k: nat, r: ContractFields)
    requires k <= |s| && ContractAt(s, k) == Some(r)
    requires forall i :: 0 <= i < k ==> !LitAt(s, i, "Admissão:")
    ensures ContractLine(s) == Some(r)
  {
    forall i | 0 <= i < k ensures ContractAt(s, i).None? { }
    var q := (i: nat) => i <= |s| && ContractAt(s, i).Some?;
    FindFirst(0, |s|, q, k);
  }

  /** `.*?Salário:\s*([,.\d]+)` from `x`, written as positions: the label at `m`, the salary `b..f`. */
  lemma SalaryAfterIs(s: string, x: nat, m: nat, b: nat, f: nat)
    requires x <= m && m + 8 <= b < f <= |s|
    requires forall j {:trigger NotNewline(s[j])} :: x <= j < m ==> NotNewline(s[j])
    requires forall j :: x <= j < m ==> !LitAt(s, j, "Salário:")
    requires LitAt(s, m, "Salário:") && forall j {:trigger IsSpace(s[j])} :: m + 8 <= j < b ==> IsSpace(s[j])
    requires forall j {:trigger IsAmountChar(s[j])} :: b <= j < f ==> IsAmountChar(s[j])
    requires f == |s| || !IsAmountChar(s[f])
    ensures SalaryAfter(s, x) == Some(s[b..f])
  {
    AmountAfterIs(s, m + 8, b, f);
    SalaryFind(s, x, m);
  }

  lemma SalaryFind(s: string, x: nat, m: nat)
    requires x <= m && m + 8 <= |s| && LitAt(s, m, "Salário:") && AmountAfter(s, m + 8).Some?
    requires forall i {:trigger NotNewline(s[i])} :: x <= i < m ==> NotNewline(s[i])
    requires forall i :: x <= i < m ==> !LitAt(s, i, "Salário:")
    ensures SalaryAfter(s, x) == AmountAfter(s, m + 8)
  {
    LineReaches(s, x, m);
    var p := (n: nat) => n <= |s| && LitAt(s, n, "Salário:") && AmountAfter(s, n + 8).Some?;
    FindFirst(x, LineEnd(s, x), p, m);
  }

  lemma ContractFromIs(s: string, a: nat, v: string)
    requires a + 10 <= |s| && ShapeAt(s, a, DateShape) && SalaryAfter(s, a + 10) == Some(v)
    ensures ContractFrom(s, a) == Some(ContractFields(s[a..a + 10], v))
  {
  }

  /** Whitespace fills `s[a..b]`. */
  predicate Blank(s: string, a: nat, b: nat) {
    a <= b <= |s| && forall j {:trigger IsSpace(s[j])} :: a <= j < b ==> IsSpace(s[j])
  }

  /** `s[a..b]` is a run of amount characters that the next character does not extend. */
  predicate AmountSpan(s: string, a: nat, b: nat) {
    && a < b <= |s|
    && (forall j {:trigger IsAmountChar(s[j])} :: a <= j < b ==> IsAmountChar(s[j]))
    && (b == |s| || !IsAmountChar(s[b]))
  }

  /** `\s*` from `a` stops at `b`, the first character that is not whitespace. */
  lemma BlankRun(s: string, a: nat, b: nat)
    requires Blank(s, a, b) && (b == |s| || !IsSpace(s[b]))
    ensures SpaceEnd(s, a) == b
  {
    RunEndAt(s, a, b, IsSpace);
  }

  /** `[\d.,]+` from `a` is the run `a..b`. */
  lemma SpanRun(s: string, a: nat, b: nat)
    requires AmountSpan(s, a, b)
    ensures AmountEnd(s, a) == b
  {
    RunEndAt(s, a, b, IsAmountChar);
  }

  lemma ColonAt(s: string, i: nat, c: nat, n: nat)
    requires i <= |s| && SpaceEnd(s, i) == c && c < |s| && s[c] == ':' && n == c + 1
    ensures ColonAfter(s, i) == Some(n)
  {
    assert s[c..c + 1] == [':'];
  }

  /** `\s*:` at `a`, written as positions: whitespace up to the colon at `c`, text again from `n`. */
  lemma ColonAfterIs(s: string, a: nat, c: nat, n: nat)
    requires Blank(s, a, c) && c < |s| && s[c] == ':' && n == c + 1
    ensures ColonAfter(s, a) == Some(n)
  {
    BlankRun(s, a, c);
    ColonAt(s, a, c, n);
  }

  lemma LabelAt(s: string, i: nat, tag: string, a: nat, t: nat, n: nat)
    requires i <= |s| && SpaceEnd(s, i) == a && LitAt(s, a, tag) && t == a + |tag|
    requires ColonAfter(s, t) == Some(n)
    ensures LabelColon(s, i, tag) == Some(n)
  {
  }

  /**
    `\s*LABEL\s*:` at `i`, written as positions: whitespace, the label at `a`,
    whitespace from `t` just after it, the colon at `c`, text again from `n`.
  */
  lemma LabelColonIs(s: string, i: nat, tag: string, a: nat, t: nat, c: nat, n: nat)
    requires tag != [] && !IsSpace(tag[0]) && t == a + |tag| && n == c + 1
    requires Blank(s, i, a) && LitAt(s, a, tag) && Blank(s, t, c) && c < |s| && s[c] == ':'
    ensures LabelColon(s, i, tag) == Some(n)
  {
    assert s[a] == tag[0] by { LitAtChars(s, a, tag); }
    BlankRun(s, i, a);
    ColonAfterIs(s, t, c, n);
    LabelAt(s, i, tag, a, t, n);
  }

  /** `\s*([\d.,]+)` from `a`: whitespace up to `b`, then the amount `b..f`. */
  lemma AmountAfterSpan(s: string, a: nat, b: nat, f: nat)
    requires Blank(s, a, b) && AmountSpan(s, b, f)
    ensures SpaceEnd(s, a) == b && AmountEnd(s, b) == f
  {
    assert IsAmountChar(s[b]);
    BlankRun(s, a, b);
    SpanRun(s, b, f);
  }

  lemma AmountAfterAt(s: string, f: nat, g: nat, h: nat)
    requires f <= |s| && SpaceEnd(s, f) == g && AmountEnd(s, g) == h && g < h
    ensures AmountAfter(s, f) == Some(s[g..h])
  {
  }

  /** `\s*` up to a date at `b`. */
  lemma DateAfter(s: string, a: nat, b: nat)
    requires Blank(s, a, b) && ShapeAt(s, b, DateShape)
    ensures SpaceEnd(s, a) == b
  {
    assert DateShape[0] == '9' && IsDigit(s[b]);
    BlankRun(s, a, b);
  }

  /**
    A union-fee values line, written as positions: the first `Admissão` of the
    text at `k`, whitespace, a colon at `c0`, whitespace, the date at `b`;
    whitespace, `Salário` at `a1`, whitespace, a colon at `c1`, whitespace, the
    salary `d..e`; whitespace, `Valor` at `a2`, whitespace, a colon at `c2`,
    whitespace and the fee `g..h`. The line gives that date, salary and fee.
  */
  lemma FeeIs(s: string, k: nat, c0: nat, b: nat, a1: nat, c1: nat, d: nat, e: nat,
              a2: nat, c2: nat, g: nat, h: nat)
    requires forall i :: 0 <= i < k ==> !LitAt(s, i, "Admissão")
    requires LitAt(s, k, "Admissão") && Blank(s, k + 8, c0) && c0 < |s| && s[c0] == ':'
    requires Blank(s, c0 + 1, b) && ShapeAt(s, b, DateShape)
    requires Blank(s, b + 10, a1) && LitAt(s, a1, "Salário") && Blank(s, a1 + 7, c1) && c1 < |s| && s[c1] == ':'
    requires Blank(s, c1 + 1, d) && AmountSpan(s, d, e)
    requires Blank(s, e, a2) && LitAt(s, a2, "Valor") && Blank(s, a2 + 5, c2) && c2 < |s| && s[c2] == ':'
    requires Blank(s, c2 + 1, g) && AmountSpan(s, g, h)
    ensures FeeLine(s) == Some(FeeFields(s[b..b + 10], s[d..e], s[g..h]))
  {
    var y, a, x, t1, c, t2, f := k + 8, c0 + 1, b + 10, a1 + 7, c1 + 1, a2 + 5, c2 + 1;
    BlankRun(s, y, c0);
    DateAfter(s, a, b);
    LabelRun(s, x, "Salário", a1);
    BlankRun(s, t1, c1);
    AmountAfterSpan(s, c, d, e);
    LabelRun(s, e, "Valor", a2);
    BlankRun(s, t2, c2);
    AmountAfterSpan(s, f, g, h);
    FeeEnds(s, k, y, c0, a, b, x, a1, t1, c1, c, d, e, a2, t2, c2, f, g, h);
  }

  /** `\s*` up to a label that starts with a character other than whitespace. */
  lemma LabelRun(s: string, i: nat, tag: string, a: nat)
    requires tag != [] && !IsSpace(tag[0]) && Blank(s, i, a) && LitAt(s, a, tag)
    ensures SpaceEnd(s, i) == a
  {
    assert s[a] == tag[0] by { LitAtChars(s, a, tag); }
    BlankRun(s, i, a);
  }

  /** The same line, given by where each whitespace run and amount of the pattern ends. */
  lemma FeeEnds(s: string, k: nat, y: nat, c0: nat, a: nat, b: nat, x: nat, a1: nat, t1: nat, c1: nat, c: nat,
                d: nat, e: nat, a2: nat, t2: nat, c2: nat, f: nat, g: nat, h: nat)
    requires forall i :: 0 <= i < k ==> !LitAt(s, i, "Admissão")
    requires y == k + 8 && a == c0 + 1 && x == b + 10 && t1 == a1 + 7 && c == c1 + 1 && t2 == a2 + 5 && f == c2 + 1
    requires LitAt(s, k, "Admissão") && y <= |s| && SpaceEnd(s, y) == c0 && c0 < |s| && s[c0] == ':'
    requires SpaceEnd(s, a) == b && ShapeAt(s, b, DateShape)
    requires SpaceEnd(s, x) == a1 && LitAt(s, a1, "Salário") && SpaceEnd(s, t1) == c1 && c1 < |s| && s[c1] == ':'
    requires SpaceEnd(s, c) == d && AmountEnd(s, d) == e && d < e
    requires SpaceEnd(s, e) == a2 && LitAt(s, a2, "Valor") && SpaceEnd(s, t2) == c2 && c2 < |s| && s[c2] == ':'
    requires SpaceEnd(s, f) == g && AmountEnd(s, g) == h && g < h
    ensures FeeLine(s) == Some(FeeFields(s[b..b + 10], s[d..e], s[g..h]))
  {
    ColonAt(s, y, c0, a);
    ColonAt(s, t1, c1, c);
    LabelAt(s, x, "Salário", a1, t1, c);
    ColonAt(s, t2, c2, f);
    LabelAt(s, e, "Valor", a2, t2, f);
    AmountAfterAt(s, f, g, h);
    var fee := s[g..h];
    FeeOf(s, k, y, a, b, x, c, d, e, f, fee);
  }

  /** The same line, given by what each step of the pattern reads. */
  lemma FeeOf(s: string, k: nat, y: nat, a: nat, b: nat, x: nat, c: nat, d: nat, e: nat, f: nat, fee: string)
    requires forall i :: 0 <= i < k ==> !LitAt(s, i, "Admissão")
    requires y == k + 8 && x == b + 10
    requires y <= |s| && LitAt(s, k, "Admissão") && ColonAfter(s, y) == Some(a)
    requires SpaceEnd(s, a) == b && ShapeAt(s, b, DateShape)
    requires LabelColon(s, x, "Salário") == Some(c)
    requires SpaceEnd(s, c) == d && AmountEnd(s, d) == e && d < e
    requires LabelColon(s, e, "Valor") == Some(f) && AmountAfter(s, f) == Some(fee)
    ensures FeeLine(s) == Some(FeeFields(s[b..b + 10], s[d..e], fee))
  {
    FeeTailOf(s, x, c, d, e, f, fee);
    var t := (s[d..e], fee);
    FeeFromOf(s, a, b, x, t);
    var r := FeeFields(s[b..b + 10], s[d..e], fee);
    FeeAtOf(s, k, y, a, r);
    FeeFirst(s, k, r);
  }

  lemma FeeTailOf(s: string, x: nat, c: nat, d: nat, e: nat, f: nat, fee: string)
    requires x <= |s| && LabelColon(s, x, "Salário") == Some(c)
    requires SpaceEnd(s, c) == d && AmountEnd(s, d) == e && d < e
    requires LabelColon(s, e, "Valor") == Some(f) && AmountAfter(s, f) == Some(fee)
    ensures FeeTail(s, x) == Some((s[d..e], fee))
  {
  }

  lemma FeeFromOf(s: string, a: nat, b: nat, x: nat, t: (string, string))
    requires a <= |s| && SpaceEnd(s, a) == b && ShapeAt(s, b, DateShape) && x == b + 10 && FeeTail(s, x) == Some(t)
    ensures FeeFrom(s, a) == Some(FeeFields(s[b..b + 10], t.0, t.1))
  {
  }

  lemma FeeAtOf(s: string, k: nat, y: nat, a: nat, r: FeeFields)
    requires y == k + 8 && y <= |s| && LitAt(s, k, "Admissão") && ColonAfter(s, y) == Some(a) && FeeFrom(s, a) == Some(r)
    ensures FeeAt(s, k) == Some(r)
  {
  }

  /** The values at `k` with no `Admissão` before it are the ones the line gives. */
  lemma FeeFirst(s: string, k: nat, r: FeeFields)
    requires k <= |s| && FeeAt(s, k) == Some(r)
    requires forall i :: 0 <= i < k ==> !LitAt(s, i, "Admissão")
    ensures FeeLine(s) == Some(r)
  {
    forall i | 0 <= i < k ensures FeeAt(s, i).None? { }
    var q := (i: nat) => i <= |s| && FeeAt(s, i).Some?;
    FindFirst(0, |s|, q, k);
  }

  /** `.` reaches `l` from `x` when no line break lies in between. */
  lemma LineReaches(s: string, x: nat, l: nat)
    requires x <= l <= |s| && forall j {:trigger NotNewline(s[j])} :: x <= j < l ==> NotNewline(s[j])
    ensures l <= LineEnd(s, x)
  {
  }

  /**
    A payroll totals line, written as positions: the first `Proventos:` of the
    text at `k`, whitespace and the earnings `b0..e0`; then, on the same line
    with no `Descontos:` in between, `Descontos:` at `m`, whitespace and the
    deductions `b1..e1`; then, on the same line with no `Liquido:` in between,
    `Liquido:` at `l`, whitespace and the net pay `b2..e2`. The line gives
    those three amounts.
  */
  lemma TotalsIs(s: string, k: nat, b0: nat, e0: nat, m: nat, b1: nat, e1: nat, l: nat, b2: nat, e2: nat)
    requires forall i :: 0 <= i < k ==> !LitAt(s, i, "Proventos:")
    requires LitAt(s, k, "Proventos:") && Blank(s, k + 10, b0) && AmountSpan(s, b0, e0)
    requires e0 <= m <= |s| && forall j {:trigger NotNewline(s[j])} :: e0 <= j < m ==> NotNewline(s[j])
    requires forall j :: e0 <= j < m ==> !LitAt(s, j, "Descontos:")
    requires LitAt(s, m, "Descontos:") && Blank(s, m + 10, b1) && AmountSpan(s, b1, e1)
    requires e1 <= l <= |s| && forall j {:trigger NotNewline(s[j])} :: e1 <= j < l ==> NotNewline(s[j])
    requires forall j :: e1 <= j < l ==> !LitAt(s, j, "Liquido:")
    requires LitAt(s, l, "Liquido:") && Blank(s, l + 8, b2) && AmountSpan(s, b2, e2)
    ensures TotalsLine(s) == Some(TotalsFields(s[b0..e0], s[b1..e1], s[b2..e2]))
  {
    var p0, p1, p2 := k + 10, m + 10, l + 8;
    AmountAfterSpan(s, p0, b0, e0);
    AmountAfterSpan(s, p1, b1, e1);
    AmountAfterSpan(s, p2, b2, e2);
    LineReaches(s, e0, m);
    LineReaches(s, e1, l);
    TotalsEnds(s, k, p0, b0, e0, m, p1, b1, e1, l, p2, b2, e2);
  }

  /** The same line, given by where each whitespace run and amount of the pattern ends. */
  lemma TotalsEnds(s: string, k: nat, p0: nat, b0: nat, e0: nat, m: nat, p1: nat, b1: nat, e1: nat,
                   l: nat, p2: nat, b2: nat, e2: nat)
    requires forall i :: 0 <= i < k ==> !LitAt(s, i, "Proventos:")
    requires p0 == k + 10 && p1 == m + 10 && p2 == l + 8
    requires LitAt(s, k, "Proventos:") && SpaceEnd(s, p0) == b0 && AmountEnd(s, b0) == e0 && b0 < e0
    requires e0 <= m <= LineEnd(s, e0) && forall j :: e0 <= j < m ==> !LitAt(s, j, "Descontos:")
    requires LitAt(s, m, "Descontos:") && SpaceEnd(s, p1) == b1 && AmountEnd(s, b1) == e1 && b1 < e1
    requires e1 <= l <= LineEnd(s, e1) && forall j :: e1 <= j < l ==> !LitAt(s, j, "Liquido:")
    requires LitAt(s, l, "Liquido:") && SpaceEnd(s, p2) == b2 && AmountEnd(s, b2) == e2 && b2 < e2
    ensures TotalsLine(s) == Some(TotalsFields(s[b0..e0], s[b1..e1], s[b2..e2]))
  {
    var r0, r1, r2 := (s[b0..e0], e0), (s[b1..e1], e1), (s[b2..e2], e2);
    LabelledRunAt(s, k, "Proventos:", p0, b0, e0);
    LabelledRunAt(s, m, "Descontos:", p1, b1, e1);
    LabelledRunAt(s, l, "Liquido:", p2, b2, e2);
    LazyLabelledAt(s, e1, "Liquido:", l, r2);
    DeductionsFind(s, e0, m);
    var r := TotalsFields(s[b0..e0], s[b1..e1], s[b2..e2]);
    TotalsAtOf(s, k, e0, m, e1, r);
    TotalsFirst(s, k, r);
  }

  lemma LabelledRunAt(s: string, n: nat, tag: string, t: nat, b: nat, e: nat)
    requires LitAt(s, n, tag) && t == n + |tag| && SpaceEnd(s, t) == b && AmountEnd(s, b) == e && b < e
    ensures LabelledRun(s, n, tag) == Some((s[b..e], e))
  {
  }

  /** `.*?LABEL\s*([\d.,]+)` from `x` finds the first occurrence `l` of the label on the line. */
  lemma LazyLabelledAt(s: string, x: nat, tag: string, l: nat, r: (string, nat))
    requires x <= l <= |s| && l <= LineEnd(s, x) && LabelledRun(s, l, tag) == Some(r)
    requires forall j :: x <= j < l ==> !LitAt(s, j, tag)
    ensures LazyLabelled(s, x, tag) == Some(r)
  {
    forall j | x <= j < l ensures LabelledRun(s, j, tag).None? { }
    var p := (n: nat) => n <= |s| && LabelledRun(s, n, tag).Some?;
    FindFirst(x, LineEnd(s, x), p, l);
  }

  /** The lazy search after the earnings stops at the first `Descontos:` that is followed by the rest. */
  lemma DeductionsFind(s: string, x: nat, m: nat)
    requires x <= m <= |s| && m <= LineEnd(s, x) && LabelledRun(s, m, "Descontos:").Some?
    requires LazyLabelled(s, LabelledRun(s, m, "Descontos:").value.1, "Liquido:").Some?
    requires forall j :: x <= j < m ==> !LitAt(s, j, "Descontos:")
    ensures Find(x, LineEnd(s, x), (n: nat) => n <= |s| && LabelledRun(s, n, "Descontos:").Some?
                         && LazyLabelled(s, LabelledRun(s, n, "Descontos:").value.1, "Liquido:").Some?) == Some(m)
  {
    forall j | x <= j < m ensures LabelledRun(s, j, "Descontos:").None? { }
    var later := (n: nat) => n <= |s| && LabelledRun(s, n, "Descontos:").Some?
                         && LazyLabelled(s, LabelledRun(s, n, "Descontos:").value.1, "Liquido:").Some?;
    FindFirst(x, LineEnd(s, x), later, m);
  }

  lemma TotalsAtOf(s: string, k: nat, e0: nat, m: nat, e1: nat, r: TotalsFields)
    requires k <= |s| && LabelledRun(s, k, "Proventos:") == Some((r.earnings, e0))
    requires Find(e0, LineEnd(s, e0), (n: nat) => n <= |s| && LabelledRun(s, n, "Descontos:").Some?
                         && LazyLabelled(s, LabelledRun(s, n, "Descontos:").value.1, "Liquido:").Some?) == Some(m)
    requires LabelledRun(s, m, "Descontos:") == Some((r.deductions, e1))
    requires LazyLabelled(s, e1, "Liquido:").Some? && LazyLabelled(s, e1, "Liquido:").value.0 == r.net
    ensures TotalsAt(s, k) == Some(r)
  {
  }

  /** The totals at `k` with no `Proventos:` before it are the ones the search gives. */
  lemma TotalsFirst(s: string, k: nat, r: TotalsFields)
    requires k <= |s| && TotalsAt(s, k) == Some(r)
    requires forall i :: 0 <= i < k ==> !LitAt(s, i, "Proventos:")
    ensures TotalsLine(s) == Some(r)
  {
    forall i | 0 <= i < k ensures TotalsAt(s, i).None? { }
    var q := (i: nat) => i <= |s| && TotalsAt(s, i).Some?;
    FindFirst(0, |s|, q, k);
  }

  /** A name `s[w..n]` as the report lists it: it neither starts nor ends with whitespace and stays on its line. */
  predicate NameText(s: string, w: nat, n: nat) {
    && w < n <= |s| && !IsSpace(s[w]) && !IsSpace(s[n - 1])
    && forall j {:trigger NotNewline(s[j])} :: w <= j < n ==> NotNewline(s[j])
  }

  /** No whitespace inside `s[w..n]` is followed by a digit, `.` or `,`: no word of the name can pass for a number. */
  predicate NoNumberWord(s: string, w: nat, n: nat) {
    n <= |s| && forall j {:trigger IsSpace(s[j])} :: w <= j < n - 1 && IsSpace(s[j]) ==> !IsAmountChar(s[j + 1])
  }

  /** Whitespace inside a name ends inside the name. */
  lemma InsideName(s: string, w: nat, n: nat, q: nat)
    requires NameText(s, w, n) && w < q < n
    ensures var a := SpaceEnd(s, q); a > q ==> a < n && IsSpace(s[a - 1])
  {
    var a := SpaceEnd(s, q);
    assert a > q ==> IsSpace(s[a - 1]);
  }

  lemma CpfStart(s: string, a: nat)
    requires ShapeAt(s, a, CpfShape)
    ensures IsDigit(s[a])
  {
    assert CpfShape[0] == '9';
  }

  /**
    A net-pay line, written as positions: whitespace to `a`, the code `a..e`,
    whitespace to `w`, the name `w..n`, whitespace to the CPF at `c0`,
    whitespace to the date at `b`, whitespace to the amount `c..f`. The line
    gives those fields.
  */
  lemma NetPayIs(s: string, a: nat, e: nat, w: nat, n: nat, c0: nat, b: nat, c: nat, f: nat)
    requires Blank(s, 0, a) && a < e <= |s| && forall j {:trigger IsDigit(s[j])} :: a <= j < e ==> IsDigit(s[j])
    requires Blank(s, e, w) && e < w && NameText(s, w, n) && NoNumberWord(s, w, n)
    requires Blank(s, n, c0) && n < c0 && ShapeAt(s, c0, CpfShape)
    requires Blank(s, c0 + 14, b) && c0 + 14 < b && ShapeAt(s, b, DateShape)
    requires Blank(s, b + 10, c) && b + 10 < c && AmountSpan(s, c, f)
    ensures NetPayLine(s) == Some(NetPayFields(s[a..e], s[w..n], s[c0..c0 + 14], s[b..b + 10], s[c..f]))
  {
    assert IsDigit(s[a]) && IsSpace(s[e]);
    BlankRun(s, 0, a);
    DigitRun(s, a, e);
    BlankRun(s, e, w);
    var t := (s[c0..c0 + 14], s[b..b + 10], s[c..f]);
    NetPayTailIs(s, n, c0, b, c, f);
    NetPayNameEndIs(s, w, n, t);
    NetPayNameAtOf(s, e, w, n);
    NetPayLineOf(s, a, e, w, n, t);
  }

  lemma NetPayTailIs(s: string, n: nat, c0: nat, b: nat, c: nat, f: nat)
    requires Blank(s, n, c0) && n < c0 && ShapeAt(s, c0, CpfShape)
    requires Blank(s, c0 + 14, b) && c0 + 14 < b && ShapeAt(s, b, DateShape)
    requires Blank(s, b + 10, c) && b + 10 < c && AmountSpan(s, c, f)
    ensures NetPayTail(s, n) == Some((s[c0..c0 + 14], s[b..b + 10], s[c..f]))
  {
    var x, y := c0 + 14, b + 10;
    CpfStart(s, c0);
    BlankRun(s, n, c0);
    DateAfter(s, x, b);
    AmountAfterSpan(s, y, c, f);
    NetPayTailAt(s, n, c0, x, b, y, c, f);
  }

  lemma NetPayTailAt(s: string, n: nat, c0: nat, x: nat, b: nat, y: nat, c: nat, f: nat)
    requires n <= |s| && SpaceEnd(s, n) == c0 && n < c0 && ShapeAt(s, c0, CpfShape)
    requires x == c0 + 14 && SpaceEnd(s, x) == b && x < b && ShapeAt(s, b, DateShape)
    requires y == b + 10 && SpaceEnd(s, y) == c && y < c && AmountEnd(s, c) == f && c < f
    ensures NetPayTail(s, n) == Some((s[c0..c0 + 14], s[b..b + 10], s[c..f]))
  {
  }

  /** No tail matches inside a name, so the lazy name stops at `n`. */
  lemma NetPayNameEndIs(s: string, w: nat, n: nat, t: (string, string, string))
    requires NameText(s, w, n) && NoNumberWord(s, w, n) && NetPayTail(s, n) == Some(t)
    ensures NetPayNameEnd(s, w) == Some(n)
  {
    LineReaches(s, w, n);
    NetPayNoTail(s, w, n);
    NetPayNameEndOf(s, w, n, t);
  }

  /** No net-pay tail starts inside a name. */
  lemma NetPayNoTail(s: string, w: nat, n: nat)
    requires NameText(s, w, n) && NoNumberWord(s, w, n)
    ensures forall q :: w + 1 <= q < n ==> NetPayTail(s, q).None?
  {
    forall q | w + 1 <= q < n ensures NetPayTail(s, q).None? {
      NetPayTailNone(s, w, n, q);
    }
  }

  lemma NetPayNameEndOf(s: string, w: nat, n: nat, t: (string, string, string))
    requires w < n <= |s| && n <= LineEnd(s, w) && NetPayTail(s, n) == Some(t)
    requires forall q :: w + 1 <= q < n ==> NetPayTail(s, q).None?
    ensures NetPayNameEnd(s, w) == Some(n)
  {
    var p := (q: nat) => q <= |s| && NetPayTail(s, q).Some?;
    FindFirst(w + 1, LineEnd(s, w), p, n);
  }

  lemma NetPayTailNone(s: string, w: nat, n: nat, q: nat)
    requires NameText(s, w, n) && NoNumberWord(s, w, n) && w < q < n
    ensures NetPayTail(s, q).None?
  {
    InsideName(s, w, n, q);
    var a := SpaceEnd(s, q);
    assert a > q ==> !ShapeAt(s, a, CpfShape) by {
      if a > q && ShapeAt(s, a, CpfShape) { CpfStart(s, a); }
    }
  }

  /** The greedy whitespace before the name gives nothing back when the name fits where it stops. */
  lemma NetPayNameAtOf(s: string, e: nat, w: nat, n: nat)
    requires e < w <= |s| && SpaceEnd(s, e) == w && NetPayNameEnd(s, w) == Some(n)
    ensures NetPayNameAt(s, e) == Some((s[w..n], n))
  {
    var p := (k: nat) => k <= |s| && NetPayNameEnd(s, k).Some?;
    assert p(w);
    assert FindLast(e + 1, w, p) == Some(w);
  }

  lemma NetPayLineOf(s: string, a: nat, e: nat, w: nat, n: nat, t: (string, string, string))
    requires SpaceEnd(s, 0) == a && a < e && DigitEnd(s, a) == e && e <= |s|
    requires w <= n <= |s| && NetPayNameAt(s, e) == Some((s[w..n], n)) && NetPayTail(s, n) == Some(t)
    ensures NetPayLine(s) == Some(NetPayFields(s[a..e], s[w..n], t.0, t.1, t.2))
  {
  }

  /**
    An extras line, written as positions: whitespace to `a`, the code `a..e`,
    whitespace to `w`, the name `w..n`, whitespace to the reference `c0..d0`,
    whitespace to the amount `c1..d1`, and the end of the line. The line gives
    those fields.
  */
  lemma ExtraIs(s: string, a: nat, e: nat, w: nat, n: nat, c0: nat, d0: nat, c1: nat, d1: nat)
    requires Blank(s, 0, a) && a < e <= |s| && forall j {:trigger IsDigit(s[j])} :: a <= j < e ==> IsDigit(s[j])
    requires Blank(s, e, w) && e < w && NameText(s, w, n) && NoNumberWord(s, w, n)
    requires Blank(s, n, c0) && n < c0 && AmountSpan(s, c0, d0)
    requires Blank(s, d0, c1) && d0 < c1 && AmountSpan(s, c1, d1) && AtDollar(s, d1)
    ensures ExtraLine(s) == Some(ExtraFields(s[a..e], s[w..n], s[c0..d0], s[c1..d1]))
  {
    assert IsDigit(s[a]) && IsSpace(s[e]);
    BlankRun(s, 0, a);
    DigitRun(s, a, e);
    BlankRun(s, e, w);
    var t := (s[c0..d0], s[c1..d1]);
    ExtraTailIs(s, n, c0, d0, c1, d1);
    ExtraNameEndIs(s, w, n, t);
    ExtraNameAtOf(s, e, w, n);
    ExtraLineOf(s, a, e, w, n, t);
  }

  lemma ExtraTailIs(s: string, n: nat, c0: nat, d0: nat, c1: nat, d1: nat)
    requires Blank(s, n, c0) && n < c0 && AmountSpan(s, c0, d0)
    requires Blank(s, d0, c1) && d0 < c1 && AmountSpan(s, c1, d1) && AtDollar(s, d1)
    ensures ExtraTail(s, n) == Some((s[c0..d0], s[c1..d1]))
  {
    AmountAfterSpan(s, n, c0, d0);
    AmountAfterSpan(s, d0, c1, d1);
  }

  /** No tail matches inside a name, so the lazy name stops at `n`. */
  lemma ExtraNameEndIs(s: string, w: nat, n: nat, t: (string, string))
    requires NameText(s, w, n) && NoNumberWord(s, w, n) && ExtraTail(s, n) == Some(t)
    ensures ExtraNameEnd(s, w) == Some(n)
  {
    LineReaches(s, w, n);
    ExtraNoTail(s, w, n);
    ExtraNameEndOf(s, w, n, t);
  }

  /** No extra-pay tail starts inside a name. */
  lemma ExtraNoTail(s: string, w: nat, n: nat)
    requires NameText(s, w, n) && NoNumberWord(s, w, n)
    ensures forall q :: w + 1 <= q < n ==> ExtraTail(s, q).None?
  {
    forall q | w + 1 <= q < n ensures ExtraTail(s, q).None? {
      ExtraTailNone(s, w, n, q);
    }
  }

  lemma ExtraNameEndOf(s: string, w: nat, n: nat, t: (string, string))
    requires w < n <= |s| && n <= LineEnd(s, w) && ExtraTail(s, n) == Some(t)
    requires forall q :: w + 1 <= q < n ==> ExtraTail(s, q).None?
    ensures ExtraNameEnd(s, w) == Some(n)
  {
    var p := (q: nat) => q <= |s| && ExtraTail(s, q).Some?;
    FindFirst(w + 1, LineEnd(s, w), p, n);
  }

  lemma ExtraTailNone(s: string, w: nat, n: nat, q: nat)
    requires NameText(s, w, n) && NoNumberWord(s, w, n) && w < q < n
    ensures ExtraTail(s, q).None?
  {
    InsideName(s, w, n, q);
  }

  lemma ExtraNameAtOf(s: string, e: nat, w: nat, n: nat)
    requires e < w <= |s| && SpaceEnd(s, e) == w && ExtraNameEnd(s, w) == Some(n)
    ensures ExtraNameAt(s, e) == Some((s[w..n], n))
  {
    var p := (k: nat) => k <= |s| && ExtraNameEnd(s, k).Some?;
    assert p(w);
    assert FindLast(e + 1, w, p) == Some(w);
  }

  lemma ExtraLineOf(s: string, a: nat, e: nat, w: nat, n: nat, t: (string, string))
    requires SpaceEnd(s, 0) == a && a < e && DigitEnd(s, a) == e && e <= |s|
    requires w <= n <= |s| && ExtraNameAt(s, e) == Some((s[w..n], n)) && ExtraTail(s, n) == Some(t)
    ensures ExtraLine(s) == Some(ExtraFields(s[a..e], s[w..n], t.0, t.1))
  {
  }

  /** `.*` from `z` stops at `r`, the end of the line. */
  lemma LineStops(s: string, z: nat, r: nat)
    requires z <= r <= |s| && forall j {:trigger NotNewline(s[j])} :: z <= j < r ==> NotNewline(s[j])
    requires r == |s| || s[r] == '\n'
    ensures LineEnd(s, z) == r
  {
    RunEndAt(s, z, r, NotNewline);
  }

  /**
    A union-fee name line, written as positions: the first `Código:` of the
    text at `k`, whitespace, the code `a..e`, whitespace, `Nome` at `b`,
    whitespace and `:` at `c0`, whitespace, the name `w..n` (in which `Função`
    does not occur), whitespace, `Função` at `x`, whitespace and `:` at `y`,
    whitespace, and the role `z..r` up to the end of the line. The line gives
    the code, the name and the role.
  */
  lemma MemberIs(s: string, k: nat, a: nat, e: nat, b: nat, c0: nat, w: nat, n: nat, x: nat, y: nat,
                 z: nat, r: nat)
    requires forall i :: 0 <= i < k ==> !LitAt(s, i, "Código:")
    requires LitAt(s, k, "Código:") && Blank(s, k + 7, a)
    requires a < e <= |s| && forall j {:trigger IsDigit(s[j])} :: a <= j < e ==> IsDigit(s[j])
    requires Blank(s, e, b) && e < b && LitAt(s, b, "Nome") && Blank(s, b + 4, c0) && c0 < |s| && s[c0] == ':'
    requires Blank(s, c0 + 1, w) && NameText(s, w, n) && forall j :: w < j < n ==> !LitAt(s, j, "Função")
    requires Blank(s, n, x) && n < x && LitAt(s, x, "Função") && Blank(s, x + 6, y) && y < |s| && s[y] == ':'
    requires Blank(s, y + 1, z) && (z == |s| || !IsSpace(s[z]))
    requires z <= r <= |s| && (forall j {:trigger NotNewline(s[j])} :: z <= j < r ==> NotNewline(s[j]))
    requires r == |s| || s[r] == '\n'
    ensures MemberLine(s) == Some(MemberFields(s[a..e], s[w..n], s[z..r]))
  {
    var i, u, c, v := k + 7, b + 4, c0 + 1, y + 1;
    assert IsDigit(s[a]) && IsSpace(s[e]);
    BlankRun(s, i, a);
    DigitRun(s, a, e);
    LabelRun(s, e, "Nome", b);
    BlankRun(s, u, c0);
    BlankRun(s, c, w);
    MemberTailIs(s, n, x, y, z, r);
    MemberNameEndIs(s, w, n, s[z..r]);
    MemberEnds(s, k, i, a, e, b, u, c0, c, w, n, s[z..r]);
  }

  lemma MemberTailIs(s: string, n: nat, x: nat, y: nat, z: nat, r: nat)
    requires Blank(s, n, x) && n < x && LitAt(s, x, "Função") && Blank(s, x + 6, y) && y < |s| && s[y] == ':'
    requires Blank(s, y + 1, z) && (z == |s| || !IsSpace(s[z]))
    requires z <= r <= |s| && (forall j {:trigger NotNewline(s[j])} :: z <= j < r ==> NotNewline(s[j]))
    requires r == |s| || s[r] == '\n'
    ensures MemberTail(s, n) == Some(s[z..r])
  {
    var t, v := x + 6, y + 1;
    LabelRun(s, n, "Função", x);
    BlankRun(s, t, y);
    BlankRun(s, v, z);
    LineStops(s, z, r);
    assert s[y..y + 1] == ":";
    MemberTailAt(s, n, x, t, y, v, z, r);
  }

  lemma MemberTailAt(s: string, n: nat, x: nat, t: nat, y: nat, v: nat, z: nat, r: nat)
    requires n <= |s| && SpaceEnd(s, n) == x && n < x && LitAt(s, x, "Função")
    requires t == x + 6 && SpaceEnd(s, t) == y && LitAt(s, y, ":")
    requires v == y + 1 && SpaceEnd(s, v) == z && LineEnd(s, z) == r
    ensures MemberTail(s, n) == Some(s[z..r])
  {
  }

  /** No tail matches inside a name, so the lazy name stops at `n`. */
  lemma MemberNameEndIs(s: string, w: nat, n: nat, role: string)
    requires NameText(s, w, n) && (forall j :: w < j < n ==> !LitAt(s, j, "Função"))
    requires MemberTail(s, n) == Some(role)
    ensures MemberNameEnd(s, w) == Some(n)
  {
    LineReaches(s, w, n);
    forall q | w + 1 <= q < n ensures MemberTail(s, q).None? {
      InsideName(s, w, n, q);
    }
    var p := (q: nat) => q <= |s| && MemberTail(s, q).Some?;
    FindFirst(w + 1, LineEnd(s, w), p, n);
  }

  lemma MemberEnds(s: string, k: nat, i: nat, a: nat, e: nat, b: nat, u: nat, c0: nat, c: nat, w: nat, n: nat,
                   role: string)
    requires forall i :: 0 <= i < k ==> !LitAt(s, i, "Código:")
    requires i == k + 7 && u == b + 4 && c == c0 + 1
    requires LitAt(s, k, "Código:") && SpaceEnd(s, i) == a && a < e && DigitEnd(s, a) == e
    requires SpaceEnd(s, e) == b && e < b && LitAt(s, b, "Nome") && SpaceEnd(s, u) == c0 && c0 < |s| && s[c0] == ':'
    requires SpaceEnd(s, c) == w && w <= n <= |s| && MemberNameEnd(s, w) == Some(n) && MemberTail(s, n) == Some(role)
    ensures MemberLine(s) == Some(MemberFields(s[a..e], s[w..n], role))
  {
    ColonAt(s, u, c0, c);
    LabelAt(s, e, "Nome", b, u, c);
    MemberNameAtOf(s, c, w, n, role);
    var t := (s[w..n], role);
    MemberNameFromOf(s, e, c, t);
    var m := MemberFields(s[a..e], s[w..n], role);
    MemberAtOf(s, k, i, a, e, c, t);
    MemberFirst(s, k, m);
  }

  /** The greedy whitespace before the name gives nothing back when the name fits where it stops. */
  lemma MemberNameAtOf(s: string, c: nat, w: nat, n: nat, role: string)
    requires c <= w <= n <= |s| && SpaceEnd(s, c) == w && MemberNameEnd(s, w) == Some(n)
    requires MemberTail(s, n) == Some(role)
    ensures MemberNameAt(s, c) == Some((s[w..n], role))
  {
    var p := (k: nat) => k <= |s| && MemberNameEnd(s, k).Some?;
    assert p(w);
    assert FindLast(c, w, p) == Some(w);
  }

  lemma MemberAtOf(s: string, k: nat, i: nat, a: nat, e: nat, c: nat, t: (string, string))
    requires i == k + 7
    requires LitAt(s, k, "Código:") && SpaceEnd(s, i) == a && a < e && DigitEnd(s, a) == e
    requires MemberNameFrom(s, e) == Some(t)
    ensures MemberAt(s, k) == Some(MemberFields(s[a..e], t.0, t.1))
  {
  }

  lemma MemberNameFromOf(s: string, e: nat, c: nat, t: (string, string))
    requires e <= |s| && SpaceEnd(s, e) > e && LabelColon(s, e, "Nome") == Some(c)
    requires MemberNameAt(s, c) == Some(t)
    ensures MemberNameFrom(s, e) == Some(t)
  {
  }

  /** The name line at `k` with no `Código:` before it is the one the search gives. */
  lemma MemberFirst(s: string, k: nat, m: MemberFields)
    requires k <= |s| && MemberAt(s, k) == Some(m)
    requires forall i :: 0 <= i < k ==> !LitAt(s, i, "Código:")
    ensures MemberLine(s) == Some(m)
  {
    forall i | 0 <= i < k ensures MemberAt(s, i).None? { }
    var q := (i: nat) => i <= |s| && MemberAt(s, i).Some?;
    FindFirst(0, |s|, q, k);
  }

  /**
    A payroll block-opening line, written as positions: the first `Cód:` of
    the text at `k`, whitespace, the code `a..e`; then, on the same line with
    no `Nome:` in between, `Nome:` at `m`, whitespace, the name `w..n` (in
    which `Função:` does not occur), whitespace, `Função:` at `x`, and the
    role up to `t`, the first `Dep` of the line or the end of the text. The
    line gives the code, the name and the role.
  */
  lemma OpenIs(s: string, k: nat, a: nat, e: nat, m: nat, w: nat, n: nat, x: nat, t: nat)
    requires forall i :: 0 <= i < k ==> !LitAt(s, i, "Cód:")
    requires LitAt(s, k, "Cód:") && Blank(s, k + 4, a)
    requires a < e <= |s| && (forall j {:trigger IsDigit(s[j])} :: a <= j < e ==> IsDigit(s[j]))
    requires e == |s| || !IsDigit(s[e])
    requires e <= m <= |s| && (forall j {:trigger NotNewline(s[j])} :: e <= j < m ==> NotNewline(s[j]))
    requires forall j :: e <= j < m ==> !LitAt(s, j, "Nome:")
    requires LitAt(s, m, "Nome:") && Blank(s, m + 5, w)
    requires NameText(s, w, n) && forall j :: w < j < n ==> !LitAt(s, j, "Função:")
    requires Blank(s, n, x) && n < x && LitAt(s, x, "Função:")
    requires x + 7 <= t <= |s| && (forall j {:trigger NotNewline(s[j])} :: x + 7 <= j < t ==> NotNewline(s[j]))
    requires (forall j :: x + 7 <= j < t ==> !LitAt(s, j, "Dep")) && (LitAt(s, t, "Dep") || AtDollar(s, t))
    ensures OpenLine(s) == Some(OpenFields(s[a..e], s[w..n], s[x + 7..t]))
  {
    var i, v, y := k + 4, m + 5, x + 7;
    assert IsDigit(s[a]);
    BlankRun(s, i, a);
    DigitRun(s, a, e);
    LineReaches(s, e, m);
    BlankRun(s, v, w);
    LabelRun(s, n, "Função:", x);
    RoleEndIs(s, y, t);
    OpenNameEndIs(s, w, n, x, y, t);
    OpenEnds(s, k, i, a, e, m, v, w, n, x, y, t);
  }

  /** `(.*?)(?:Dep|$)` from `y` stops at the first `Dep` of the line, or at the end of the text. */
  lemma RoleEndIs(s: string, y: nat, t: nat)
    requires y <= t <= |s| && (forall j {:trigger NotNewline(s[j])} :: y <= j < t ==> NotNewline(s[j]))
    requires (forall j :: y <= j < t ==> !LitAt(s, j, "Dep")) && (LitAt(s, t, "Dep") || AtDollar(s, t))
    ensures RoleEnd(s, y) == Some(t)
  {
    LineReaches(s, y, t);
    forall j | y <= j < t ensures !AtDollar(s, j) {
      assert NotNewline(s[j]);
    }
    var p := (j: nat) => j <= |s| && (LitAt(s, j, "Dep") || AtDollar(s, j));
    FindFirst(y, LineEnd(s, y), p, t);
  }

  lemma OpenTailAt(s: string, n: nat, x: nat, y: nat, t: nat)
    requires n <= |s| && SpaceEnd(s, n) == x && n < x && LitAt(s, x, "Função:")
    requires y == x + 7 && RoleEnd(s, y) == Some(t)
    ensures OpenTail(s, n) == Some(s[x + 7..t])
  {
  }

  /** No tail matches inside a name, so the lazy name stops at `n`. */
  lemma OpenNameEndIs(s: string, w: nat, n: nat, x: nat, y: nat, t: nat)
    requires NameText(s, w, n) && (forall j :: w < j < n ==> !LitAt(s, j, "Função:"))
    requires SpaceEnd(s, n) == x && n < x && LitAt(s, x, "Função:") && y == x + 7 && RoleEnd(s, y) == Some(t)
    ensures OpenNameEnd(s, w) == Some(n)
  {
    OpenTailAt(s, n, x, y, t);
    LineReaches(s, w, n);
    forall q | w <= q < n ensures OpenTail(s, q).None? {
      if q > w { InsideName(s, w, n, q); }
    }
    var p := (q: nat) => q <= |s| && OpenTail(s, q).Some?;
    FindFirst(w, LineEnd(s, w), p, n);
  }

  lemma OpenEnds(s: string, k: nat, i: nat, a: nat, e: nat, m: nat, v: nat, w: nat, n: nat, x: nat, y: nat,
                 t: nat)
    requires forall i :: 0 <= i < k ==> !LitAt(s, i, "Cód:")
    requires i == k + 4 && v == m + 5
    requires LitAt(s, k, "Cód:") && SpaceEnd(s, i) == a && a < e && DigitEnd(s, a) == e
    requires e <= m <= |s| && m <= LineEnd(s, e) && forall j :: e <= j < m ==> !LitAt(s, j, "Nome:")
    requires LitAt(s, m, "Nome:") && SpaceEnd(s, v) == w && w <= n <= |s| && OpenNameEnd(s, w) == Some(n)
    requires SpaceEnd(s, n) == x && n < x && LitAt(s, x, "Função:") && y == x + 7 && RoleEnd(s, y) == Some(t)
    ensures OpenLine(s) == Some(OpenFields(s[a..e], s[w..n], s[x + 7..t]))
  {
    OpenTailAt(s, n, x, y, t);
    var role := s[x + 7..t];
    OpenNameAtOf(s, m, v, w, n, role);
    OpenNameFind(s, e, m);
    var r := OpenFields(s[a..e], s[w..n], role);
    OpenAtOf(s, k, i, a, e, m, (s[w..n], role));
    OpenFirst(s, k, r);
  }

  /** The greedy whitespace after `Nome:` gives nothing back when the name fits where it stops. */
  lemma OpenNameAtOf(s: string, m: nat, v: nat, w: nat, n: nat, role: string)
    requires v == m + 5 && LitAt(s, m, "Nome:") && SpaceEnd(s, v) == w && w <= n <= |s|
    requires OpenNameEnd(s, w) == Some(n) && OpenTail(s, n) == Some(role)
    ensures OpenNameAt(s, m) == Some((s[w..n], role))
  {
    var p := (k: nat) => k <= |s| && OpenNameEnd(s, k).Some?;
    assert p(w);
    assert FindLast(v, w, p) == Some(w);
  }

  /** The lazy `.*?` after the code stops at the first `Nome:` of the line. */
  lemma OpenNameFind(s: string, e: nat, m: nat)
    requires e <= m <= |s| && m <= LineEnd(s, e) && OpenNameAt(s, m).Some?
    requires forall j :: e <= j < m ==> !LitAt(s, j, "Nome:")
    ensures Find(e, LineEnd(s, e), (n: nat) => n <= |s| && OpenNameAt(s, n).Some?) == Some(m)
  {
    forall j | e <= j < m ensures OpenNameAt(s, j).None? { }
    var p := (n: nat) => n <= |s| && OpenNameAt(s, n).Some?;
    FindFirst(e, LineEnd(s, e), p, m);
  }

  lemma OpenAtOf(s: string, k: nat, i: nat, a: nat, e: nat, m: nat, t: (string, string))
    requires i == k + 4 && LitAt(s, k, "Cód:") && SpaceEnd(s, i) == a && a < e && DigitEnd(s, a) == e
    requires Find(e, LineEnd(s, e), (n: nat) => n <= |s| && OpenNameAt(s, n).Some?) == Some(m)
    requires m <= |s| && OpenNameAt(s, m) == Some(t)
    ensures OpenAt(s, k) == Some(OpenFields(s[a..e], t.0, t.1))
  {
  }

  /** The opening line at `k` with no `Cód:` before it is the one the search gives. */
  lemma OpenFirst(s: string, k: nat, r: OpenFields)
    requires k <= |s| && OpenAt(s, k) == Some(r)
    requires forall i :: 0 <= i < k ==> !LitAt(s, i, "Cód:")
    ensures OpenLine(s) == Some(r)
  {
    forall i | 0 <= i < k ensures OpenAt(s, i).None? { }
    var q := (i: nat) => i <= |s| && OpenAt(s, i).Some?;
    FindFirst(0, |s|, q, k);
  }

  /** Case folding leaves whitespace alone. */
  lemma FoldSpace(c: char)
    requires IsSpace(c)
    ensures FoldCase(c) == c
  {
  }

  /** A label compared without case starts with a letter, so never with whitespace. */
  lemma FoldLabel(s: string, x: nat, tag: string)
    requires LitAtFold(s, x, tag) && tag != [] && 'a' <= FoldCase(tag[0]) <= 'z'
    ensures !IsSpace(s[x]) && FoldCase(s[x]) == FoldCase(tag[0])
  {
    assert FoldCase(s[x + 0]) == FoldCase(tag[0]);
    if IsSpace(s[x]) { FoldSpace(s[x]); }
  }

  /**
    A page header, written as positions: whitespace `p..r` that starts the
    text or follows a non-blank character, with no `Apelido:` before `p` and
    no `Razão Social:` before `r` (in any case); `Razão Social:` at `r`,
    whitespace, and the name `w..n`, in which neither `CNPJ/CEI:` nor `Pág:`
    occurs; the name is followed by the end of the text, a line break, or
    whitespace and one of those two labels at `x`. The header gives that name.
  */
  lemma CompanyIs(s: string, p: nat, r: nat, w: nat, n: nat, x: nat)
    requires forall i :: 0 <= i < p ==> !LitAtFold(s, i, "Apelido:")
    requires forall j :: 0 <= j < r ==> !LitAtFold(s, j, "Razão Social:")
    requires Blank(s, p, r) && (p == 0 || !IsSpace(s[p - 1]))
    requires LitAtFold(s, r, "Razão Social:") && Blank(s, r + 13, w)
    requires NameText(s, w, n)
    requires forall j :: w < j < n ==> !LitAtFold(s, j, "CNPJ/CEI:") && !LitAtFold(s, j, "Pág:")
    requires || n == |s| || s[n] == '\n'
             || (Blank(s, n, x) && n < x && (LitAtFold(s, x, "CNPJ/CEI:") || LitAtFold(s, x, "Pág:")))
    ensures CompanyName(s) == Some(s[w..n])
  {
    var v := r + 13;
    FoldLabel(s, r, "Razão Social:");
    BlankRun(s, p, r);
    BlankRun(s, v, w);
    CompanyNameEnd(s, w, n, x);
    CompanyAtOf(s, r, v, w, n);
    var c := s[w..n];
    CompanyFromOf(s, p, r, c);
    CompanyFirst(s, p, r, c);
  }

  /** The lazy name stops at `n`, the first stop after it starts. */
  lemma CompanyNameEnd(s: string, w: nat, n: nat, x: nat)
    requires NameText(s, w, n)
    requires forall j :: w < j < n ==> !LitAtFold(s, j, "CNPJ/CEI:") && !LitAtFold(s, j, "Pág:")
    requires || n == |s| || s[n] == '\n'
             || (Blank(s, n, x) && n < x && (LitAtFold(s, x, "CNPJ/CEI:") || LitAtFold(s, x, "Pág:")))
    ensures Find(w, LineEnd(s, w), (q: nat) => q <= |s| && NameStop(s, q)) == Some(n)
  {
    LineReaches(s, w, n);
    forall j | w <= j < n ensures !NameStop(s, j) {
      assert NotNewline(s[j]);
      if j > w { InsideName(s, w, n, j); }
    }
    if n < |s| && s[n] != '\n' {
      if LitAtFold(s, x, "CNPJ/CEI:") { FoldLabel(s, x, "CNPJ/CEI:"); } else { FoldLabel(s, x, "Pág:"); }
      BlankRun(s, n, x);
    }
    var p := (q: nat) => q <= |s| && NameStop(s, q);
    FindFirst(w, LineEnd(s, w), p, n);
  }

  lemma CompanyAtOf(s: string, r: nat, v: nat, w: nat, n: nat)
    requires v == r + 13 && LitAtFold(s, r, "Razão Social:") && SpaceEnd(s, v) == w && w <= n <= |s|
    requires Find(w, LineEnd(s, w), (q: nat) => q <= |s| && NameStop(s, q)) == Some(n)
    ensures CompanyAt(s, r) == Some(s[w..n])
  {
  }

  /** Whitespace before `Razão Social:` is the `\s*` alternative. */
  lemma CompanyFromOf(s: string, p: nat, r: nat, c: string)
    requires p <= |s| && SpaceEnd(s, p) == r && r < |s| && !IsSpace(s[r]) && CompanyAt(s, r) == Some(c)
    requires FoldCase(s[r]) == FoldCase('R')
    ensures CompanyFrom(s, p) == Some(c)
  {
    if LitAtFold(s, p, "Apelido:") {
      FoldLabel(s, p, "Apelido:");
    }
  }

  /** No start before `p` gives a name, so the search finds the one at `p`. */
  lemma CompanyFirst(s: string, p: nat, r: nat, c: string)
    requires p <= r <= |s| && SpaceEnd(s, p) == r && (p == 0 || !IsSpace(s[p - 1]))
    requires forall i :: 0 <= i < p ==> !LitAtFold(s, i, "Apelido:")
    requires forall j :: 0 <= j < r ==> !LitAtFold(s, j, "Razão Social:")
    requires CompanyFrom(s, p) == Some(c)
    ensures CompanyName(s) == Some(c)
  {
    forall i | 0 <= i < p ensures CompanyFrom(s, i).None? { }
    var q := (i: nat) => i <= |s| && CompanyFrom(s, i).Some?;
    FindFirst(0, |s|, q, p);
  }
}
