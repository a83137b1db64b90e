/**
  processar_extras (app.py:113-149): every matching line of an extras report
  is one amount for an employee; the amounts are then grouped by (CNPJ,
  Código, Funcionário) and summed, in pandas' sorted key order.
*/
module Extras {
  import opened Wrappers
  import opened Text
  import Values
  import Patterns
  import opened Batch

  datatype ExtraRow = ExtraRow(cnpj: string, code: string, employee: string, amount: real)

  predicate IsZero(c: char) {
    c == '0'
  }

  /** A code as `str(int(...))` prints it: digits, and no leading zero unless the code is "0". */
  predicate IsCanonical(c: string) {
    c != [] && AllDigits(c) && (c[0] == '0' ==> c == "0")
  }

  /** `str(int(cod))` on a run of ASCII digits: the leading zeros go, all zeros give "0". */
  function Canonical(ds: string): (r: string)
    requires Patterns.IsCode(ds)
    ensures IsCanonical(r)
    ensures Values.DigitsValue(r) == Values.DigitsValue(ds)
  {
    var k := RunEnd(ds, 0, IsZero);
    assert forall j :: 0 <= j < k ==> IsZero(ds[j]);
    assert ds == ds[..k] + ds[k..];
    LeadingZeros(ds[..k], ds[k..]);
    if k == |ds| then
      LeadingZeros(ds, []);
      assert ds + [] == ds;
      "0"
    else ds[k..]
  }

  /** Zeros in front of a number do not change it. */
  lemma {:induction false} LeadingZeros(zs: string, t: string)
    requires forall j :: 0 <= j < |zs| ==> zs[j] == '0'
    requires AllDigits(t)
    ensures AllDigits(zs + t) && Values.DigitsValue(zs + t) == Values.DigitsValue(t)
    decreases |t|, |zs|
  {
    var s := zs + t;
    if t == [] {
      assert s == zs;
      if zs != [] {
        LeadingZeros(zs[..|zs| - 1], []);
        assert zs[..|zs| - 1] + [] == zs[..|zs| - 1];
      }
    } else {
      assert s[..|s| - 1] == zs + t[..|t| - 1];
      LeadingZeros(zs, t[..|t| - 1]);
    }
  }

  /**
    One line: no match is skipped; a match whose amount `limpar_valor` rejects
    raises; any other match is an amount for the page's CNPJ and the line's
    code and employee.
  */
  function ExtraRule(page: Page, i: nat): (st: Step<ExtraRow>)
    ensures i >= |page.lines| ==> st.Skip?
    ensures i < |page.lines| ==>
              (st.Skip? <==> Patterns.ExtraLine(page.lines[i]).None?)
    ensures i < |page.lines| && Patterns.ExtraLine(page.lines[i]).Some? ==>
              var f := Patterns.ExtraLine(page.lines[i]).value;
              (st.Abort? <==> Values.ToNumber(Values.Text(f.amount)).Failure?)
    ensures st.Emit? ==>
              var f := Patterns.ExtraLine(page.lines[i]).value;
              && st.row.cnpj == page.cnpj && IsCanonical(st.row.code)
              && Values.DigitsValue(st.row.code) == Values.DigitsValue(f.code)
              && st.row.employee == Strip(f.name)
              && Values.ToNumber(Values.Text(f.amount)) == Success(st.row.amount)
  {
    if i >= |page.lines| then Skip
    else match Patterns.ExtraLine(page.lines[i])
      case None => Skip
      case Some(f) =>
        match Values.ToNumber(Values.Text(f.amount))
        case Failure(_) => Abort
        case Success(v) => Emit(ExtraRow(page.cnpj, Canonical(f.code), Strip(f.name), v))
  }

  // ---------------------------------------------------------------------------
  // groupby(['Empresa CNPJ', 'Código', 'Funcionário'])['Valor (R$)'].sum()

  datatype GroupKey = GroupKey(cnpj: string, code: string, employee: string)

  /** One row of the grouped table: a key and the sum of its amounts. */
  datatype ExtraTotal = ExtraTotal(key: GroupKey, total: real)

  function KeyOf(r: ExtraRow): GroupKey {
    GroupKey(r.cnpj, r.code, r.employee)
  }

  /** Python's `<` on str: code points compared from the left, a proper prefix first. */
  predicate StrLess(a: string, b: string)
    decreases |a|
  {
    if a == [] then b != []
    else if b == [] then false
    else if a[0] != b[0] then a[0] < b[0]
    else StrLess(a[1..], b[1..])
  }

  lemma {:induction false} StrLessIrreflexive(a: string)
    ensures !StrLess(a, a)
    decreases |a|
  {
    if a != [] {
      StrLessIrreflexive(a[1..]);
    }
  }

  lemma {:induction false} StrLessTransitive(a: string, b: string, c: string)
    requires StrLess(a, b) && StrLess(b, c)
    ensures StrLess(a, c)
    decreases |a|
  {
    if a != [] && a[0] == b[0] && b[0] == c[0] {
      StrLessTransitive(a[1..], b[1..], c[1..]);
    }
  }

  lemma {:induction false} StrLessTotal(a: string, b: string)
    requires a != b
    ensures StrLess(a, b) || StrLess(b, a)
    decreases |a|
  {
    if a != [] && b != [] && a[0] == b[0] {
      assert a == [a[0]] + a[1..] && b == [b[0]] + b[1..];
      StrLessTotal(a[1..], b[1..]);
    }
  }

  /** The order of the grouped rows: by CNPJ, then code, then employee. */
  predicate KeyLess(a: GroupKey, b: GroupKey) {
    || StrLess(a.cnpj, b.cnpj)
    || (a.cnpj == b.cnpj && StrLess(a.code, b.code))
    || (a.cnpj == b.cnpj && a.code == b.code && StrLess(a.employee, b.employee))
  }

  lemma KeyLessIrreflexive(a: GroupKey)
    ensures !KeyLess(a, a)
  {
    StrLessIrreflexive(a.cnpj);
    StrLessIrreflexive(a.code);
    StrLessIrreflexive(a.employee);
  }

  lemma KeyLessTransitive(a: GroupKey, b: GroupKey, c: GroupKey)
    requires KeyLess(a, b) && KeyLess(b, c)
    ensures KeyLess(a, c)
  {
    if StrLess(a.cnpj, b.cnpj) && StrLess(b.cnpj, c.cnpj) {
      StrLessTransitive(a.cnpj, b.cnpj, c.cnpj);
    } else if a.cnpj == b.cnpj && b.cnpj == c.cnpj {
      if StrLess(a.code, b.code) && StrLess(b.code, c.code) {
        StrLessTransitive(a.code, b.code, c.code);
      } else if a.code == b.code && b.code == c.code {
        StrLessTransitive(a.employee, b.employee, c.employee);
      }
    }
  }

  lemma KeyLessTotal(a: GroupKey, b: GroupKey)
    requires a != b
    ensures KeyLess(a, b) || KeyLess(b, a)
  {
    if a.cnpj != b.cnpj {
      StrLessTotal(a.cnpj, b.cnpj);
    } else if a.code != b.code {
      StrLessTotal(a.code, b.code);
    } else {
      StrLessTotal(a.employee, b.employee);
    }
  }

  /** Strictly increasing keys: each key once, in pandas' sorted group order. */
  predicate Sorted(gs: seq<ExtraTotal>) {
    forall i, j :: 0 <= i < j < |gs| ==> KeyLess(gs[i].key, gs[j].key)
  }

  function Keys(gs: seq<ExtraTotal>): set<GroupKey> {
    set g | g in gs :: g.key
  }

  /** Adds one row's amount to its group, opening the group in key order when it is new. */
  function AddTo(gs: seq<ExtraTotal>, r: ExtraRow): (out: seq<ExtraTotal>)
    ensures |out| >= 1
  {
    var k := KeyOf(r);
    if gs == [] then [ExtraTotal(k, r.amount)]
    else if gs[0].key == k then [ExtraTotal(k, gs[0].total + r.amount)] + gs[1..]
    else if KeyLess(k, gs[0].key) then [ExtraTotal(k, r.amount)] + gs
    else [gs[0]] + AddTo(gs[1..], r)
  }

  /** The grouped table of the extracted rows. */
  function GroupExtras(rows: seq<ExtraRow>): seq<ExtraTotal> {
    if rows == [] then [] else AddTo(GroupExtras(rows[..|rows| - 1]), rows[|rows| - 1])
  }

  /** The sum of the amounts of the rows with key `k`. */
  function SumFor(rows: seq<ExtraRow>, k: GroupKey): real {
    if rows == [] then 0.0
    else SumFor(rows[..|rows| - 1], k) + (if KeyOf(rows[|rows| - 1]) == k then rows[|rows| - 1].amount else 0.0)
  }

  /** The sum of all amounts. */
  function SumAll(rows: seq<ExtraRow>): real {
    if rows == [] then 0.0 else SumAll(rows[..|rows| - 1]) + rows[|rows| - 1].amount
  }

  /** The sum of the totals of the groups with key `k`. */
  function TotalFor(gs: seq<ExtraTotal>, k: GroupKey): real {
    if gs == [] then 0.0 else (if gs[0].key == k then gs[0].total else 0.0) + TotalFor(gs[1..], k)
  }

  function GrandTotal(gs: seq<ExtraTotal>): real {
    if gs == [] then 0.0 else gs[0].total + GrandTotal(gs[1..])
  }

  lemma {:induction false} AddToKeys(gs: seq<ExtraTotal>, r: ExtraRow)
    ensures Keys(AddTo(gs, r)) == Keys(gs) + {KeyOf(r)}
    decreases |gs|
  {
    var k := KeyOf(r);
    var out := AddTo(gs, r);
    if gs != [] {
      assert gs == [gs[0]] + gs[1..];
      assert Keys(gs) == {gs[0].key} + Keys(gs[1..]);
      if gs[0].key == k {
        assert Keys(out) == {k} + Keys(gs[1..]);
      } else if KeyLess(k, gs[0].key) {
        assert Keys(out) == {k} + Keys(gs);
      } else {
        AddToKeys(gs[1..], r);
        assert Keys(out) == {gs[0].key} + Keys(AddTo(gs[1..], r));
      }
    }
  }

  lemma {:induction false} AddToSorted(gs: seq<ExtraTotal>, r: ExtraRow)
    requires Sorted(gs)
    ensures Sorted(AddTo(gs, r))
    decreases |gs|
  {
    var k := KeyOf(r);
    var out := AddTo(gs, r);
    if gs != [] && gs[0].key != k {
      if KeyLess(k, gs[0].key) {
        forall j | 0 < j < |out| ensures KeyLess(out[0].key, out[j].key) {
          if j > 1 { KeyLessTransitive(k, gs[0].key, gs[j - 1].key); }
        }
      } else {
        KeyLessTotal(k, gs[0].key);
        var rest := AddTo(gs[1..], r);
        AddToSorted(gs[1..], r);
        AddToKeys(gs[1..], r);
        forall j | 0 <= j < |rest| ensures KeyLess(gs[0].key, rest[j].key) {
          assert rest[j].key in Keys(rest);
          if rest[j].key != k {
            var g :| g in gs[1..] && g.key == rest[j].key;
            var m :| 0 <= m < |gs[1..]| && gs[1..][m] == g;
            assert gs[m + 1] == g;
          }
        }
        assert out == [gs[0]] + rest;
      }
    }
  }

  lemma {:induction false} AddToTotalFor(gs: seq<ExtraTotal>, r: ExtraRow, k: GroupKey)
    ensures TotalFor(AddTo(gs, r), k) == TotalFor(gs, k) + (if KeyOf(r) == k then r.amount else 0.0)
    decreases |gs|
  {
    var out := AddTo(gs, r);
    if gs == [] {
      assert out[1..] == [];
    } else if gs[0].key == KeyOf(r) {
      assert out[1..] == gs[1..];
    } else if KeyLess(KeyOf(r), gs[0].key) {
      assert out[1..] == gs;
    } else {
      assert out[1..] == AddTo(gs[1..], r);
      AddToTotalFor(gs[1..], r, k);
    }
  }

  lemma {:induction false} AddToGrandTotal(gs: seq<ExtraTotal>, r: ExtraRow)
    ensures GrandTotal(AddTo(gs, r)) == GrandTotal(gs) + r.amount
    decreases |gs|
  {
    var out := AddTo(gs, r);
    if gs == [] {
      assert out[1..] == [];
    } else if gs[0].key == KeyOf(r) {
      assert out[1..] == gs[1..];
    } else if KeyLess(KeyOf(r), gs[0].key) {
      assert out[1..] == gs;
    } else {
      assert out[1..] == AddTo(gs[1..], r);
      AddToGrandTotal(gs[1..], r);
    }
  }

  /** In a table with each key once, a group's total is the total for its key. */
  lemma {:induction false} TotalForSorted(gs: seq<ExtraTotal>, i: nat)
    requires Sorted(gs) && i < |gs|
    ensures TotalFor(gs, gs[i].key) == gs[i].total
    decreases |gs|
  {
    if i == 0 {
      forall j | 0 <= j < |gs[1..]| ensures gs[1..][j].key != gs[0].key {
        KeyLessIrreflexive(gs[0].key);
      }
      TotalForAbsent(gs[1..], gs[0].key);
    } else {
      KeyLessIrreflexive(gs[i].key);
      TotalForSorted(gs[1..], i - 1);
    }
  }

  lemma {:induction false} TotalForAbsent(gs: seq<ExtraTotal>, k: GroupKey)
    requires forall j :: 0 <= j < |gs| ==> gs[j].key != k
    ensures TotalFor(gs, k) == 0.0
    decreases |gs|
  {
    if gs != [] {
      TotalForAbsent(gs[1..], k);
    }
  }

  /**
    The grouped table has each (CNPJ, Código, Funcionário) once, in sorted
    order, and exactly the keys of the extracted rows.
  */
  lemma {:induction false} GroupedKeys(rows: seq<ExtraRow>)
    ensures Sorted(GroupExtras(rows))
    ensures Keys(GroupExtras(rows)) == set r | r in rows :: KeyOf(r)
    ensures GroupExtras(rows) == [] <==> rows == []
    decreases |rows|
  {
    if rows != [] {
      var init := rows[..|rows| - 1];
      var last := rows[|rows| - 1];
      GroupedKeys(init);
      AddToSorted(GroupExtras(init), last);
      AddToKeys(GroupExtras(init), last);
      assert rows == init + [last];
      assert (set r | r in rows :: KeyOf(r)) == (set r | r in init :: KeyOf(r)) + {KeyOf(last)};
    }
  }

  lemma {:induction false} GroupedTotalFor(rows: seq<ExtraRow>, k: GroupKey)
    ensures TotalFor(GroupExtras(rows), k) == SumFor(rows, k)
    decreases |rows|
  {
    if rows != [] {
      GroupedTotalFor(rows[..|rows| - 1], k);
      AddToTotalFor(GroupExtras(rows[..|rows| - 1]), rows[|rows| - 1], k);
    }
  }

  /** Each group's total is the sum of the amounts of exactly the rows with its key. */
  lemma GroupedSums(rows: seq<ExtraRow>)
    ensures forall i :: 0 <= i < |GroupExtras(rows)| ==>
              GroupExtras(rows)[i].total == SumFor(rows, GroupExtras(rows)[i].key)
  {
    var gs := GroupExtras(rows);
    GroupedKeys(rows);
    forall i | 0 <= i < |gs| ensures gs[i].total == SumFor(rows, gs[i].key) {
      TotalForSorted(gs, i);
      GroupedTotalFor(rows, gs[i].key);
    }
  }

  /** Grouping neither loses nor invents money: the grand total is the sum of all extracted amounts. */
  lemma {:induction false} GroupedGrandTotal(rows: seq<ExtraRow>)
    ensures GrandTotal(GroupExtras(rows)) == SumAll(rows)
    decreases |rows|
  {
    if rows != [] {
      GroupedGrandTotal(rows[..|rows| - 1]);
      AddToGrandTotal(GroupExtras(rows[..|rows| - 1]), rows[|rows| - 1]);
    }
  }

  /** Every code in the grouped extras table is written as `str(int(...))` writes it. */
  lemma GroupedCodesCanonical(docs: seq<Document>)
    ensures forall g :: g in GroupExtras(Collect(ExtraRule, docs, |docs|).rows) ==> IsCanonical(g.key.code)
  {
    var rows := Collect(ExtraRule, docs, |docs|).rows;
    CollectRowsSatisfy(ExtraRule, docs, |docs|, (r: ExtraRow) => IsCanonical(r.code));
    GroupedKeys(rows);
    forall g | g in GroupExtras(rows) ensures IsCanonical(g.key.code) {
      assert g.key in Keys(GroupExtras(rows));
    }
  }

  /** processar_extras: the grouped table and the names of the files that raised. */
  method ExtractExtras(docs: seq<Document>) returns (groups: seq<ExtraTotal>, failed: seq<string>)
    ensures var ex := Collect(ExtraRule, docs, |docs|);
            groups == GroupExtras(ex.rows) && failed == ex.failed
  {
    var ex := ScanDocuments(ExtraRule, docs);
    groups := GroupExtras(ex.rows);
    failed := ex.failed;
  }
}
