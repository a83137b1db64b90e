/**
  The end of processar_folha (app.py:265-272): the records handed over become a
  table, and every amount column is rewritten in place with `limpar_valor`,
  one column after the other.  The conversion runs outside the per-file `try`,
  so a single amount that `float()` rejects ends the whole call.
*/
module Conversion {
  import opened Wrappers
  import Values
  import Payroll
  import Patterns
  import opened Batch

  type Field = Payroll.Field

  /** A payroll row of the returned table: the text columns, and the amounts as numbers. */
  datatype Record = Record(company: string, cnpj: string, code: string, employee: string, role: string,
                           file: string, admission: Option<string>, values: map<Field, real>)

  /** The table cell of an amount column: the text the record holds, or NaN when it holds none. */
  function CellOf(d: Payroll.Draft, f: Field): (c: Values.Cell)
    ensures f in d.amounts <==> c.Text?
  {
    if f in d.amounts then Values.Text(d.amounts[f]) else Values.Missing
  }

  /** Every amount cell of the record is accepted by `limpar_valor`. */
  predicate Converts(d: Payroll.Draft) {
    forall f: Field :: Values.ToNumber(CellOf(d, f)).Success?
  }

  /**
    `r` is the row record `d` becomes: the same text columns, and for every
    amount column the number `limpar_valor` reads from its cell.
  */
  predicate ConvertsTo(d: Payroll.Draft, r: Record) {
    && r.company == d.company && r.cnpj == d.cnpj && r.code == d.code && r.employee == d.employee
    && r.role == d.role && r.file == d.file && r.admission == d.admission
    && forall f: Field :: f in r.values && Values.ToNumber(CellOf(d, f)) == Success(r.values[f])
  }

  /** A record that converts to a row converts. */
  lemma ConvertsToConverts(d: Payroll.Draft, r: Record)
    requires ConvertsTo(d, r)
    ensures Converts(d)
  {
    forall f: Field ensures Values.ToNumber(CellOf(d, f)).Success? {
      assert Values.ToNumber(CellOf(d, f)) == Success(r.values[f]);
    }
  }

  /** A record converts to one row at most. */
  lemma ConvertsToUnique(d: Payroll.Draft, r: Record, r': Record)
    requires ConvertsTo(d, r) && ConvertsTo(d, r')
    ensures r == r'
  {
    forall f: Field ensures f in r.values && f in r'.values && r.values[f] == r'.values[f] {
      assert Values.ToNumber(CellOf(d, f)) == Success(r.values[f]);
    }
    assert r.values.Keys == r'.values.Keys;
  }

  /**
    What processar_folha returns for the records handed over: no table when
    some amount raises, else one converted row per record, in order (an empty
    list gives the empty table).
  */
  predicate IsTable(ds: seq<Payroll.Draft>, t: Option<seq<Record>>) {
    && (t.Some? <==> forall i :: 0 <= i < |ds| ==> Converts(ds[i]))
    && (t.Some? ==> |t.value| == |ds| && forall i :: 0 <= i < |ds| ==> ConvertsTo(ds[i], t.value[i]))
  }

  /** The records determine the table. */
  lemma IsTableUnique(ds: seq<Payroll.Draft>, t: Option<seq<Record>>, t': Option<seq<Record>>)
    requires IsTable(ds, t) && IsTable(ds, t')
    ensures t == t'
  {
    if t.Some? {
      forall i | 0 <= i < |ds| ensures t.value[i] == t'.value[i] {
        ConvertsToUnique(ds[i], t.value[i], t'.value[i]);
      }
      assert t.value == t'.value;
    }
  }

  /** A cell `limpar_valor` has rewritten: the number it read from what the cell held before. */
  predicate Rewritten(before: Values.Cell, after: Values.Cell) {
    after.Num? && Values.ToNumber(before) == Success(after.x)
  }

  /**
    Line 269 for column `j`: the column rewritten from top to bottom; false as
    soon as a cell raises, the cells above it already rewritten.
  */
  method ConvertColumn(t: array2<Values.Cell>, j: nat) returns (ok: bool)
    requires j < t.Length1
    modifies t
    ensures ok <==> forall i :: 0 <= i < t.Length0 ==> Values.ToNumber(old(t[i, j])).Success?
    ensures ok ==> forall i :: 0 <= i < t.Length0 ==> Rewritten(old(t[i, j]), t[i, j])
    ensures forall i, k :: 0 <= i < t.Length0 && 0 <= k < t.Length1 && k != j ==> t[i, k] == old(t[i, k])
  {
    var i := 0;
    while i < t.Length0
      invariant i <= t.Length0
      invariant forall r :: 0 <= r < i ==> Rewritten(old(t[r, j]), t[r, j])
      invariant forall r :: i <= r < t.Length0 ==> t[r, j] == old(t[r, j])
      invariant forall r, k :: 0 <= r < t.Length0 && 0 <= k < t.Length1 && k != j ==> t[r, k] == old(t[r, k])
    {
      var c := t[i, j];
      var v := Values.ToNumber(c);
      if v.Failure? {
        return false;
      }
      t[i, j] := Values.Num(v.value);
      assert Rewritten(c, t[i, j]);
      i := i + 1;
    }
    return true;
  }

  /**
    Lines 268-269: the columns rewritten one after the other, each cell
    becoming the number `limpar_valor` reads from it; false as soon as a cell
    raises.
  */
  method ConvertColumns(t: array2<Values.Cell>) returns (ok: bool)
    modifies t
    ensures ok <==> forall i, j :: 0 <= i < t.Length0 && 0 <= j < t.Length1 ==>
                      Values.ToNumber(old(t[i, j])).Success?
    ensures ok ==> forall i, j :: 0 <= i < t.Length0 && 0 <= j < t.Length1 ==> Rewritten(old(t[i, j]), t[i, j])
  {
    var j := 0;
    while j < t.Length1
      invariant j <= t.Length1
      invariant forall r, k :: 0 <= r < t.Length0 && 0 <= k < j ==> Rewritten(old(t[r, k]), t[r, k])
      invariant forall r, k :: 0 <= r < t.Length0 && j <= k < t.Length1 ==> t[r, k] == old(t[r, k])
    {
      ok := ConvertColumn(t, j);
      if !ok {
        return;
      }
      j := j + 1;
    }
    return true;
  }

  /** The converted row of record `i`, read off the rewritten cells. */
  method ReadRow(d: Payroll.Draft, cells: array2<Values.Cell>, i: nat) returns (r: Record)
    requires i < cells.Length0 && cells.Length1 == |Payroll.Columns|
    requires forall j :: 0 <= j < cells.Length1 ==> Rewritten(CellOf(d, Payroll.Columns[j]), cells[i, j])
    ensures ConvertsTo(d, r)
  {
    var values: map<Field, real> := map[];
    var j := 0;
    while j < |Payroll.Columns|
      invariant j <= |Payroll.Columns|
      invariant forall k :: 0 <= k < j ==>
                  (Payroll.Columns[k] in values &&
                   Values.ToNumber(CellOf(d, Payroll.Columns[k])) == Success(values[Payroll.Columns[k]]))
    {
      assert Rewritten(CellOf(d, Payroll.Columns[j]), cells[i, j]);
      values := values[Payroll.Columns[j] := cells[i, j].x];
      j := j + 1;
    }
    r := Record(d.company, d.cnpj, d.code, d.employee, d.role, d.file, d.admission, values);
    forall f: Field ensures f in r.values && Values.ToNumber(CellOf(d, f)) == Success(r.values[f]) {
      var k := Payroll.ColumnOf(f);
      assert Payroll.Columns[k] in values;
    }
  }

  /** The converted rows of all records, read off the rewritten cells. */
  method ReadRows(ds: seq<Payroll.Draft>, cells: array2<Values.Cell>) returns (rows: seq<Record>)
    requires cells.Length0 == |ds| && cells.Length1 == |Payroll.Columns|
    requires forall i, j :: 0 <= i < |ds| && 0 <= j < cells.Length1 ==> Rewritten(CellOf(ds[i], Payroll.Columns[j]), cells[i, j])
    ensures |rows| == |ds| && forall k :: 0 <= k < |ds| ==> ConvertsTo(ds[k], rows[k])
  {
    rows := [];
    var i := 0;
    while i < |ds|
      invariant i <= |ds| && |rows| == i
      invariant forall k :: 0 <= k < i ==> ConvertsTo(ds[k], rows[k])
    {
      var r := ReadRow(ds[i], cells, i);
      rows := rows + [r];
      i := i + 1;
    }
  }

  /** The table built from the records, converted column by column. */
  method ConvertTable(ds: seq<Payroll.Draft>) returns (t: Option<seq<Record>>)
    ensures IsTable(ds, t)
  {
    var cols := Payroll.Columns;
    var cells := new Values.Cell[|ds|, |cols|]((i: nat, j: nat) => if i < |ds| && j < |cols| then CellOf(ds[i], cols[j]) else Values.Missing);
    assert forall i, j :: 0 <= i < |ds| && 0 <= j < |cols| ==> cells[i, j] == CellOf(ds[i], cols[j]);
    var ok := ConvertColumns(cells);
    if !ok {
      ghost var i, j :| 0 <= i < |ds| && 0 <= j < |cols| && Values.ToNumber(CellOf(ds[i], cols[j])).Failure?;
      assert !Converts(ds[i]);
      return None;
    }
    assert forall i, j :: 0 <= i < |ds| && 0 <= j < |cols| ==> Rewritten(CellOf(ds[i], cols[j]), cells[i, j]);
    var rows := ReadRows(ds, cells);
    forall k | 0 <= k < |ds| ensures Converts(ds[k]) {
      ConvertsToConverts(ds[k], rows[k]);
    }
    t := Some(rows);
  }

  /**
    processar_folha: the table (None when a conversion raised) and the names
    of the files whose reading raised.
  */
  method ProcessPayroll(docs: seq<Document>) returns (table: Option<seq<Record>>, failed: seq<string>)
    ensures var ex := Payroll.PayrollCollect(docs, |docs|);
            IsTable(ex.rows, table) && failed == ex.failed
  {
    var ex := Payroll.ExtractPayroll(docs);
    table := ConvertTable(ex.rows);
    failed := ex.failed;
  }

  /** The starting amount of a fresh record reads as zero. */
  lemma ZeroReadsAsZero(s: string)
    requires s == Payroll.Zero
    ensures Values.ToNumber(Values.Text(s)) == Success(0.0)
  {
    var units: nat, tens: nat, ones: nat :| units == 0 && tens == 0 && ones == 0;
    Values.PartsRoundTrip(0, units, tens, ones);
    assert Values.Digits(units) == [Values.DigitChar(0)];
    assert Values.FormatParts(units, tens, ones) == s;
  }

  /** The union-fee mark reads as ten. */
  lemma FeeMarkReadsAsTen(s: string)
    requires s == Payroll.FeeMark
    ensures Values.ToNumber(Values.Text(s)) == Success(10.0)
  {
    var units: nat, tens: nat, ones: nat :| units == 10 && tens == 0 && ones == 0;
    Values.PartsRoundTrip(1000, units, tens, ones);
    assert Values.Digits(units) == [Values.DigitChar(1), Values.DigitChar(0)];
    assert Values.FormatParts(units, tens, ones) == s;
  }

  /** An amount column no line of the block matched reads as 0 in the converted row. */
  lemma UntouchedReadsZero(ctx: Payroll.Context, cs: seq<Payroll.LineInfo>, o: nat, n: nat, f: Field, r: Record)
    requires o < n <= |cs| && cs[o].opening.Some?
    requires Payroll.LastMatch(cs[o + 1..n], n - o - 1, f).None?
    requires ConvertsTo(Payroll.BlockRecord(ctx, cs, o, n), r)
    ensures r.values[f] == 0.0
  {
    var d := Payroll.BlockRecord(ctx, cs, o, n);
    Payroll.BlockAmountUntouched(ctx, cs, o, n, f);
    ZeroReadsAsZero(d.amounts[f]);
    assert Values.ToNumber(CellOf(d, f)) == Success(r.values[f]);
  }

  /** An amount column read from a block line holds the number `limpar_valor` reads from that line's text. */
  lemma MatchedReadsLast(ctx: Payroll.Context, cs: seq<Payroll.LineInfo>, o: nat, n: nat, f: Field, r: Record, j: nat)
    requires o < n <= |cs| && cs[o].opening.Some?
    requires Payroll.LastMatch(cs[o + 1..n], n - o - 1, f) == Some(j)
    requires ConvertsTo(Payroll.BlockRecord(ctx, cs, o, n), r)
    ensures Values.ToNumber(Values.Text(cs[o + 1 + j].amounts[f])) == Success(r.values[f])
  {
    var d := Payroll.BlockRecord(ctx, cs, o, n);
    Payroll.BlockAmountMatched(ctx, cs, o, n, f, j);
    assert CellOf(d, f) == Values.Text(cs[o + 1 + j].amounts[f]);
    assert Values.ToNumber(CellOf(d, f)) == Success(r.values[f]);
  }

  /**
    The union fee of a converted row is 10 when some line of its block carries
    the `Contribuição Assistencial` item, whatever amount that line shows, and 0 otherwise.
  */
  lemma UnionFeeReadsTen(ctx: Payroll.Context, lines: seq<string>, o: nat, n: nat, r: Record)
    requires o < n <= |lines| && Payroll.Infos(lines)[o].opening.Some?
    requires ConvertsTo(Payroll.BlockRecord(ctx, Payroll.Infos(lines), o, n), r)
    ensures r.values[Payroll.UnionFee] ==
              if exists j :: o < j < n && Patterns.ItemPresent(lines[j], Payroll.UnionFeeItem) then 10.0 else 0.0
  {
    var d := Payroll.BlockRecord(ctx, Payroll.Infos(lines), o, n);
    Payroll.BlockUnionFee(ctx, lines, o, n);
    assert Values.ToNumber(CellOf(d, Payroll.UnionFee)) == Success(r.values[Payroll.UnionFee]);
    if d.amounts[Payroll.UnionFee] == Payroll.FeeMark {
      FeeMarkReadsAsTen(d.amounts[Payroll.UnionFee]);
    } else {
      ZeroReadsAsZero(d.amounts[Payroll.UnionFee]);
    }
  }

  /** One amount holding two decimal commas and the call returns no table at all. */
  lemma TwoCommasNoTable(ds: seq<Payroll.Draft>, k: nat, f: Field, i: nat, j: nat, t: Option<seq<Record>>)
    requires k < |ds| && f in ds[k].amounts
    requires i < j < |ds[k].amounts[f]| && ds[k].amounts[f][i] == ',' && ds[k].amounts[f][j] == ','
    requires IsTable(ds, t)
    ensures t.None?
  {
    Values.TwoCommasRejected(ds[k].amounts[f], i, j);
    assert !Converts(ds[k]) by {
      assert Values.ToNumber(CellOf(ds[k], f)).Failure?;
    }
  }
}
