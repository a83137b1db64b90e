/**
  The consolidation block (app.py:359-425): the payroll table is the left side
  of up to three left joins, with the union-fee table, the net-pay table and the
  grouped extras, each on the key (stripped `Código`, `limpar_cnpj` of
  `Empresa CNPJ`).  A join is skipped when its table is empty, and the extras
  total of a payroll row no group matched is filled with 0.
*/
module Consolidation {
  import opened Wrappers
  import opened Text
  import Values
  import Patterns
  import Conversion
  import Assist
  import NetPay
  import Extras

  /** The join key: the stripped code and the normalised CNPJ (the `Empresa CNPJ Norm` column). */
  datatype Key = Key(code: string, cnpj: string)

  function NormalKey(code: string, cnpj: string): (k: Key)
    ensures k.cnpj == Values.Placeholder <==> cnpj == Values.NotFound
  {
    var k := Key(Strip(code), Values.CleanCnpj(Some(cnpj)));
    if cnpj == Values.NotFound then k else Values.PlaceholderIsNoId(cnpj); k
  }

  /**
    A column a join adds to a row: not there at all (the join was skipped), NaN
    (no row of the right table has the key), or the value of a matching row.
  */
  datatype Joined<+V> = Absent | NoMatch | Matched(value: V)

  /** A row of the consolidated table: the payroll row and the columns the joins added. */
  datatype Row = Row(record: Conversion.Record, fee: Joined<(real, real)>, net: Joined<real>, extras: Joined<real>)

  /** The key of a consolidated row, whose code was stripped when the row was made. */
  function RowKey(row: Row): Key {
    Key(row.record.code, Values.CleanCnpj(Some(row.record.cnpj)))
  }

  /** The right side of a join: each right row's key with the columns it brings. */
  type Side<V> = seq<(Key, V)>

  function FeeSide(fees: seq<Assist.FeeRow>): (side: Side<(real, real)>)
    ensures |side| == |fees|
    ensures forall i :: 0 <= i < |fees| ==>
              side[i] == (NormalKey(fees[i].code, fees[i].cnpj), (fees[i].salaryBase, fees[i].fee))
  {
    seq(|fees|, i requires 0 <= i < |fees| => (NormalKey(fees[i].code, fees[i].cnpj), (fees[i].salaryBase, fees[i].fee)))
  }

  function NetSide(net: seq<NetPay.NetPayRow>): (side: Side<real>)
    ensures |side| == |net|
    ensures forall i :: 0 <= i < |net| ==> side[i] == (NormalKey(net[i].code, net[i].cnpj), net[i].net)
  {
    seq(|net|, i requires 0 <= i < |net| => (NormalKey(net[i].code, net[i].cnpj), net[i].net))
  }

  function ExtrasSide(groups: seq<Extras.ExtraTotal>): (side: Side<real>)
    ensures |side| == |groups|
    ensures forall i :: 0 <= i < |groups| ==>
              side[i] == (NormalKey(groups[i].key.code, groups[i].key.cnpj), groups[i].total)
  {
    seq(|groups|, i requires 0 <= i < |groups| => (NormalKey(groups[i].key.code, groups[i].key.cnpj), groups[i].total))
  }

  /** The values of the right rows with key `k`, in the order of the right table. */
  function MatchesOf<V>(right: Side<V>, k: Key): (vs: seq<V>)
    ensures |vs| <= |right|
    ensures vs == [] <==> forall i :: 0 <= i < |right| ==> right[i].0 != k
  {
    if right == [] then []
    else
      var rest := MatchesOf(right[..|right| - 1], k);
      if right[|right| - 1].0 == k then rest + [right[|right| - 1].1] else rest
  }

  /** No two rows of the right side share a key. */
  predicate KeysUnique<V>(right: Side<V>) {
    forall i, j :: 0 <= i < j < |right| ==> right[i].0 != right[j].0
  }

  /** What a one-to-one join puts in the column: the value of the first row with the key, else NaN. */
  function Lookup<V>(right: Side<V>, k: Key): Joined<V> {
    if right == [] then NoMatch
    else match Lookup(right[..|right| - 1], k)
      case Matched(v) => Matched(v)
      case _ => if right[|right| - 1].0 == k then Matched(right[|right| - 1].1) else NoMatch
  }

  /** The lookup is NaN when nothing matches, else the first of the matches. */
  lemma {:induction false} LookupFirst<V>(right: Side<V>, k: Key)
    ensures Lookup(right, k) == if MatchesOf(right, k) == [] then NoMatch else Matched(MatchesOf(right, k)[0])
  {
    if right != [] {
      LookupFirst(right[..|right| - 1], k);
    }
  }

  /** A left row and its matches: one row per match, in right order, or one row holding NaN. */
  function Attach<V>(row: Row, vs: seq<V>, put: (Row, Joined<V>) -> Row): (out: seq<Row>)
    ensures vs == [] ==> out == [put(row, NoMatch)]
    ensures vs != [] ==> |out| == |vs| && forall i :: 0 <= i < |vs| ==> out[i] == put(row, Matched(vs[i]))
  {
    if vs == [] then [put(row, NoMatch)] else seq(|vs|, i requires 0 <= i < |vs| => put(row, Matched(vs[i])))
  }

  /** `pd.merge(left, right, how='left')`: every left row, in order, expanded by its matches. */
  function LeftJoin<V>(left: seq<Row>, right: Side<V>, put: (Row, Joined<V>) -> Row): seq<Row>
  {
    if left == [] then []
    else
      var last := left[|left| - 1];
      LeftJoin(left[..|left| - 1], right, put) + Attach(last, MatchesOf(right, RowKey(last)), put)
  }

  function PutFee(row: Row, j: Joined<(real, real)>): Row {
    row.(fee := j)
  }

  function PutNet(row: Row, j: Joined<real>): Row {
    row.(net := j)
  }

  function PutExtras(row: Row, j: Joined<real>): Row {
    row.(extras := j)
  }

  /** `fillna(0.0)` on `Total Extras`. */
  function FillNa(rows: seq<Row>): (out: seq<Row>)
    ensures |out| == |rows|
    ensures forall i :: 0 <= i < |rows| ==> out[i] == rows[i].(extras := Filled(rows[i].extras))
  {
    seq(|rows|, i requires 0 <= i < |rows| => rows[i].(extras := Filled(rows[i].extras)))
  }

  function Filled(j: Joined<real>): Joined<real> {
    if j.NoMatch? then Matched(0.0) else j
  }

  /** A payroll row with its code stripped, before any join. */
  function Stripped(r: Conversion.Record): Conversion.Record {
    r.(code := Strip(r.code))
  }

  function Base(payroll: seq<Conversion.Record>): (rows: seq<Row>)
    ensures |rows| == |payroll|
    ensures forall i :: 0 <= i < |payroll| ==> rows[i] == Row(Stripped(payroll[i]), Absent, Absent, Absent)
  {
    seq(|payroll|, i requires 0 <= i < |payroll| => Row(Stripped(payroll[i]), Absent, Absent, Absent))
  }

  /** The one refusal: there is no payroll table, or it is empty. */
  datatype Refusal = PayrollMissing

  /** The first join, with the union-fee table's `Salário Base` and `Valor Assistencial`, skipped when it is empty. */
  function JoinFees(rows: seq<Row>, fees: seq<Assist.FeeRow>): seq<Row> {
    if fees == [] then rows else LeftJoin(rows, FeeSide(fees), PutFee)
  }

  /** The second join, with the net-pay table's `Valor Líquido`, skipped when it is empty. */
  function JoinNet(rows: seq<Row>, net: seq<NetPay.NetPayRow>): seq<Row> {
    if net == [] then rows else LeftJoin(rows, NetSide(net), PutNet)
  }

  /** The third join, with the extras totals then filled with 0, skipped when there are no groups. */
  function JoinExtras(rows: seq<Row>, groups: seq<Extras.ExtraTotal>): seq<Row> {
    if groups == [] then rows else FillNa(LeftJoin(rows, ExtrasSide(groups), PutExtras))
  }

  /**
    The button's action: refused without a payroll table; otherwise the payroll
    rows joined with each non-empty table in turn.
  */
  function Consolidate(payroll: Option<seq<Conversion.Record>>, fees: seq<Assist.FeeRow>,
                       net: seq<NetPay.NetPayRow>, groups: seq<Extras.ExtraTotal>): (r: Result<seq<Row>, Refusal>)
    ensures r.Failure? <==> payroll.None? || payroll.value == []
  {
    if payroll.None? || payroll.value == [] then Failure(PayrollMissing)
    else Success(JoinExtras(JoinNet(JoinFees(Base(payroll.value), fees), net), groups))
  }

  /** The column a join adds for key `k`: absent when its table is empty. */
  function Column<V>(right: Side<V>, k: Key): Joined<V> {
    if right == [] then Absent else Lookup(right, k)
  }

  /** With unique keys a key that occurs on the right matches exactly that row. */
  lemma {:induction false} MatchesUnique<V>(right: Side<V>, i: nat)
    requires KeysUnique(right) && i < |right|
    ensures MatchesOf(right, right[i].0) == [right[i].1]
  {
    var n := |right| - 1;
    if i < n {
      MatchesUnique(right[..n], i);
    } else {
      assert MatchesOf(right[..n], right[i].0) == [] by {
        forall j | 0 <= j < n ensures right[..n][j].0 != right[i].0 {
          assert right[..n][j] == right[j];
        }
      }
    }
  }

  /** With unique keys the lookup is the value of the one row with the key, or NaN when none has it. */
  lemma LookupUnique<V>(right: Side<V>, k: Key)
    requires KeysUnique(right)
    ensures Lookup(right, k).NoMatch? <==> forall i :: 0 <= i < |right| ==> right[i].0 != k
    ensures forall i :: 0 <= i < |right| && right[i].0 == k ==> Lookup(right, k) == Matched(right[i].1)
  {
    LookupFirst(right, k);
    forall i | 0 <= i < |right| && right[i].0 == k ensures Lookup(right, k) == Matched(right[i].1) {
      MatchesUnique(right, i);
    }
  }

  /** A join adds rows, it never drops one. */
  lemma {:induction false} JoinKeepsRows<V>(left: seq<Row>, right: Side<V>, put: (Row, Joined<V>) -> Row)
    ensures |LeftJoin(left, right, put)| >= |left|
  {
    if left != [] {
      JoinKeepsRows(left[..|left| - 1], right, put);
    }
  }

  /**
    With unique keys on the right the join is one-to-one: row `i` is left row
    `i` with the looked-up column put in.
  */
  lemma {:induction false} JoinUnique<V>(left: seq<Row>, right: Side<V>, put: (Row, Joined<V>) -> Row)
    requires KeysUnique(right)
    ensures |LeftJoin(left, right, put)| == |left|
    ensures forall i :: 0 <= i < |left| ==> LeftJoin(left, right, put)[i] == put(left[i], Lookup(right, RowKey(left[i])))
  {
    if left != [] {
      var n := |left| - 1;
      var prev := LeftJoin(left[..n], right, put);
      JoinUnique(left[..n], right, put);
      var last := put(left[n], Lookup(right, RowKey(left[n])));
      AttachUnique(left[n], right, put);
      assert LeftJoin(left, right, put) == prev + [last];
      JoinUniqueStep(left, right, put, prev, last);
    }
  }

  lemma JoinUniqueStep<V>(left: seq<Row>, right: Side<V>, put: (Row, Joined<V>) -> Row, prev: seq<Row>, last: Row)
    requires |prev| + 1 == |left|
    requires forall i :: 0 <= i < |prev| ==> prev[i] == put(left[..|prev|][i], Lookup(right, RowKey(left[..|prev|][i])))
    requires last == put(left[|prev|], Lookup(right, RowKey(left[|prev|])))
    ensures forall i :: 0 <= i < |left| ==> (prev + [last])[i] == put(left[i], Lookup(right, RowKey(left[i])))
  {
    forall i | 0 <= i < |left| ensures (prev + [last])[i] == put(left[i], Lookup(right, RowKey(left[i]))) {
      if i < |prev| {
        assert (prev + [last])[i] == prev[i];
        assert left[..|prev|][i] == left[i];
      } else {
        assert (prev + [last])[i] == last;
      }
    }
  }

  /** With unique keys a row is attached to one row of the right side, or to none. */
  lemma AttachUnique<V>(row: Row, right: Side<V>, put: (Row, Joined<V>) -> Row)
    requires KeysUnique(right)
    ensures Attach(row, MatchesOf(right, RowKey(row)), put) == [put(row, Lookup(right, RowKey(row)))]
  {
    var vs := MatchesOf(right, RowKey(row));
    LookupFirst(right, RowKey(row));
    if vs != [] {
      var j :| 0 <= j < |right| && right[j].0 == RowKey(row);
      MatchesUnique(right, j);
    }
  }

  /** A left row whose key two right rows share comes out twice: the table grows. */
  lemma JoinDuplicates<V>(left: seq<Row>, right: Side<V>, put: (Row, Joined<V>) -> Row, i: nat, a: nat, b: nat)
    requires i < |left| && a < b < |right|
    requires right[a].0 == RowKey(left[i]) && right[b].0 == RowKey(left[i])
    ensures |LeftJoin(left, right, put)| > |left|
  {
    var upto := left[..i + 1];
    assert upto[..i] == left[..i];
    JoinKeepsRows(left[..i], right, put);
    MatchesTwo(right, RowKey(upto[i]), a, b);
    JoinLastGrows(upto, right, put);
    JoinPrefix(left, right, put, i + 1);
  }

  /** The rows a join adds beyond the left table's own only accumulate along it. */
  lemma {:induction false} JoinPrefix<V>(left: seq<Row>, right: Side<V>, put: (Row, Joined<V>) -> Row, m: nat)
    requires m <= |left|
    ensures |LeftJoin(left, right, put)| - |left| >= |LeftJoin(left[..m], right, put)| - m
  {
    if m < |left| {
      var n := |left| - 1;
      assert left[..n][..m] == left[..m];
      JoinPrefix(left[..n], right, put, m);
      JoinLast(left, right, put);
    } else {
      assert left[..m] == left;
    }
  }

  lemma JoinLastGrows<V>(left: seq<Row>, right: Side<V>, put: (Row, Joined<V>) -> Row)
    requires left != [] && |LeftJoin(left[..|left| - 1], right, put)| >= |left| - 1
    requires |MatchesOf(right, RowKey(left[|left| - 1]))| >= 2
    ensures |LeftJoin(left, right, put)| > |left|
  {
    JoinLast(left, right, put);
  }

  /** The last left row adds at least one row, and one per match when there are several. */
  lemma JoinLast<V>(left: seq<Row>, right: Side<V>, put: (Row, Joined<V>) -> Row)
    requires left != []
    ensures |LeftJoin(left, right, put)| >= |LeftJoin(left[..|left| - 1], right, put)| + 1
    ensures |MatchesOf(right, RowKey(left[|left| - 1]))| >= 2 ==>
              |LeftJoin(left, right, put)| >= |LeftJoin(left[..|left| - 1], right, put)| + 2
  {
  }

  lemma {:induction false} MatchesTwo<V>(right: Side<V>, k: Key, a: nat, b: nat)
    requires a < b < |right| && right[a].0 == k && right[b].0 == k
    ensures |MatchesOf(right, k)| >= 2
  {
    var n := |right| - 1;
    if b < n {
      MatchesTwo(right[..n], k, a, b);
    } else {
      assert right[..n][a] == right[a];
      assert MatchesOf(right[..n], k) != [];
    }
  }

  /** Every row of a join on the extras has the column, matched or NaN. */
  lemma {:induction false} ExtrasJoinPresent(left: seq<Row>, right: Side<real>)
    ensures forall o :: o in LeftJoin(left, right, PutExtras) ==> !o.extras.Absent?
  {
    if left != [] {
      ExtrasJoinPresent(left[..|left| - 1], right);
    }
  }

  /** With the extras table non-empty, every consolidated row has a `Total Extras` number. */
  lemma ExtrasAlwaysFilled(payroll: seq<Conversion.Record>, fees: seq<Assist.FeeRow>,
                           net: seq<NetPay.NetPayRow>, groups: seq<Extras.ExtraTotal>)
    requires payroll != [] && groups != []
    ensures forall o :: o in Consolidate(Some(payroll), fees, net, groups).value ==> o.extras.Matched?
  {
    var withNet := JoinNet(JoinFees(Base(payroll), fees), net);
    ExtrasJoinPresent(withNet, ExtrasSide(groups));
    var joined := LeftJoin(withNet, ExtrasSide(groups), PutExtras);
    forall o | o in FillNa(joined) ensures o.extras.Matched? {
      var i :| 0 <= i < |joined| && FillNa(joined)[i] == o;
      assert joined[i] in joined;
    }
  }

  /** The key of a payroll row, as the joins see it. */
  function RecordKey(r: Conversion.Record): Key {
    NormalKey(r.code, r.cnpj)
  }

  /**
    With no key shared by two rows of any right table, the consolidated table
    has one row per payroll row, in order: the payroll row with its code
    stripped, the fee columns and the net pay of the rows with its key (NaN
    when none has it; absent when that table is empty), and the extras total
    of its key, 0 when no group has it.
  */
  lemma ConsolidateUnique(payroll: seq<Conversion.Record>, fees: seq<Assist.FeeRow>,
                          net: seq<NetPay.NetPayRow>, groups: seq<Extras.ExtraTotal>)
    requires payroll != []
    requires KeysUnique(FeeSide(fees)) && KeysUnique(NetSide(net)) && KeysUnique(ExtrasSide(groups))
    ensures var out := Consolidate(Some(payroll), fees, net, groups).value;
            && |out| == |payroll|
            && forall i :: 0 <= i < |payroll| ==>
                 out[i] == Row(Stripped(payroll[i]), Column(FeeSide(fees), RecordKey(payroll[i])),
                               Column(NetSide(net), RecordKey(payroll[i])), ExtrasColumn(groups, RecordKey(payroll[i])))
  {
    FeesStage(payroll, fees);
    NetStage(payroll, fees, net);
    ExtrasStage(payroll, fees, net, groups);
  }

  /** The table after the fee join, when it is one-to-one. */
  function WithFees(payroll: seq<Conversion.Record>, fees: seq<Assist.FeeRow>): (rows: seq<Row>)
    ensures |rows| == |payroll|
  {
    seq(|payroll|, i requires 0 <= i < |payroll| =>
      Row(Stripped(payroll[i]), Column(FeeSide(fees), RecordKey(payroll[i])), Absent, Absent))
  }

  /** The table after the net-pay join, when both joins so far are one-to-one. */
  function WithNet(payroll: seq<Conversion.Record>, fees: seq<Assist.FeeRow>, net: seq<NetPay.NetPayRow>): (rows: seq<Row>)
    ensures |rows| == |payroll|
  {
    seq(|payroll|, i requires 0 <= i < |payroll| =>
      Row(Stripped(payroll[i]), Column(FeeSide(fees), RecordKey(payroll[i])), Column(NetSide(net), RecordKey(payroll[i])), Absent))
  }

  lemma FeesStage(payroll: seq<Conversion.Record>, fees: seq<Assist.FeeRow>)
    requires KeysUnique(FeeSide(fees))
    ensures JoinFees(Base(payroll), fees) == WithFees(payroll, fees)
  {
    var base := Base(payroll);
    FeesUnique(base, fees);
    forall i | 0 <= i < |payroll| ensures JoinFees(base, fees)[i] == WithFees(payroll, fees)[i] {
      assert RowKey(base[i]) == RecordKey(payroll[i]);
    }
  }

  lemma NetStage(payroll: seq<Conversion.Record>, fees: seq<Assist.FeeRow>, net: seq<NetPay.NetPayRow>)
    requires KeysUnique(NetSide(net))
    ensures JoinNet(WithFees(payroll, fees), net) == WithNet(payroll, fees, net)
  {
    var rows := WithFees(payroll, fees);
    NetUnique(rows, net);
    forall i | 0 <= i < |payroll| ensures JoinNet(rows, net)[i] == WithNet(payroll, fees, net)[i] {
      assert RowKey(rows[i]) == RecordKey(payroll[i]);
    }
  }

  lemma ExtrasStage(payroll: seq<Conversion.Record>, fees: seq<Assist.FeeRow>,
                    net: seq<NetPay.NetPayRow>, groups: seq<Extras.ExtraTotal>)
    requires KeysUnique(ExtrasSide(groups))
    ensures var out := JoinExtras(WithNet(payroll, fees, net), groups);
            && |out| == |payroll|
            && forall i :: 0 <= i < |payroll| ==>
                 out[i] == Row(Stripped(payroll[i]), Column(FeeSide(fees), RecordKey(payroll[i])),
                               Column(NetSide(net), RecordKey(payroll[i])), ExtrasColumn(groups, RecordKey(payroll[i])))
  {
    var rows := WithNet(payroll, fees, net);
    ExtrasUnique(rows, groups);
    forall i | 0 <= i < |payroll| ensures RowKey(rows[i]) == RecordKey(payroll[i]) { }
  }

  /** The `Total Extras` a row gets for key `k`: absent without groups, else the total of the key or 0. */
  function ExtrasColumn(groups: seq<Extras.ExtraTotal>, k: Key): Joined<real> {
    if groups == [] then Absent else Filled(Lookup(ExtrasSide(groups), k))
  }

  lemma FeesUnique(rows: seq<Row>, fees: seq<Assist.FeeRow>)
    requires KeysUnique(FeeSide(fees))
    ensures |JoinFees(rows, fees)| == |rows|
    ensures forall i :: 0 <= i < |rows| ==>
              JoinFees(rows, fees)[i] == if fees == [] then rows[i] else rows[i].(fee := Lookup(FeeSide(fees), RowKey(rows[i])))
  {
    if fees != [] {
      JoinUnique(rows, FeeSide(fees), PutFee);
    }
  }

  lemma NetUnique(rows: seq<Row>, net: seq<NetPay.NetPayRow>)
    requires KeysUnique(NetSide(net))
    ensures |JoinNet(rows, net)| == |rows|
    ensures forall i :: 0 <= i < |rows| ==>
              JoinNet(rows, net)[i] == if net == [] then rows[i] else rows[i].(net := Lookup(NetSide(net), RowKey(rows[i])))
  {
    if net != [] {
      JoinUnique(rows, NetSide(net), PutNet);
    }
  }

  lemma ExtrasUnique(rows: seq<Row>, groups: seq<Extras.ExtraTotal>)
    requires KeysUnique(ExtrasSide(groups))
    ensures |JoinExtras(rows, groups)| == |rows|
    ensures forall i :: 0 <= i < |rows| ==>
              JoinExtras(rows, groups)[i] == if groups == [] then rows[i] else rows[i].(extras := ExtrasColumn(groups, RowKey(rows[i])))
  {
    if groups != [] {
      JoinUnique(rows, ExtrasSide(groups), PutExtras);
    }
  }

  /**
    The placeholder key of a CNPJ that was not found joins exactly the rows
    whose CNPJ was not found either, never a CNPJ that was.
  */
  lemma PlaceholderJoinsPlaceholder(code: string, cnpj: string, code': string, cnpj': string)
    requires cnpj == Values.NotFound
    ensures NormalKey(code, cnpj) == NormalKey(code', cnpj') <==> Strip(code) == Strip(code') && cnpj' == Values.NotFound
  {
  }

  /** A run of digits is left alone by the strip the keys go through. */
  lemma DigitsUnstripped(s: string)
    requires s != [] && AllDigits(s)
    ensures Strip(s) == s
  {
    StripUnpadded(s);
  }

  /**
    A payroll code written with a leading zero never meets an extras group,
    whose codes went through `str(int(...))`: that row's extras total is 0.
  */
  lemma LeadingZeroMissesExtras(groups: seq<Extras.ExtraTotal>, code: string, cnpj: string)
    requires forall g :: g in groups ==> Extras.IsCanonical(g.key.code)
    requires Patterns.IsCode(code) && |code| > 1 && code[0] == '0'
    ensures MatchesOf(ExtrasSide(groups), NormalKey(code, cnpj)) == []
    ensures groups != [] ==> Filled(Column(ExtrasSide(groups), NormalKey(code, cnpj))) == Matched(0.0)
  {
    var side := ExtrasSide(groups);
    LookupFirst(side, NormalKey(code, cnpj));
    DigitsUnstripped(code);
    forall i | 0 <= i < |side| ensures side[i].0 != NormalKey(code, cnpj) {
      assert groups[i] in groups;
      DigitsUnstripped(groups[i].key.code);
    }
  }
}
