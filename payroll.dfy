/**
  processar_folha (app.py:152-263): the payroll report is read as a line state
  machine.  An opening line (`Cód: … Nome: … Função: …`) opens a record with
  every amount at "0,00"; while the record is open every further line is tried
  against the field patterns, a later match overwriting an earlier one; the
  totals line fills the three totals and hands the record over.  The open
  record is dropped at every page start, and the company CNPJ is carried from
  page to page within a file.
*/
module Payroll {
  import opened Wrappers
  import opened Text
  import Values
  import Patterns
  import Layouts
  import opened Batch

  /** The sixteen amount columns of a payroll record. */
  datatype Field =
    | ContractSalary      // Salário Base Contratual
    | SalaryEarning       // Salário Provento
    | DsrOvertime         // D.S.R. Sobre Horas Extras
    | Overtime50          // Horas Extras 50%
    | TransportRefund     // Reembolso Vale Transporte
    | InssOnSalary        // INSS Sobre Salário
    | IrrfOnSalary        // IRRF Sobre Salário
    | TransportDeduction  // Desc. Vale Transporte
    | UnionFee            // Contribuição Assistencial
    | InssBaseCompany     // Base INSS Empresa
    | InssBaseEmployee    // Base INSS Funcionário
    | FgtsBase            // Base F.G.T.S.
    | Fgts                // F.G.T.S.
    | TotalEarnings       // Total Proventos
    | TotalDeductions     // Total Descontos
    | NetPay              // Líquido a Receber

  /** The amount columns in the order a fresh record lists them. */
  const Columns: seq<Field> :=
    [ContractSalary, SalaryEarning, DsrOvertime, Overtime50, TransportRefund, InssOnSalary,
     IrrfOnSalary, TransportDeduction, UnionFee, InssBaseCompany, InssBaseEmployee, FgtsBase,
     Fgts, TotalEarnings, TotalDeductions, NetPay]

  /** Where a field sits among the columns. */
  function ColumnOf(f: Field): (c: nat)
    ensures c < |Columns| && Columns[c] == f
  {
    match f
    case ContractSalary => 0
    case SalaryEarning => 1
    case DsrOvertime => 2
    case Overtime50 => 3
    case TransportRefund => 4
    case InssOnSalary => 5
    case IrrfOnSalary => 6
    case TransportDeduction => 7
    case UnionFee => 8
    case InssBaseCompany => 9
    case InssBaseEmployee => 10
    case FgtsBase => 11
    case Fgts => 12
    case TotalEarnings => 13
    case TotalDeductions => 14
    case NetPay => 15
  }

  /** Each column sits at exactly one place. */
  lemma ColumnAt(j: nat)
    requires j < |Columns|
    ensures ColumnOf(Columns[j]) == j
  {
  }

  lemma EveryColumn()
    ensures forall f: Field :: f in Columns
  {
    forall f: Field ensures f in Columns {
      assert Columns[ColumnOf(f)] == f;
    }
  }

  /** The value every amount starts from. */
  const Zero: string := "0,00"

  /** What a `Contribuição Assistencial` item line stores, whatever amount the line shows. */
  const FeeMark: string := "10,00"

  /** The item whose presence in a block sets the union fee. */
  const UnionFeeItem: string := "Contribuição Assistencial"

  /** What a record inherits from its file and page: the first page's company, the CNPJ in force, the file name. */
  datatype Context = Context(company: string, cnpj: string, file: string)

  /** The `func_atual` dict: text columns, the optional `Admissão`, and the amounts still as text. */
  datatype Draft = Draft(company: string, cnpj: string, code: string, employee: string, role: string,
                         file: string, admission: Option<string>, amounts: map<Field, string>)

  /** Every amount column is present and holds a run of `[\d.,]`. */
  predicate Complete(d: Draft) {
    forall f: Field :: f in d.amounts && Patterns.IsAmount(d.amounts[f])
  }

  /** The sixteen amount columns of a freshly opened record. */
  function Blank(): (m: map<Field, string>)
    ensures forall f: Field :: f in m && m[f] == Zero
  {
    EveryColumn();
    map f | f in Columns :: Zero
  }

  /** A record opened by an opening line. */
  function Opened(ctx: Context, o: Patterns.OpenFields): (d: Draft)
    ensures d.admission.None? && d.amounts == Blank()
    ensures d.code == o.code && d.employee == Strip(o.name) && d.role == Strip(o.role)
    ensures d.company == ctx.company && d.cnpj == ctx.cnpj && d.file == ctx.file
  {
    Draft(ctx.company, ctx.cnpj, o.code, Strip(o.name), Strip(o.role), ctx.file, None, Blank())
  }

  /** An opened record has every amount column, each at "0,00". */
  lemma OpenedComplete(ctx: Context, o: Patterns.OpenFields)
    ensures Complete(Opened(ctx, o))
  {
    assert Patterns.IsAmount(Zero) by {
      assert forall j :: 0 <= j < |Zero| ==> IsAmountChar(Zero[j]);
    }
  }

  /** The value the pattern of field `f` reads from line `s`, if it matches. */
  function FieldMatch(s: string, f: Field): (r: Option<string>)
    ensures r.Some? ==> Patterns.IsAmount(r.value)
    ensures f == UnionFee ==> (r.Some? <==> Patterns.ItemPresent(s, UnionFeeItem))
    ensures f == UnionFee && r.Some? ==> r.value == FeeMark
  {
    match f
    case ContractSalary =>
      (match Patterns.ContractLine(s) case Some(c) => Some(c.salary) case None => None)
    case SalaryEarning => Patterns.ItemAmount(s, "Salário")
    case DsrOvertime => Patterns.ItemSingle(s, "D.S.R. Sobre Horas Extras")
    case Overtime50 => Patterns.ItemAmount(s, "Horas Extras 50%")
    case TransportRefund => Patterns.ItemSingle(s, "Reembolso Vale Transporte")
    case InssOnSalary => Patterns.ItemAmount(s, "INSS Sobre Salário")
    case IrrfOnSalary => Patterns.ItemAmount(s, "IRRF Sobre Salário")
    case TransportDeduction => Patterns.ItemAmount(s, "Desc. Vale Transporte")
    case UnionFee =>
      assert Patterns.IsAmount(FeeMark) by {
        assert forall j :: 0 <= j < |FeeMark| ==> IsAmountChar(FeeMark[j]);
      }
      if Patterns.ItemPresent(s, UnionFeeItem) then Some(FeeMark) else None
    case InssBaseCompany => Patterns.LabelAmount(s, "Base INSS Empresa:")
    case InssBaseEmployee => Patterns.LabelAmount(s, "Base INSS Funcionário:")
    case FgtsBase => Patterns.LabelAmount(s, "Base F.G.T.S.:")
    case Fgts => Patterns.LabelAmount(s, "F.G.T.S.:")
    case TotalEarnings =>
      (match Patterns.TotalsLine(s) case Some(t) => Some(t.earnings) case None => None)
    case TotalDeductions =>
      (match Patterns.TotalsLine(s) case Some(t) => Some(t.deductions) case None => None)
    case NetPay =>
      (match Patterns.TotalsLine(s) case Some(t) => Some(t.net) case None => None)
  }

  /** The admission date line `s` gives, if it is a contract line. */
  function AdmissionMatch(s: string): (r: Option<string>)
    ensures r.Some? ==> Patterns.HasShape(r.value, Patterns.DateShape)
  {
    match Patterns.ContractLine(s)
    case Some(c) => Some(c.admission)
    case None => None
  }

  /**
    What the patterns of processar_folha find on one line: an opening line,
    a totals line, a contract line's admission date, and the value of every
    amount column whose pattern matches.
  */
  datatype LineInfo = LineInfo(opening: Option<Patterns.OpenFields>, closing: bool,
                               admission: Option<string>, amounts: map<Field, string>)

  /** Every amount a line yields is a run of `[\d.,]`. */
  predicate Readable(c: LineInfo) {
    forall f :: f in c.amounts ==> Patterns.IsAmount(c.amounts[f])
  }

  /** The keys among `ks` for which `read` finds something, with what it finds. */
  function Gather<K, V>(ks: seq<K>, read: K -> Option<V>): map<K, V>
    decreases |ks|
  {
    if ks == [] then map[]
    else
      var m := Gather(ks[1..], read);
      match read(ks[0])
      case Some(v) => m[ks[0] := v]
      case None => m
  }

  lemma {:induction false} GatherMeaning<K, V>(ks: seq<K>, read: K -> Option<V>, k: K)
    ensures k in Gather(ks, read) <==> k in ks && read(k).Some?
    ensures k in Gather(ks, read) ==> Gather(ks, read)[k] == read(k).value
    decreases |ks|
  {
    if ks != [] {
      GatherMeaning(ks[1..], read, k);
      assert ks == [ks[0]] + ks[1..];
    }
  }

  /** The columns among `fs` whose pattern matches `s`, with the values read. */
  function Matches(s: string, fs: seq<Field>): map<Field, string> {
    Gather(fs, (f: Field) => FieldMatch(s, f))
  }

  lemma MatchesMeaning(s: string, fs: seq<Field>, f: Field)
    ensures f in Matches(s, fs) <==> f in fs && FieldMatch(s, f).Some?
    ensures f in Matches(s, fs) ==> Matches(s, fs)[f] == FieldMatch(s, f).value
  {
    GatherMeaning(fs, (f: Field) => FieldMatch(s, f), f);
  }

  function Classify(s: string): LineInfo {
    LineInfo(Patterns.OpenLine(s), Patterns.TotalsLine(s).Some?, AdmissionMatch(s), Matches(s, Columns))
  }

  /**
    A classified line records exactly the columns whose pattern matches it, with
    the values the patterns read, and each such value is a run of `[\d.,]`.
  */
  lemma ClassifyMeaning(s: string, f: Field)
    ensures f in Classify(s).amounts <==> FieldMatch(s, f).Some?
    ensures f in Classify(s).amounts ==> Classify(s).amounts[f] == FieldMatch(s, f).value
  {
    EveryColumn();
    MatchesMeaning(s, Columns, f);
  }

  lemma ClassifyReadable(s: string)
    ensures Readable(Classify(s))
  {
    forall f | f in Classify(s).amounts ensures Patterns.IsAmount(Classify(s).amounts[f]) {
      ClassifyMeaning(s, f);
    }
  }

  /** The lines of a page, classified. */
  function Infos(lines: seq<string>): (cs: seq<LineInfo>)
    ensures |cs| == |lines|
  {
    if lines == [] then [] else Infos(lines[..|lines| - 1]) + [Classify(lines[|lines| - 1])]
  }

  lemma {:induction false} InfosAt(lines: seq<string>, j: nat)
    requires j < |lines|
    ensures Infos(lines)[j] == Classify(lines[j])
    decreases |lines|
  {
    if j < |lines| - 1 {
      InfosAt(lines[..|lines| - 1], j);
    }
  }

  /** One line of an open record: each column whose pattern matches is overwritten, the rest keep theirs. */
  function Apply(d: Draft, c: LineInfo): Draft
  {
    d.(admission := if c.admission.Some? then c.admission else d.admission,
       amounts := d.amounts + c.amounts)
  }

  // ---------------------------------------------------------------------------
  // The lines of one page

  /** The open record (`func_atual`, None when empty) and the records handed over so far. */
  datatype LineState = LineState(slot: Option<Draft>, rows: seq<Draft>)

  /**
    What one line does: an opening line replaces the slot; otherwise, while a
    record is open, the line's matches are applied and a totals line hands the
    record over and empties the slot.
  */
  function Step(ctx: Context, st: LineState, c: LineInfo): LineState {
    match c.opening
    case Some(o) => LineState(Some(Opened(ctx, o)), st.rows)
    case None =>
      match st.slot
      case None => st
      case Some(d) =>
        var e := Apply(d, c);
        if c.closing then LineState(None, st.rows + [e]) else LineState(Some(e), st.rows)
  }

  /** The first `n` lines of a page, from an empty slot. */
  function RunLines(ctx: Context, cs: seq<LineInfo>, n: nat): (st: LineState)
    requires n <= |cs|
    ensures st.slot.Some? ==> st.slot.value.company == ctx.company && st.slot.value.cnpj == ctx.cnpj
                              && st.slot.value.file == ctx.file
    ensures forall d :: d in st.rows ==> d.company == ctx.company && d.cnpj == ctx.cnpj && d.file == ctx.file
  {
    if n == 0 then LineState(None, []) else Step(ctx, RunLines(ctx, cs, n - 1), cs[n - 1])
  }

  /** The lines of a block after its opening line, applied in order. */
  function Fill(d: Draft, cs: seq<LineInfo>): (e: Draft)
    ensures e.company == d.company && e.cnpj == d.cnpj && e.code == d.code
    ensures e.employee == d.employee && e.role == d.role && e.file == d.file
    decreases |cs|
  {
    if cs == [] then d else Apply(Fill(d, cs[..|cs| - 1]), cs[|cs| - 1])
  }

  /** The last of the first `n` lines on which a pattern of `f` matches. */
  function LastMatch(cs: seq<LineInfo>, n: nat, f: Field): (r: Option<nat>)
    requires n <= |cs|
    ensures r.Some? ==> r.value < n && f in cs[r.value].amounts
    ensures r.Some? ==> forall j :: r.value < j < n ==> f !in cs[j].amounts
    ensures r.None? ==> forall j :: 0 <= j < n ==> f !in cs[j].amounts
  {
    if n == 0 then None
    else if f in cs[n - 1].amounts then Some(n - 1)
    else LastMatch(cs, n - 1, f)
  }

  /** The last of the first `n` lines that is a contract line. */
  function LastContract(cs: seq<LineInfo>, n: nat): (r: Option<nat>)
    requires n <= |cs|
    ensures r.Some? ==> r.value < n && cs[r.value].admission.Some?
    ensures r.Some? ==> forall j :: r.value < j < n ==> cs[j].admission.None?
    ensures r.None? ==> forall j :: 0 <= j < n ==> cs[j].admission.None?
  {
    if n == 0 then None
    else if cs[n - 1].admission.Some? then Some(n - 1)
    else LastContract(cs, n - 1)
  }

  lemma {:induction false} SameLastMatch(a: seq<LineInfo>, b: seq<LineInfo>, n: nat, f: Field)
    requires n <= |a| && n <= |b| && forall j :: 0 <= j < n ==> a[j] == b[j]
    ensures LastMatch(a, n, f) == LastMatch(b, n, f)
  {
    if n > 0 {
      SameLastMatch(a, b, n - 1, f);
    }
  }

  lemma {:induction false} SameLastContract(a: seq<LineInfo>, b: seq<LineInfo>, n: nat)
    requires n <= |a| && n <= |b| && forall j :: 0 <= j < n ==> a[j] == b[j]
    ensures LastContract(a, n) == LastContract(b, n)
  {
    if n > 0 {
      SameLastContract(a, b, n - 1);
    }
  }

  /**
    Last match wins: after a run of lines, each amount column holds what the
    last line matching its pattern gave, or what it held before when none did.
  */
  lemma {:induction false} FillLastWins(d: Draft, cs: seq<LineInfo>, f: Field)
    requires f in d.amounts
    ensures f in Fill(d, cs).amounts
    ensures Fill(d, cs).amounts[f] ==
              match LastMatch(cs, |cs|, f)
              case Some(j) => cs[j].amounts[f]
              case None => d.amounts[f]
    decreases |cs|
  {
    if cs != [] {
      var init := cs[..|cs| - 1];
      FillLastWins(d, init, f);
      SameLastMatch(init, cs, |init|, f);
    }
  }

  /** `Admissão` is set only by a contract line: the last one of the run, if any. */
  lemma {:induction false} FillAdmission(d: Draft, cs: seq<LineInfo>)
    ensures Fill(d, cs).admission ==
              match LastContract(cs, |cs|)
              case Some(j) => cs[j].admission
              case None => d.admission
    decreases |cs|
  {
    if cs != [] {
      var init := cs[..|cs| - 1];
      FillAdmission(d, init);
      SameLastContract(init, cs, |init|);
    }
  }

  /** The last of the first `n` lines that is an opening line. */
  function LastOpening(cs: seq<LineInfo>, n: nat): (r: Option<nat>)
    requires n <= |cs|
    ensures r.Some? ==> r.value < n && cs[r.value].opening.Some?
    ensures r.Some? ==> forall j :: r.value < j < n ==> cs[j].opening.None?
    ensures r.None? ==> forall j :: 0 <= j < n ==> cs[j].opening.None?
  {
    if n == 0 then None
    else if cs[n - 1].opening.Some? then Some(n - 1)
    else LastOpening(cs, n - 1)
  }

  /**
    The opening line of the record still open after the first `n` lines: the
    last opening line, unless a totals line has closed its record since.
  */
  function OpenSince(cs: seq<LineInfo>, n: nat): (r: Option<nat>)
    requires n <= |cs|
    ensures r.Some? ==> r.value < n && cs[r.value].opening.Some?
    ensures r.Some? ==> forall j :: r.value < j < n ==> cs[j].opening.None? && !cs[j].closing
    ensures r.None? && LastOpening(cs, n).Some? ==>
              exists j :: LastOpening(cs, n).value < j < n && cs[j].closing
  {
    match LastOpening(cs, n)
    case None => None
    case Some(o) => if exists j :: o < j < n && cs[j].closing then None else Some(o)
  }

  /** The record a block holds: opened by line `o`, then every later line before `n` applied. */
  function BlockRecord(ctx: Context, cs: seq<LineInfo>, o: nat, n: nat): Draft
    requires o < n <= |cs| && cs[o].opening.Some?
  {
    Fill(Opened(ctx, cs[o].opening.value), cs[o + 1..n])
  }

  /** How the open block moves on at a line that opens nothing. */
  lemma OpenSinceStep(cs: seq<LineInfo>, n: nat)
    requires 0 < n <= |cs| && cs[n - 1].opening.None?
    ensures OpenSince(cs, n) == if OpenSince(cs, n - 1).Some? && !cs[n - 1].closing then OpenSince(cs, n - 1) else None
  {
    assert LastOpening(cs, n) == LastOpening(cs, n - 1);
    if LastOpening(cs, n - 1).Some? {
      var o := LastOpening(cs, n - 1).value;
      if OpenSince(cs, n - 1).None? {
        var j :| o < j < n - 1 && cs[j].closing;
        assert o < j < n && cs[j].closing;
      } else if cs[n - 1].closing {
        assert o < n - 1 < n && cs[n - 1].closing;
      } else {
        assert forall j :: o < j < n ==> !cs[j].closing;
      }
    }
  }

  /** A block grows by one line at a time. */
  lemma BlockRecordStep(ctx: Context, cs: seq<LineInfo>, o: nat, n: nat)
    requires o + 1 < n <= |cs| && cs[o].opening.Some?
    ensures BlockRecord(ctx, cs, o, n) == Apply(BlockRecord(ctx, cs, o, n - 1), cs[n - 1])
  {
    assert cs[o + 1..n][..n - o - 2] == cs[o + 1..n - 1];
  }

  /** An opening line holds the block it opens, with nothing applied yet. */
  lemma SlotAtOpening(ctx: Context, cs: seq<LineInfo>, n: nat)
    requires 0 < n <= |cs| && cs[n - 1].opening.Some?
    ensures OpenSince(cs, n) == Some(n - 1)
    ensures RunLines(ctx, cs, n).slot ==
              match OpenSince(cs, n)
              case None => None
              case Some(o) => Some(BlockRecord(ctx, cs, o, n))
  {
    assert cs[n..n] == [];
    assert RunLines(ctx, cs, n).slot == Some(BlockRecord(ctx, cs, n - 1, n));
  }

  /** Any other line moves the open block on, or closes it. */
  lemma SlotAtOther(ctx: Context, cs: seq<LineInfo>, n: nat)
    requires 0 < n <= |cs| && cs[n - 1].opening.None?
    requires RunLines(ctx, cs, n - 1).slot ==
               match OpenSince(cs, n - 1)
               case None => None
               case Some(o) => Some(BlockRecord(ctx, cs, o, n - 1))
    ensures RunLines(ctx, cs, n).slot ==
              match OpenSince(cs, n)
              case None => None
              case Some(o) => Some(BlockRecord(ctx, cs, o, n))
  {
    OpenSinceStep(cs, n);
    var prev := OpenSince(cs, n - 1);
    if prev.Some? {
      BlockRecordStep(ctx, cs, prev.value, n);
    }
  }

  /** The open record is exactly the block of the last opening line that no totals line has closed. */
  lemma {:induction false} SlotIsOpenBlock(ctx: Context, cs: seq<LineInfo>, n: nat)
    requires n <= |cs|
    ensures RunLines(ctx, cs, n).slot ==
              match OpenSince(cs, n)
              case None => None
              case Some(o) => Some(BlockRecord(ctx, cs, o, n))
  {
    if n > 0 {
      SlotIsOpenBlock(ctx, cs, n - 1);
      if cs[n - 1].opening.Some? {
        SlotAtOpening(ctx, cs, n);
      } else {
        SlotAtOther(ctx, cs, n);
      }
    }
  }

  /**
    A record is handed over exactly at a totals line (that is not an opening
    line) while a record is open, and what is handed over is that record's
    block up to and including the totals line.
  */
  lemma BlockClosesAt(ctx: Context, cs: seq<LineInfo>, n: nat)
    requires 0 < n <= |cs|
    ensures var c := cs[n - 1];
            var closes := c.opening.None? && c.closing && OpenSince(cs, n - 1).Some?;
            RunLines(ctx, cs, n).rows ==
              RunLines(ctx, cs, n - 1).rows
              + (if closes then [BlockRecord(ctx, cs, OpenSince(cs, n - 1).value, n)] else [])
  {
    SlotIsOpenBlock(ctx, cs, n - 1);
    var o := OpenSince(cs, n - 1);
    if o.Some? && cs[n - 1].opening.None? {
      BlockRecordStep(ctx, cs, o.value, n);
    }
  }

  /**
    The contents of a handed-over record: the opening line's code, name and
    role; each amount from the last line of the block that matched it, else
    "0,00"; `Admissão` only from a contract line of the block.
  */
  lemma BlockContents(ctx: Context, cs: seq<LineInfo>, o: nat, n: nat, f: Field)
    requires o < n <= |cs| && cs[o].opening.Some?
    ensures var r := BlockRecord(ctx, cs, o, n);
            var open := cs[o].opening.value;
            var body := cs[o + 1..n];
            && r.code == open.code && r.employee == Strip(open.name) && r.role == Strip(open.role)
            && r.company == ctx.company && r.cnpj == ctx.cnpj && r.file == ctx.file
            && f in r.amounts
            && r.amounts[f] == (match LastMatch(body, |body|, f)
                                case Some(j) => body[j].amounts[f]
                                case None => Zero)
            && r.admission == (match LastContract(body, |body|)
                               case Some(j) => body[j].admission
                               case None => None)
  {
    var d := Opened(ctx, cs[o].opening.value);
    FillLastWins(d, cs[o + 1..n], f);
    FillAdmission(d, cs[o + 1..n]);
  }

  /** The amount of a column some line of the block matched is the text the last such line read. */
  lemma BlockAmountMatched(ctx: Context, cs: seq<LineInfo>, o: nat, n: nat, f: Field, j: nat)
    requires o < n <= |cs| && cs[o].opening.Some?
    requires LastMatch(cs[o + 1..n], n - o - 1, f) == Some(j)
    ensures o + 1 + j < n && f in cs[o + 1 + j].amounts
    ensures f in BlockRecord(ctx, cs, o, n).amounts
    ensures BlockRecord(ctx, cs, o, n).amounts[f] == cs[o + 1 + j].amounts[f]
  {
    var body := cs[o + 1..n];
    BlockContents(ctx, cs, o, n, f);
    assert body[j] == cs[o + 1 + j];
  }

  /** A contract line written in the report's format gives its admission date and its salary. */
  lemma ContractLineReads(s: string, k: nat, x0: nat, m: nat, b: nat, f: nat)
    requires Layouts.ContractText(s, k, x0, m, b, f)
    ensures AdmissionMatch(s) == Some(s[x0..x0 + 10])
    ensures FieldMatch(s, ContractSalary) == Some(s[b..f])
  {
    Layouts.ContractIs(s, k, x0, m, b, f);
  }

  /** An item line `Contribuição Assistencial` with an amount marks the union fee. */
  lemma UnionFeeLineReads(s: string, k: nat, e: nat, b: nat)
    requires k < e && e + |UnionFeeItem| < b < |s|
    requires forall j {:trigger IsDigit(s[j])} :: k <= j < e ==> IsDigit(s[j])
    requires LitAt(s, e, UnionFeeItem)
    requires forall j {:trigger IsSpace(s[j])} :: e + |UnionFeeItem| <= j < b ==> IsSpace(s[j])
    requires IsAmountChar(s[b])
    ensures FieldMatch(s, UnionFee) == Some(FeeMark)
  {
    Layouts.ItemPresentIs(s, k, e, UnionFeeItem, b);
  }

  /** A classified line holds the union fee exactly when it carries the item, and then holds "10,00". */
  lemma LineUnionFee(lines: seq<string>, j: nat)
    requires j < |lines|
    ensures UnionFee in Infos(lines)[j].amounts <==> Patterns.ItemPresent(lines[j], UnionFeeItem)
    ensures UnionFee in Infos(lines)[j].amounts ==> Infos(lines)[j].amounts[UnionFee] == FeeMark
  {
    InfosAt(lines, j);
    ClassifyMeaning(lines[j], UnionFee);
  }

  /**
    The union-fee column of a handed-over record is "10,00" when some line of
    the block carries the `Contribuição Assistencial` item, and "0,00" otherwise.
  */
  lemma BlockUnionFee(ctx: Context, lines: seq<string>, o: nat, n: nat)
    requires o < n <= |lines| && Infos(lines)[o].opening.Some?
    ensures UnionFee in BlockRecord(ctx, Infos(lines), o, n).amounts
    ensures var fee := BlockRecord(ctx, Infos(lines), o, n).amounts[UnionFee];
            && (fee == FeeMark || fee == Zero)
            && (fee == FeeMark <==> exists j :: o < j < n && Patterns.ItemPresent(lines[j], UnionFeeItem))
  {
    var cs := Infos(lines);
    forall j | o < j < n
      ensures UnionFee in cs[j].amounts <==> Patterns.ItemPresent(lines[j], UnionFeeItem)
      ensures UnionFee in cs[j].amounts ==> cs[j].amounts[UnionFee] == FeeMark
    {
      LineUnionFee(lines, j);
    }
    BlockFeeOf(ctx, cs, lines, o, n);
  }

  /** The union fee of a block whose lines hold "10,00" exactly where they carry the item. */
  lemma BlockFeeOf(ctx: Context, cs: seq<LineInfo>, lines: seq<string>, o: nat, n: nat)
    requires o < n <= |cs| && n <= |lines| && cs[o].opening.Some?
    requires forall j :: o < j < n ==> (UnionFee in cs[j].amounts <==> Patterns.ItemPresent(lines[j], UnionFeeItem))
    requires forall j :: o < j < n && UnionFee in cs[j].amounts ==> cs[j].amounts[UnionFee] == FeeMark
    ensures UnionFee in BlockRecord(ctx, cs, o, n).amounts
    ensures var fee := BlockRecord(ctx, cs, o, n).amounts[UnionFee];
            && (fee == FeeMark || fee == Zero)
            && (fee == FeeMark <==> exists j :: o < j < n && Patterns.ItemPresent(lines[j], UnionFeeItem))
  {
    var last := LastMatch(cs[o + 1..n], n - o - 1, UnionFee);
    if last.Some? {
      BlockAmountMatched(ctx, cs, o, n, UnionFee, last.value);
    } else {
      BlockAmountUntouched(ctx, cs, o, n, UnionFee);
      forall j | o < j < n ensures UnionFee !in cs[j].amounts {
        assert cs[o + 1..n][j - o - 1] == cs[j];
      }
    }
  }

  /** The amount of a column no line of the block matched stays at "0,00". */
  lemma BlockAmountUntouched(ctx: Context, cs: seq<LineInfo>, o: nat, n: nat, f: Field)
    requires o < n <= |cs| && cs[o].opening.Some?
    requires LastMatch(cs[o + 1..n], n - o - 1, f).None?
    ensures f in BlockRecord(ctx, cs, o, n).amounts && BlockRecord(ctx, cs, o, n).amounts[f] == Zero
  {
    BlockContents(ctx, cs, o, n, f);
  }

  /** Every record handed over has all sixteen amount columns, each a run of `[\d.,]`. */
  lemma {:induction false} RowsComplete(ctx: Context, cs: seq<LineInfo>, n: nat)
    requires n <= |cs| && forall j :: 0 <= j < |cs| ==> Readable(cs[j])
    ensures RunLines(ctx, cs, n).slot.Some? ==> Complete(RunLines(ctx, cs, n).slot.value)
    ensures forall d :: d in RunLines(ctx, cs, n).rows ==> Complete(d)
  {
    if n > 0 {
      RowsComplete(ctx, cs, n - 1);
      StepComplete(ctx, RunLines(ctx, cs, n - 1), cs[n - 1]);
    }
  }

  /** A step from a state whose records are all complete, on a line that reads amounts, keeps them complete. */
  lemma StepComplete(ctx: Context, st: LineState, c: LineInfo)
    requires Readable(c)
    requires st.slot.Some? ==> Complete(st.slot.value)
    requires forall d :: d in st.rows ==> Complete(d)
    ensures Step(ctx, st, c).slot.Some? ==> Complete(Step(ctx, st, c).slot.value)
    ensures forall d :: d in Step(ctx, st, c).rows ==> Complete(d)
  {
    if c.opening.Some? {
      OpenedComplete(ctx, c.opening.value);
    } else if st.slot.Some? {
      assert Complete(Apply(st.slot.value, c));
    }
  }

  /**
    A page without an opening line hands over nothing, whatever totals lines it
    has: the slot starts empty on every page, so a record whose totals line
    falls on the next page is lost.
  */
  lemma {:induction false} NoOpeningNoRecords(ctx: Context, cs: seq<LineInfo>, n: nat)
    requires n <= |cs|
    requires forall j :: 0 <= j < n ==> cs[j].opening.None?
    ensures RunLines(ctx, cs, n) == LineState(None, [])
  {
    if n > 0 {
      NoOpeningNoRecords(ctx, cs, n - 1);
    }
  }

  /**
    The unanchored `F\.G\.T\.S\.:` pattern also matches inside `Base F.G.T.S.:`,
    reading the same amount.
  */
  lemma FgtsInsideBase(s: string, i: nat)
    requires i <= |s| && Patterns.LabelAmountAt(s, i, "Base F.G.T.S.:").Some?
    ensures Patterns.LabelAmountAt(s, i + 5, "F.G.T.S.:") == Patterns.LabelAmountAt(s, i, "Base F.G.T.S.:")
    ensures FieldMatch(s, Fgts).Some?
  {
    FgtsLabelInsideBase(s, i);
    FgtsFound(s, i + 5);
  }

  lemma FgtsFound(s: string, k: nat)
    requires k <= |s| && Patterns.LabelAmountAt(s, k, "F.G.T.S.:").Some?
    ensures FieldMatch(s, Fgts).Some?
  {
    FgtsLabelFound(s, k);
  }

  lemma FgtsLabelFound(s: string, k: nat)
    requires k <= |s| && Patterns.LabelAmountAt(s, k, "F.G.T.S.:").Some?
    ensures Patterns.LabelAmount(s, "F.G.T.S.:").Some?
  {
    var p := (k: nat) => k <= |s| && Patterns.LabelAmountAt(s, k, "F.G.T.S.:").Some?;
    FindSome(0, |s|, p, k);
  }

  lemma FgtsLabelInsideBase(s: string, i: nat)
    requires i <= |s| && LitAt(s, i, "Base F.G.T.S.:")
    ensures Patterns.LabelAmountAt(s, i + 5, "F.G.T.S.:") == Patterns.LabelAmountAt(s, i, "Base F.G.T.S.:")
  {
    assert s[i + 5..i + 14] == s[i..i + 14][5..];
  }

  /** The amount after a label and one space, running to the end of the line. */
  lemma AmountAfterSpace(s: string, k: nat, v: string)
    requires Patterns.IsAmount(v) && k < |s| && s[k] == ' ' && s[k + 1..] == v
    ensures Patterns.AmountAfter(s, k) == Some(v)
  {
    assert IsSpace(s[k]);
    assert s[k + 1] == v[0];
    RunEndAt(s, k, k + 1, IsSpace);
    assert forall j :: k + 1 <= j < |s| ==> s[j] == v[j - k - 1];
    assert AmountEnd(s, k + 1) == |s|;
    assert s[k + 1..|s|] == v;
  }

  /** So a line that only shows the FGTS base fills the F.G.T.S. column with the base. */
  lemma FgtsReadsBase(line: string, v: string)
    requires Patterns.IsAmount(v) && line == "Base F.G.T.S.: " + v
    ensures FieldMatch(line, Fgts) == Some(v)
  {
    FgtsLabelReadsBase(v);
  }

  /** The same line fills the base column with the base, as intended. */
  lemma BaseReadsBase(line: string, v: string)
    requires Patterns.IsAmount(v) && line == "Base F.G.T.S.: " + v
    ensures FieldMatch(line, FgtsBase) == Some(v)
  {
    BaseLabelReadsBase(v);
  }

  lemma BaseLabelReadsBase(v: string)
    requires Patterns.IsAmount(v)
    ensures Patterns.LabelAmount("Base F.G.T.S.: " + v, "Base F.G.T.S.:") == Some(v)
  {
    var s := "Base F.G.T.S.: " + v;
    assert s[0..14] == "Base F.G.T.S.:";
    assert s[15..] == v;
    AmountAfterSpace(s, 14, v);
    assert Patterns.LabelAmountAt(s, 0, "Base F.G.T.S.:") == Some(v);
    var pb := (k: nat) => k <= |s| && Patterns.LabelAmountAt(s, k, "Base F.G.T.S.:").Some?;
    assert pb(0);
  }

  lemma FgtsLabelReadsBase(v: string)
    requires Patterns.IsAmount(v)
    ensures Patterns.LabelAmount("Base F.G.T.S.: " + v, "F.G.T.S.:") == Some(v)
  {
    var s := "Base F.G.T.S.: " + v;
    FgtsLabelAfterBase(s, v);
    NoFgtsLabelInBase(s, v);
    var p := (k: nat) => k <= |s| && Patterns.LabelAmountAt(s, k, "F.G.T.S.:").Some?;
    FindFirst(0, |s|, p, 5);
  }

  lemma FgtsLabelAfterBase(s: string, v: string)
    requires Patterns.IsAmount(v) && s == "Base F.G.T.S.: " + v
    ensures Patterns.LabelAmountAt(s, 5, "F.G.T.S.:") == Some(v)
  {
    assert s[5..14] == "F.G.T.S.:";
    assert s[15..] == v;
    AmountAfterSpace(s, 14, v);
  }

  lemma NoFgtsLabelInBase(s: string, v: string)
    requires s == "Base F.G.T.S.: " + v
    ensures forall k :: 0 <= k < 5 ==> Patterns.LabelAmountAt(s, k, "F.G.T.S.:").None?
  {
    forall k | 0 <= k < 5 ensures Patterns.LabelAmountAt(s, k, "F.G.T.S.:").None? {
      assert s[k] == "Base "[k];
      assert !LitAt(s, k, "F.G.T.S.:") by {
        if k + 9 <= |s| { assert s[k..k + 9][0] == s[k]; }
      }
    }
  }

  // ---------------------------------------------------------------------------
  // The pages of one file

  /** The first page's header: the stripped `Razão Social` name, or the placeholder. */
  function HeaderCompany(first: string): string {
    match Patterns.CompanyName(first)
    case Some(n) => Strip(n)
    case None => Values.NotFound
  }

  /** The CNPJ in force once a page has been read: its own `CNPJ/CEI:` value, stripped, or the one before. */
  function CnpjAfter(cnpj: string, text: string): string {
    match Patterns.CnpjCei(text)
    case Some(v) => Strip(v)
    case None => cnpj
  }

  datatype Progress = Progress(cnpj: string, rows: seq<Draft>)

  /** The first `n` pages of a file whose company is `company` and whose header CNPJ is `cnpj0`. */
  function RunPayrollPages(company: string, file: string, cnpj0: string, pages: seq<Option<string>>, n: nat): (p: Progress)
    requires n <= |pages|
    ensures forall d :: d in p.rows ==> d.company == company && d.file == file
  {
    if n == 0 then Progress(cnpj0, [])
    else
      var p := RunPayrollPages(company, file, cnpj0, pages, n - 1);
      if !HasText(pages[n - 1]) then p
      else
        var text := pages[n - 1].value;
        var cnpj := CnpjAfter(p.cnpj, text);
        var cs := Infos(SplitLines(text));
        Progress(cnpj, p.rows + RunLines(Context(company, cnpj, file), cs, |cs|).rows)
  }

  /**
    One file: it cannot be opened, or its first page has no text at all (the
    header search is handed None and raises), and it adds only its name to the
    failures; otherwise the company and CNPJ come from the first page and the
    pages are read in order.
  */
  function FileDrafts(doc: Document): (ex: Extraction<Draft>)
    ensures ex.failed == [] || ex.failed == [doc.name]
    ensures ex.failed != [] ==> ex.rows == []
    ensures forall d :: d in ex.rows ==> d.file == doc.name
    ensures ex.rows != [] ==> doc.pages.Some? && |doc.pages.value| > 0 && doc.pages.value[0].Some?
    ensures forall d :: d in ex.rows ==> d.company == HeaderCompany(doc.pages.value[0].value)
  {
    match doc.pages
    case None => Extraction([], [doc.name])
    case Some(pages) =>
      if |pages| > 0 && pages[0].None? then Extraction([], [doc.name])
      else
        var company := if |pages| > 0 then HeaderCompany(pages[0].value) else Values.NotFound;
        var cnpj := if |pages| > 0 then CnpjAfter(Values.NotFound, pages[0].value) else Values.NotFound;
        Extraction(RunPayrollPages(company, doc.name, cnpj, pages, |pages|).rows, [])
  }

  /** The first `n` files of a batch. */
  function PayrollCollect(docs: seq<Document>, n: nat): (ex: Extraction<Draft>)
    requires n <= |docs|
  {
    if n == 0 then Extraction([], [])
    else
      var ex := PayrollCollect(docs, n - 1);
      var more := FileDrafts(docs[n - 1]);
      Extraction(ex.rows + more.rows, ex.failed + more.failed)
  }

  /** The CNPJ in force after the first `n` pages: the last `CNPJ/CEI:` value among them, stripped, or the placeholder. */
  function CnpjInForce(pages: seq<Option<string>>, n: nat): string
    requires n <= |pages|
  {
    if n == 0 then Values.NotFound
    else if pages[n - 1].Some? && Patterns.CnpjCei(pages[n - 1].value).Some? then
      Strip(Patterns.CnpjCei(pages[n - 1].value).value)
    else CnpjInForce(pages, n - 1)
  }

  /**
    The header CNPJ and the per-page updates agree: after reading the first `n`
    pages the CNPJ in force is the last page value seen, or the placeholder.
  */
  lemma {:induction false} CarriedCnpj(company: string, file: string, pages: seq<Option<string>>, n: nat)
    requires 1 <= n <= |pages| && pages[0].Some?
    ensures RunPayrollPages(company, file, CnpjAfter(Values.NotFound, pages[0].value), pages, n).cnpj
            == CnpjInForce(pages, n)
  {
    if n > 1 {
      CarriedCnpj(company, file, pages, n - 1);
    } else {
      assert Patterns.CnpjCei("") == None by {
        assert Patterns.CnpjCeiAt("", 0) == None;
      }
    }
  }

  /**
    The records of page `n - 1` are appended after those of the earlier pages,
    and carry the CNPJ in force on that page.
  */
  lemma PageRecordsCarryCnpj(company: string, file: string, pages: seq<Option<string>>, n: nat)
    requires 1 <= n <= |pages| && pages[0].Some?
    ensures var cnpj0 := CnpjAfter(Values.NotFound, pages[0].value);
            var before := RunPayrollPages(company, file, cnpj0, pages, n - 1).rows;
            var after := RunPayrollPages(company, file, cnpj0, pages, n).rows;
            && before <= after
            && forall j :: |before| <= j < |after| ==> after[j].cnpj == CnpjInForce(pages, n)
  {
    CarriedCnpj(company, file, pages, n);
    var cnpj0 := CnpjAfter(Values.NotFound, pages[0].value);
    var before := RunPayrollPages(company, file, cnpj0, pages, n - 1).rows;
    var after := RunPayrollPages(company, file, cnpj0, pages, n).rows;
    if HasText(pages[n - 1]) {
      var text := pages[n - 1].value;
      var cs := Infos(SplitLines(text));
      var ctx := Context(company, CnpjAfter(RunPayrollPages(company, file, cnpj0, pages, n - 1).cnpj, text), file);
      var added := RunLines(ctx, cs, |cs|).rows;
      assert after == before + added;
      forall j | |before| <= j < |after| ensures after[j].cnpj == CnpjInForce(pages, n) {
        assert after[j] == added[j - |before|];
        assert added[j - |before|] in added;
      }
    }
  }

  // ---------------------------------------------------------------------------
  // The loops

  /** One line, on `func_atual` held in `st.slot` and the records handed over in `st.rows`. */
  method ReadLine(ctx: Context, st: LineState, c: LineInfo) returns (next: LineState)
    ensures next == Step(ctx, st, c)
  {
    next := st;
    if c.opening.Some? {
      next := next.(slot := Some(Opened(ctx, c.opening.value)));
    } else if st.slot.Some? {
      var e := Apply(st.slot.value, c);
      if c.closing {
        next := LineState(None, st.rows + [e]);
      } else {
        next := next.(slot := Some(e));
      }
    }
  }

  /** Runs every pattern on line `i` of a page. */
  method ClassifyAt(lines: seq<string>, i: nat) returns (c: LineInfo)
    requires i < |lines|
    ensures c == Infos(lines)[i]
  {
    c := Classify(lines[i]);
    InfosAt(lines, i);
  }

  /** The patterns run on every line of a page, in order. */
  method ClassifyLines(lines: seq<string>) returns (cs: seq<LineInfo>)
    ensures cs == Infos(lines)
  {
    cs := [];
    var i := 0;
    while i < |lines|
      invariant i <= |lines| && |cs| == i
      invariant forall j :: 0 <= j < i ==> cs[j] == Infos(lines)[j]
    {
      var c := ClassifyAt(lines, i);
      cs := cs + [c];
      i := i + 1;
    }
  }

  /** The classified lines of one page, read from an empty slot. */
  method RunPage(ctx: Context, cs: seq<LineInfo>) returns (rows: seq<Draft>)
    ensures rows == RunLines(ctx, cs, |cs|).rows
  {
    var st := LineState(None, []);
    var i := 0;
    while i < |cs|
      invariant i <= |cs|
      invariant RunLines(ctx, cs, i) == st
    {
      st := ReadLine(ctx, st, cs[i]);
      i := i + 1;
    }
    rows := st.rows;
  }

  /** The lines of one page, from an empty slot. */
  method ScanLines(ctx: Context, lines: seq<string>) returns (rows: seq<Draft>)
    ensures rows == RunLines(ctx, Infos(lines), |lines|).rows
  {
    var cs := ClassifyLines(lines);
    rows := RunPage(ctx, cs);
  }

  /** One file: the header, then every page with text, the CNPJ carried in a local. */
  method ScanPayrollFile(doc: Document) returns (ex: Extraction<Draft>)
    ensures ex == FileDrafts(doc)
  {
    if doc.pages.None? {
      return Extraction([], [doc.name]);
    }
    var pages := doc.pages.value;
    if |pages| > 0 && pages[0].None? {
      return Extraction([], [doc.name]);
    }
    var company := Values.NotFound;
    var cnpj := Values.NotFound;
    if |pages| > 0 {
      company := HeaderCompany(pages[0].value);
      cnpj := CnpjAfter(cnpj, pages[0].value);
    }
    var cnpj0 := cnpj;
    var rows: seq<Draft> := [];
    var k := 0;
    while k < |pages|
      invariant k <= |pages|
      invariant RunPayrollPages(company, doc.name, cnpj0, pages, k) == Progress(cnpj, rows)
    {
      if HasText(pages[k]) {
        var text := pages[k].value;
        cnpj := CnpjAfter(cnpj, text);
        var more := ScanLines(Context(company, cnpj, doc.name), SplitLines(text));
        rows := rows + more;
      }
      k := k + 1;
    }
    ex := Extraction(rows, []);
  }

  /** No file read yet: nothing collected. */
  lemma CollectNothing(docs: seq<Document>)
    ensures PayrollCollect(docs, 0) == Extraction([], [])
  {
  }

  /** The extraction loop of processar_folha over every file, before the amounts are converted. */
  method ExtractPayroll(docs: seq<Document>) returns (ex: Extraction<Draft>)
    ensures ex == PayrollCollect(docs, |docs|)
  {
    ex := Extraction([], []);
    CollectNothing(docs);
    var n := 0;
    while n < |docs|
      invariant n <= |docs| && ex == PayrollCollect(docs, n)
    {
      ex := AddPayrollFile(docs, n, ex);
      n := n + 1;
    }
  }

  /** One more file read, its records and failure appended to those of the files before it. */
  method AddPayrollFile(docs: seq<Document>, n: nat, ex: Extraction<Draft>) returns (next: Extraction<Draft>)
    requires n < |docs| && ex == PayrollCollect(docs, n)
    ensures next == PayrollCollect(docs, n + 1)
  {
    var more := ScanPayrollFile(docs[n]);
    next := Extraction(ex.rows + more.rows, ex.failed + more.failed);
  }
}
