/**
  processar_assistencial (app.py:67-110): a union-fee record needs two lines,
  a name line and, right below it on the same page, a values line.
*/
module Assist {
  import opened Wrappers
  import opened Text
  import Values
  import Patterns
  import opened Batch

  datatype FeeRow = FeeRow(cnpj: string, code: string, employee: string, role: string, admission: string,
                           salaryBase: real, fee: real, file: string)

  /** A name line at `i` with a values line at `i + 1`: the line pair a record is built from. */
  predicate PairAt(page: Page, i: nat) {
    && i + 1 < |page.lines|
    && Patterns.MemberLine(page.lines[i]).Some?
    && Patterns.FeeLine(page.lines[i + 1]).Some?
  }

  /**
    One line: a record when it is a name line and the next line is a values
    line; the salary is converted before the fee, and either conversion may
    raise.  The last line of a page has no line below it and yields nothing.
  */
  function FeeRule(page: Page, i: nat): (st: Step<FeeRow>)
    ensures !st.Skip? <==> PairAt(page, i)
    ensures PairAt(page, i) ==>
              var v := Patterns.FeeLine(page.lines[i + 1]).value;
              (st.Abort? <==> Values.ToNumber(Values.Text(v.salary)).Failure?
                              || Values.ToNumber(Values.Text(v.fee)).Failure?)
    ensures st.Emit? ==>
              var m := Patterns.MemberLine(page.lines[i]).value;
              var v := Patterns.FeeLine(page.lines[i + 1]).value;
              && st.row.cnpj == page.cnpj && st.row.file == page.file
              && st.row.code == m.code && st.row.employee == Strip(m.name) && st.row.role == Strip(m.role)
              && st.row.admission == v.admission
              && Values.ToNumber(Values.Text(v.salary)) == Success(st.row.salaryBase)
              && Values.ToNumber(Values.Text(v.fee)) == Success(st.row.fee)
  {
    if i + 1 >= |page.lines| then Skip
    else match Patterns.MemberLine(page.lines[i])
      case None => Skip
      case Some(m) =>
        match Patterns.FeeLine(page.lines[i + 1])
        case None => Skip
        case Some(v) =>
          match Values.ToNumber(Values.Text(v.salary))
          case Failure(_) => Abort
          case Success(salary) =>
            match Values.ToNumber(Values.Text(v.fee))
            case Failure(_) => Abort
            case Success(fee) =>
              Emit(FeeRow(page.cnpj, m.code, Strip(m.name), Strip(m.role), v.admission, salary, fee, page.file))
  }

  /** processar_assistencial: the records of all files and the names of the files that raised. */
  method ExtractFees(docs: seq<Document>) returns (ex: Extraction<FeeRow>)
    ensures ex == Collect(FeeRule, docs, |docs|)
  {
    ex := ScanDocuments(FeeRule, docs);
  }

  /**
    Every record of a page comes from a name line immediately followed by a
    values line of that page, and carries the page's CNPJ and file name.
  */
  lemma PageRowsComeFromPairs(page: Page)
    ensures var steps := PageSteps(FeeRule, page);
            forall r :: r in RunSteps(steps, |steps|).rows ==>
              && r.cnpj == page.cnpj && r.file == page.file
              && exists i: nat :: PairAt(page, i) && steps[i] == Emit(r)
  {
    var steps := PageSteps(FeeRule, page);
    RowsAreEmitted(steps, |steps|);
    forall r: FeeRow | r in RunSteps(steps, |steps|).rows
      ensures && r.cnpj == page.cnpj && r.file == page.file
              && exists i: nat :: PairAt(page, i) && steps[i] == Emit(r)
    {
      assert Emit(r) in steps[..|steps|];
      var i :| 0 <= i < |steps| && steps[i] == Emit(r);
      assert FeeRule(page, i) == Emit(r);
      assert PairAt(page, i);
    }
  }
}
