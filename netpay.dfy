/**
  processar_liquidos (app.py:30-64): every line of a net-pay report that
  matches the record pattern becomes one record, stamped with the CNPJ found
  on that page and the file name.
*/
module NetPay {
  import opened Wrappers
  import opened Text
  import Values
  import Patterns
  import opened Batch

  datatype NetPayRow = NetPayRow(cnpj: string, code: string, employee: string, cpf: string,
                                 paidOn: string, net: real, file: string)

  /**
    One line: no match is skipped; a match whose amount `limpar_valor` rejects
    raises; any other match is a record.
  */
  function NetPayRule(page: Page, i: nat): (st: Step<NetPayRow>)
    ensures i >= |page.lines| ==> st.Skip?
    ensures i < |page.lines| ==>
              (st.Skip? <==> Patterns.NetPayLine(page.lines[i]).None?)
    ensures i < |page.lines| && Patterns.NetPayLine(page.lines[i]).Some? ==>
              var f := Patterns.NetPayLine(page.lines[i]).value;
              (st.Abort? <==> Values.ToNumber(Values.Text(f.amount)).Failure?)
    ensures st.Emit? ==>
              var f := Patterns.NetPayLine(page.lines[i]).value;
              && st.row.cnpj == page.cnpj && st.row.file == page.file
              && st.row.code == f.code && st.row.employee == Strip(f.name)
              && st.row.cpf == f.cpf && st.row.paidOn == f.paidOn
              && Values.ToNumber(Values.Text(f.amount)) == Success(st.row.net)
  {
    if i >= |page.lines| then Skip
    else match Patterns.NetPayLine(page.lines[i])
      case None => Skip
      case Some(f) =>
        match Values.ToNumber(Values.Text(f.amount))
        case Failure(_) => Abort
        case Success(v) => Emit(NetPayRow(page.cnpj, f.code, Strip(f.name), f.cpf, f.paidOn, v, page.file))
  }

  /** processar_liquidos: the records of all files and the names of the files that raised. */
  method ExtractNetPay(docs: seq<Document>) returns (ex: Extraction<NetPayRow>)
    ensures ex == Collect(NetPayRule, docs, |docs|)
  {
    ex := ScanDocuments(NetPayRule, docs);
  }

  /**
    Every record of a page carries that page's own CNPJ (its first CNPJ-shaped
    text, or the sentinel) and the file name; nothing is carried over from an
    earlier page.
  */
  lemma PageRowsCarryPageCnpj(file: string, text: string)
    ensures var steps := PageSteps(NetPayRule, PageOf(file, text));
            forall r :: r in RunSteps(steps, |steps|).rows ==>
              r.cnpj == Patterns.PageCnpj(text) && r.file == file
  {
    var page := PageOf(file, text);
    var steps := PageSteps(NetPayRule, page);
    RowsAreEmitted(steps, |steps|);
    forall r: NetPayRow | r in RunSteps(steps, |steps|).rows
      ensures r.cnpj == Patterns.PageCnpj(text) && r.file == file
    {
      assert Emit(r) in steps[..|steps|];
      var i :| 0 <= i < |steps| && steps[i] == Emit(r);
      assert NetPayRule(page, i) == Emit(r);
    }
  }

  /**
    A page yields one record per matching line, in line order, until the first
    matching line whose amount is rejected; that line ends the file.
  */
  lemma PageRowsAreMatchingLines(page: Page)
    ensures var steps := PageSteps(NetPayRule, page);
            var k := FirstAbort(steps);
            && RunSteps(steps, |steps|) == Scan(Emitted(steps[..k]), k < |steps|)
            && (forall i :: 0 <= i < k ==> (steps[i].Emit? <==> Patterns.NetPayLine(page.lines[i]).Some?))
  {
    var steps := PageSteps(NetPayRule, page);
    RunStepsKeepsPrefix(steps, |steps|);
    assert steps[..|steps|] == steps;
  }

  /** An amount written the way the reports print money always converts, to the amount it shows. */
  lemma FormattedAmountIsRead(page: Page, i: nat, cents: nat)
    requires i < |page.lines| && Patterns.NetPayLine(page.lines[i]).Some?
    requires Patterns.NetPayLine(page.lines[i]).value.amount == Values.FormatAmount(cents)
    ensures NetPayRule(page, i).Emit? && NetPayRule(page, i).row.net == cents as real / 100.0
  {
    Values.AmountRoundTrip(cents);
  }

  /** An amount with two decimal commas (such as "1,2,3") makes `limpar_valor` raise, which ends the file. */
  lemma TwoCommasAbort(page: Page, i: nat, p: nat, q: nat)
    requires i < |page.lines| && Patterns.NetPayLine(page.lines[i]).Some?
    requires var a := Patterns.NetPayLine(page.lines[i]).value.amount;
             p < q < |a| && a[p] == ',' && a[q] == ','
    ensures NetPayRule(page, i).Abort?
  {
    var a := Patterns.NetPayLine(page.lines[i]).value.amount;
    Values.TwoCommasRejected(a, p, q);
  }
}
