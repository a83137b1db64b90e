/**
  The loop the three line-per-record extractors share (app.py's
  processar_liquidos, processar_assistencial and processar_extras): for each
  uploaded file, for each page with text, split the text into lines and let a
  per-line rule add a record.  An exception inside a file is caught per file:
  it is reported under the file's name, the rest of that file is skipped, and
  the records already appended (from that file too) stay.
*/
module Batch {
  import opened Wrappers
  import opened Text
  import Patterns

  /**
    An uploaded PDF: its name and, when it can be opened, the result of
    `extract_text()` for each page (None when a page yields no text).
  */
  datatype Document = Document(name: string, pages: Option<seq<Option<string>>>)

  /** `if not texto: continue`: only pages with some text are scanned. */
  predicate HasText(page: Option<string>) {
    page.Some? && page.value != ""
  }

  /** What a line rule sees: the file name, the page's own CNPJ, and the page's lines. */
  datatype Page = Page(file: string, cnpj: string, lines: seq<string>)

  /** What one line contributes: nothing, one record, or an exception that ends the file. */
  datatype Step<R> = Skip | Emit(row: R) | Abort

  /** The records a file has produced so far, and whether an exception has ended it. */
  datatype Scan<R> = Scan(rows: seq<R>, aborted: bool)

  /** All records, and the names of the files whose processing raised. */
  datatype Extraction<R> = Extraction(rows: seq<R>, failed: seq<string>)

  /** The context of a page with text: its CNPJ is the page's first CNPJ-shaped text, or the sentinel. */
  function PageOf(file: string, text: string): (p: Page)
    ensures p.file == file && p.cnpj == Patterns.PageCnpj(text)
    ensures |p.lines| >= 1 && JoinLines(p.lines) == text
  {
    JoinSplitLines(text);
    Page(file, Patterns.PageCnpj(text), SplitLines(text))
  }

  function PageSteps<R>(rule: (Page, nat) -> Step<R>, page: Page): (steps: seq<Step<R>>)
    ensures |steps| == |page.lines|
    ensures forall i :: 0 <= i < |steps| ==> steps[i] == rule(page, i)
  {
    seq(|page.lines|, i requires 0 <= i < |page.lines| => rule(page, i))
  }

  /** The first `n` steps, in order, up to the first exception. */
  function RunSteps<R>(steps: seq<Step<R>>, n: nat): Scan<R>
    requires n <= |steps|
  {
    if n == 0 then Scan([], false)
    else
      var sc := RunSteps(steps, n - 1);
      if sc.aborted then sc
      else match steps[n - 1]
        case Skip => sc
        case Emit(row) => Scan(sc.rows + [row], false)
        case Abort => Scan(sc.rows, true)
  }

  /** The pages among the first `n` that have text, up to the first exception. */
  function RunPages<R>(rule: (Page, nat) -> Step<R>, file: string, pages: seq<Option<string>>, n: nat): Scan<R>
    requires n <= |pages|
  {
    if n == 0 then Scan([], false)
    else
      var sc := RunPages(rule, file, pages, n - 1);
      if sc.aborted || !HasText(pages[n - 1]) then sc
      else
        var steps := PageSteps(rule, PageOf(file, pages[n - 1].value));
        var ps := RunSteps(steps, |steps|);
        Scan(sc.rows + ps.rows, ps.aborted)
  }

  /** What one file adds to the batch: its records, and its name when it cannot be opened or raised. */
  function Contribution<R>(rule: (Page, nat) -> Step<R>, doc: Document): Extraction<R> {
    match doc.pages
    case None => Extraction([], [doc.name])
    case Some(pages) =>
      var sc := RunPages(rule, doc.name, pages, |pages|);
      Extraction(sc.rows, if sc.aborted then [doc.name] else [])
  }

  /** The first `n` files, each on its own. */
  function Collect<R>(rule: (Page, nat) -> Step<R>, docs: seq<Document>, n: nat): Extraction<R>
    requires n <= |docs|
  {
    if n == 0 then Extraction([], [])
    else
      var ex := Collect(rule, docs, n - 1);
      var more := Contribution(rule, docs[n - 1]);
      Extraction(ex.rows + more.rows, ex.failed + more.failed)
  }

  // ---------------------------------------------------------------------------
  // The loops

  method ScanPage<R>(rule: (Page, nat) -> Step<R>, page: Page) returns (sc: Scan<R>)
    ensures sc == RunSteps(PageSteps(rule, page), |page.lines|)
  {
    ghost var steps := PageSteps(rule, page);
    var rows: seq<R> := [];
    var aborted := false;
    var i := 0;
    while i < |page.lines| && !aborted
      invariant 0 <= i <= |page.lines|
      invariant Scan(rows, aborted) == RunSteps(steps, i)
    {
      match rule(page, i) {
        case Skip =>
        case Emit(row) => rows := rows + [row];
        case Abort => aborted := true;
      }
      i := i + 1;
    }
    if aborted {
      AbortSticks(steps, i, |steps|);
    }
    sc := Scan(rows, aborted);
  }

  method ScanDocument<R>(rule: (Page, nat) -> Step<R>, file: string, pages: seq<Option<string>>)
    returns (sc: Scan<R>)
    ensures sc == RunPages(rule, file, pages, |pages|)
  {
    var rows: seq<R> := [];
    var aborted := false;
    var j := 0;
    while j < |pages| && !aborted
      invariant 0 <= j <= |pages|
      invariant Scan(rows, aborted) == RunPages(rule, file, pages, j)
    {
      var text := pages[j];
      if text.Some? && text.value != "" {
        var ps := ScanPage(rule, PageOf(file, text.value));
        rows := rows + ps.rows;
        aborted := ps.aborted;
      }
      j := j + 1;
    }
    if aborted {
      PagesAbortSticks(rule, file, pages, j, |pages|);
    }
    sc := Scan(rows, aborted);
  }

  /** One pass over the uploaded files, each inside its own `try`. */
  method ScanDocuments<R>(rule: (Page, nat) -> Step<R>, docs: seq<Document>) returns (ex: Extraction<R>)
    ensures ex == Collect(rule, docs, |docs|)
  {
    ex := Extraction([], []);
    var k := 0;
    while k < |docs|
      invariant 0 <= k <= |docs|
      invariant ex == Collect(rule, docs, k)
    {
      var more := ScanFile(rule, docs[k]);
      ex := Extraction(ex.rows + more.rows, ex.failed + more.failed);
      k := k + 1;
    }
  }

  /** One file inside its `try`: its records, and its name when it cannot be opened or raised. */
  method ScanFile<R>(rule: (Page, nat) -> Step<R>, doc: Document) returns (more: Extraction<R>)
    ensures more == Contribution(rule, doc)
  {
    if doc.pages.None? {
      more := Extraction([], [doc.name]);
    } else {
      var sc := ScanDocument(rule, doc.name, doc.pages.value);
      more := Extraction(sc.rows, if sc.aborted then [doc.name] else []);
    }
  }

  // ---------------------------------------------------------------------------
  // What the loops promise

  /** Once an exception has ended a file, later lines change nothing. */
  lemma {:induction false} AbortSticks<R>(steps: seq<Step<R>>, i: nat, n: nat)
    requires i <= n <= |steps| && RunSteps(steps, i).aborted
    ensures RunSteps(steps, n) == RunSteps(steps, i)
    decreases n - i
  {
    if i < n {
      AbortSticks(steps, i, n - 1);
    }
  }

  lemma {:induction false} PagesAbortSticks<R>(rule: (Page, nat) -> Step<R>, file: string,
                                               pages: seq<Option<string>>, j: nat, n: nat)
    requires j <= n <= |pages| && RunPages(rule, file, pages, j).aborted
    ensures RunPages(rule, file, pages, n) == RunPages(rule, file, pages, j)
    decreases n - j
  {
    if j < n {
      PagesAbortSticks(rule, file, pages, j, n - 1);
    }
  }

  /** The records of the lines that emit one, in order. */
  function Emitted<R>(steps: seq<Step<R>>): seq<R> {
    if steps == [] then []
    else (if steps[0].Emit? then [steps[0].row] else []) + Emitted(steps[1..])
  }

  /** The index of the first line that raises, or the number of lines when none does. */
  function FirstAbort<R>(steps: seq<Step<R>>): (k: nat)
    ensures k <= |steps|
    ensures forall i :: 0 <= i < k ==> !steps[i].Abort?
    ensures k < |steps| ==> steps[k].Abort?
  {
    if steps == [] then 0
    else if steps[0].Abort? then 0
    else 1 + FirstAbort(steps[1..])
  }

  lemma {:induction false} EmittedSnoc<R>(steps: seq<Step<R>>, s: Step<R>)
    ensures Emitted(steps + [s]) == Emitted(steps) + (if s.Emit? then [s.row] else [])
    decreases |steps|
  {
    if steps != [] {
      assert (steps + [s])[1..] == steps[1..] + [s];
      EmittedSnoc(steps[1..], s);
    }
  }

  /**
    The scan keeps exactly the records of the lines before the first exception,
    in line order, and reports an exception exactly when some line raises.
  */
  lemma {:induction false} RunStepsKeepsPrefix<R>(steps: seq<Step<R>>, n: nat)
    requires n <= |steps|
    ensures var k := FirstAbort(steps[..n]);
            RunSteps(steps, n) == Scan(Emitted(steps[..k]), k < n)
  {
    if n > 0 {
      RunStepsKeepsPrefix(steps, n - 1);
      var before := FirstAbort(steps[..n - 1]);
      FirstAbortSnoc(steps[..n - 1], steps[n - 1]);
      assert steps[..n] == steps[..n - 1] + [steps[n - 1]];
      if before == n - 1 {
        assert steps[..n - 1][..before] == steps[..n - 1];
        EmittedSnoc(steps[..n - 1], steps[n - 1]);
        if steps[n - 1].Abort? {
          assert steps[..n][..n - 1] == steps[..n - 1];
        } else {
          assert steps[..n][..n] == steps[..n];
        }
      } else {
        assert steps[..n][..before] == steps[..n - 1][..before];
      }
    }
  }

  lemma {:induction false} FirstAbortSnoc<R>(steps: seq<Step<R>>, s: Step<R>)
    ensures FirstAbort(steps + [s]) == if FirstAbort(steps) < |steps| || s.Abort? then FirstAbort(steps) else |steps| + 1
    decreases |steps|
  {
    if steps != [] {
      assert (steps + [s])[1..] == steps[1..] + [s];
      FirstAbortSnoc(steps[1..], s);
    }
  }

  /**
    Files are independent: the result for a batch is the result for its first
    `k` files (which only look at those files, by CollectPrefix) followed by the
    result for the other files as a batch of their own, so one file's exception
    costs no other file its records.
  */
  lemma {:induction false} CollectSplit<R>(rule: (Page, nat) -> Step<R>, docs: seq<Document>, k: nat)
    requires k <= |docs|
    ensures Collect(rule, docs, |docs|).rows
         == Collect(rule, docs, k).rows + Collect(rule, docs[k..], |docs| - k).rows
    ensures Collect(rule, docs, |docs|).failed
         == Collect(rule, docs, k).failed + Collect(rule, docs[k..], |docs| - k).failed
  {
    CollectRowsAt(rule, docs, k, |docs|);
    CollectFailedAt(rule, docs, k, |docs|);
  }

  /** Collect over the first `n` files only looks at those files. */
  lemma {:induction false} CollectPrefix<R>(rule: (Page, nat) -> Step<R>, docs: seq<Document>, m: nat, n: nat)
    requires n <= m <= |docs|
    ensures Collect(rule, docs[..m], n) == Collect(rule, docs, n)
  {
    if n > 0 {
      CollectPrefix(rule, docs, m, n - 1);
      assert docs[..m][n - 1] == docs[n - 1];
    }
  }

  /** A proof step of the two lemmas below: regrouping a concatenation of three sequences. */
  lemma Associative<T>(a: seq<T>, b: seq<T>, c: seq<T>)
    ensures (a + b) + c == a + (b + c)
  {
  }

  lemma {:induction false} CollectRowsAt<R>(rule: (Page, nat) -> Step<R>, docs: seq<Document>, k: nat, n: nat)
    requires k <= n <= |docs|
    ensures Collect(rule, docs, n).rows == Collect(rule, docs, k).rows + Collect(rule, docs[k..], n - k).rows
  {
    if n > k {
      CollectRowsAt(rule, docs, k, n - 1);
      assert docs[k..][n - 1 - k] == docs[n - 1];
      var left := Collect(rule, docs, k).rows;
      var right := Collect(rule, docs[k..], n - 1 - k).rows;
      var more := Contribution(rule, docs[n - 1]).rows;
      assert Collect(rule, docs[k..], n - k).rows == right + more;
      Associative(left, right, more);
    }
  }

  lemma {:induction false} CollectFailedAt<R>(rule: (Page, nat) -> Step<R>, docs: seq<Document>, k: nat, n: nat)
    requires k <= n <= |docs|
    ensures Collect(rule, docs, n).failed == Collect(rule, docs, k).failed + Collect(rule, docs[k..], n - k).failed
  {
    if n > k {
      CollectFailedAt(rule, docs, k, n - 1);
      assert docs[k..][n - 1 - k] == docs[n - 1];
      var left := Collect(rule, docs, k).failed;
      var right := Collect(rule, docs[k..], n - 1 - k).failed;
      var more := Contribution(rule, docs[n - 1]).failed;
      assert Collect(rule, docs[k..], n - k).failed == right + more;
      Associative(left, right, more);
    }
  }

  /** Every record a page yields is the record of one of its lines. */
  lemma {:induction false} RowsAreEmitted<R>(steps: seq<Step<R>>, n: nat)
    requires n <= |steps|
    ensures forall r :: r in RunSteps(steps, n).rows ==> Emit(r) in steps[..n]
  {
    if n > 0 {
      RowsAreEmitted(steps, n - 1);
      assert steps[..n] == steps[..n - 1] + [steps[n - 1]];
    }
  }

  /** A property of every record the rule can yield holds of every record of a page. */
  lemma StepsRowsSatisfy<R>(rule: (Page, nat) -> Step<R>, page: Page, P: R -> bool)
    requires forall pg: Page, i: nat :: rule(pg, i).Emit? ==> P(rule(pg, i).row)
    ensures forall r :: r in RunSteps(PageSteps(rule, page), |page.lines|).rows ==> P(r)
  {
    var steps := PageSteps(rule, page);
    RowsAreEmitted(steps, |steps|);
    forall r | r in RunSteps(steps, |steps|).rows ensures P(r) {
      assert Emit(r) in steps[..|steps|];
      var j :| 0 <= j < |steps| && steps[j] == Emit(r);
      assert rule(page, j).Emit?;
    }
  }

  /** The same for the pages of one file. */
  lemma {:induction false} PagesRowsSatisfy<R>(rule: (Page, nat) -> Step<R>, file: string,
                                               pages: seq<Option<string>>, n: nat, P: R -> bool)
    requires n <= |pages|
    requires forall pg: Page, i: nat :: rule(pg, i).Emit? ==> P(rule(pg, i).row)
    ensures forall r :: r in RunPages(rule, file, pages, n).rows ==> P(r)
  {
    if n > 0 {
      PagesRowsSatisfy(rule, file, pages, n - 1, P);
      if HasText(pages[n - 1]) {
        StepsRowsSatisfy(rule, PageOf(file, pages[n - 1].value), P);
      }
    }
  }

  /** And for the whole batch: a record has every property the rule guarantees of what it yields. */
  lemma {:induction false} CollectRowsSatisfy<R>(rule: (Page, nat) -> Step<R>, docs: seq<Document>, n: nat, P: R -> bool)
    requires n <= |docs|
    requires forall pg: Page, i: nat :: rule(pg, i).Emit? ==> P(rule(pg, i).row)
    ensures forall r :: r in Collect(rule, docs, n).rows ==> P(r)
  {
    if n > 0 {
      CollectRowsSatisfy(rule, docs, n - 1, P);
      var doc := docs[n - 1];
      if doc.pages.Some? {
        PagesRowsSatisfy(rule, doc.name, doc.pages.value, |doc.pages.value|, P);
      }
    }
  }
}
