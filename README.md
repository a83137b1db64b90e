# HR document consolidation, modelled in Dafny

This project models the data logic of `app.py`. The application reads four kinds of
Brazilian HR reports as PDF text:

- the payroll report (*folha*), one block of lines per employee;
- the union-fee report (*assistencial*), a name line followed by a values line;
- the net-pay report (*líquidos*), one line per employee;
- the extras report, one line per extra amount.

From those reports it builds employee tables. It normalises money (`limpar_valor`) and company
tax ids (`limpar_cnpj`), groups and sums the extras, and joins everything onto the payroll table
on the key (Código, CNPJ).

The modules follow the program's structure:

| module | file | models |
|---|---|---|
| `Text` | `text.dfy` | `\d`, `\s`, `str.strip`, `str.split('\n')`, and the leftmost-first search order of `re.search` |
| `Values` | `values.dfy` | `limpar_valor` and `limpar_cnpj` |
| `Patterns` | `patterns.dfy` | every regular expression of the extractors, written out as the match the engine performs |
| `Layouts` | `layouts.dfy` | the converse: a line laid out as the reports write it is matched, and each group captures the field written there |
| `Batch` | `batch.dfy` | the files → pages → lines loop shared by the three one-line-per-record extractors, with the per-file `try` |
| `NetPay`, `Assist`, `Extras` | `netpay.dfy`, `assist.dfy`, `extras.dfy` | `processar_liquidos`, `processar_assistencial`, and `processar_extras` with its `groupby` |
| `Payroll` | `payroll.dfy` | the line state machine of `processar_folha` (the `func_atual` slot and the CNPJ carried across pages) |
| `Conversion` | `conversion.dfy` | the in-place conversion of the payroll amount columns, on an `array2` of cells |
| `Consolidation` | `consolidation.dfy` | the consolidation button: refusal, join key, the three left joins and `fillna` |

How the model is built:

- The loops of the source are methods. Each one is proved equal to a specification function
  (`Collect`, `RunLines`, `PayrollCollect`, `IsTable`), and the properties are lemmas about those
  functions.
- Amounts are exact `real`s.
- A page's text is an input: `Option<string>`, with `None` when the PDF page yields no text.
- A file's pages are `None` when the PDF cannot be opened.
- An exception is an `Abort` step. It ends the file and adds the file's name to the failures,
  and the records appended before it stay.

## Model

| member | source | states |
|---|---|---|
| Values.ToNumber | app.py:13-20 | A missing cell or the empty text reads as 0 and a float comes back unchanged. Any failure is a text cell, and the error carries the rewritten text `float()` refused. |
| Values.PointsIgnored | app.py:20 | A point anywhere in the text is dropped, so misplaced thousands points change nothing. |
| Values.TwoCommasRejected | app.py:20 | Text with two commas (such as "1,2,3") is not a number after the rewrite, so `limpar_valor` raises. |
| Values.DecimalTwoPointsRejected | app.py:20 | `float()` refuses text with two decimal points. |
| Values.AmountRoundTrip | app.py:13-20 | Round trip: money written in the reports' format (`"1.234,56"`) is read back as exactly that amount. |
| Values.PartsRoundTrip | app.py:20 | The same round trip, stated for the integer part and the two decimals separately. |
| Values.RewriteAppend | app.py:20 | The point/comma rewrite works character by character, so it distributes over concatenation. |
| Values.CleanCnpj | app.py:22-27 | A missing CNPJ or the not-found marker becomes "N/A". |
| Values.DigitsOnly | app.py:27 | The result holds only digits and is no longer than the input. |
| Values.DigitsOnlyChar | app.py:27 | A digit is kept and any other character is dropped, not replaced. With `DigitsOnlyAppend` this pins the result to exactly the digits of the input, in order. |
| Values.PlaceholderIsNoId | app.py:22-27 | Any CNPJ other than the marker gives exactly its digits, and never "N/A", so the placeholder never equals a real id. |
| Values.DigitsOnlyAppend | app.py:27 | The digits keep their original order: removing non-digits commutes with concatenation. |
| Values.DigitsOnlyFixpoint | app.py:27 | A digits-only text comes back unchanged, and only such a text does. |
| Text.SplitLines | app.py:48 | There is always at least one line, and no line holds a line break. |
| Text.JoinSplitLines | app.py:48 | Splitting a page loses nothing: joining the lines gives the page text back. |
| Text.SplitJoinLines | app.py:48 | Splitting the join of break-free lines gives exactly those lines. |
| Text.Strip | app.py:55 | The result is no longer than the input and neither starts nor ends with whitespace. |
| Text.StripSlice | app.py:55 | Strip removes whitespace only, and only at the two ends: the result is a slice of the input. |
| Text.StripUnpadded | app.py:55 | Text without whitespace at either end is left alone. |
| Text.FindFirst | app.py:49 | A leftmost search stops at the first position where the pattern works. |
| Patterns.PageCnpj | app.py:45-46 | The page CNPJ is the leftmost CNPJ-shaped text of the page, as `search` finds it. It is "Não Encontrado" exactly when the page has no CNPJ-shaped text. |
| Patterns.CnpjFrom | app.py:35 | Finds the leftmost CNPJ-shaped position at or after the start, and no earlier one. |
| Patterns.NetPayLine | app.py:33 | A match has a digit code, a one-line name, a CPF- and a date-shaped field, and an amount made of `[\d.,]`. The converse is `Layouts.NetPayIs`. |
| Layouts.NetPayIs | app.py:33 | A line of leading whitespace, a code, a name, a CPF, a date and an amount, separated by whitespace, matches. The five groups capture exactly those five fields. |
| Patterns.MemberLine | app.py:70 | A match has a digit code and a non-empty one-line name. The converse is `Layouts.MemberIs`. |
| Layouts.MemberIs | app.py:70 | A line `Código: <code> Nome: <name> Função: <role>` is matched at its first `Código:`. The groups capture the code, the name and the rest of the line as the role. |
| Patterns.FeeLine | app.py:71 | A match has a date-shaped admission, and a salary and fee made of `[\d.,]`. The converse is `Layouts.FeeIs`. |
| Layouts.FeeIs | app.py:71 | A line `Admissão : <date> Salário : <amount> Valor : <amount>`, with any whitespace around the labels and colons, is matched at its first `Admissão`. The groups capture the date, the salary and the fee. |
| Patterns.ExtraLine | app.py:116 | A match has a digit code, a one-line name and two amounts made of `[\d.,]`. The converse is `Layouts.ExtraIs`. |
| Layouts.ExtraIs | app.py:116 | A whole line of a code, a name, a reference amount and the extra amount, separated by whitespace, matches. The groups capture those four fields. |
| Patterns.OpenLine | app.py:156 | A match has a digit code and a one-line name. The converse is `Layouts.OpenIs`. |
| Layouts.OpenIs | app.py:156 | A line `Cód: <code> … Nome: <name> Função:<role>` is matched at its first `Cód:`. The role runs up to the line's first `Dep` or the end of the text, and the groups capture the code, the name and that role. |
| Patterns.ContractLine | app.py:157 | A match has a date-shaped admission and a salary made of `[\d.,]`. The converse is `Layouts.ContractIs`. |
| Layouts.ContractIs | app.py:157 | A line `Admissão: <date> … Salário: <amount>`, with the first `Salário:` after the date on the same line, gives that date and that salary. |
| Patterns.CompanyName | app.py:159 | The company name group never crosses a line break. The converse is `Layouts.CompanyIs`. |
| Layouts.CompanyIs | app.py:159 | A header `Razão Social: <name>`, in any case, gives that name. The name ends at the end of the text, at a line break, or before `CNPJ/CEI:` or `Pág:`. |
| Patterns.CnpjCei | app.py:160 | The `CNPJ/CEI:` value is non-empty and made of digits, `.`, `/` and `-`. The converse is `Layouts.CnpjCeiIs`. |
| Layouts.CnpjCeiIs | app.py:160 | The first `CNPJ/CEI:` of a page, in any case, gives the whole run of `[\d./-]` that follows it. |
| Patterns.LabelAmount | app.py:162-165 | A labelled amount is made of `[\d.,]`. The converse is `Layouts.LabelAmountIs`. |
| Layouts.LabelAmountIs | app.py:162-165 | The first occurrence of a label, followed by whitespace and an amount, gives that whole amount. |
| Patterns.TotalsLine | app.py:166 | All three totals are made of `[\d.,]`. The converse is `Layouts.TotalsIs`. |
| Layouts.TotalsIs | app.py:166 | A line `Proventos: <amount> … Descontos: <amount> … Liquido: <amount>` gives the three amounts. Each later label is its first occurrence on the same line. |
| Patterns.ItemAmount | app.py:168-174 | The captured second column of a two-column item line is made of `[\d.,]`. The converse is `Layouts.ItemAmountIs`. |
| Layouts.ItemAmountIs | app.py:168-174 | The first item line for a label (a code glued to the label, a reference column and an amount column) gives the amount column. |
| Patterns.ItemSingle | app.py:169-171 | The only column of a one-column item line is made of `[\d.,]`. The converse is `Layouts.ItemSingleIs`. |
| Layouts.ItemSingleIs | app.py:169-171 | The first item line for a label with a single column gives that column. |
| Layouts.ItemPresentIs | app.py:175 | Any code glued to the label, followed by whitespace and an amount character, makes the item present. |
| Batch.PageOf | app.py:45-48 | A page carries its file name and its own CNPJ, and its lines join back to its text. |
| Batch.ScanPage | app.py:48-60 | The line loop of one page computes RunSteps over the page's steps. |
| Batch.ScanDocument | app.py:40-60 | The page loop of one file computes RunPages, skipping pages without text. |
| Batch.ScanFile | app.py:38-62 | One file inside its `try` adds its records, plus its name when it cannot be opened or raised. |
| Batch.ScanDocuments | app.py:30-64 | The loop over the uploaded files computes Collect over all of them. |
| Batch.RunStepsKeepsPrefix | app.py:48-62 | A page keeps exactly the records of its lines before the first raising line, in line order, and reports an exception exactly when some line raises. |
| Batch.AbortSticks | app.py:61-62 | After an exception, later lines of the file change nothing. |
| Batch.PagesAbortSticks | app.py:61-62 | After an exception, later pages of the file change nothing. |
| Batch.FirstAbort | app.py:61 | The index of the first raising line, or the number of lines when none raises. |
| Batch.CollectSplit | app.py:37-62 | Files are independent: a batch's records and failures are those of its first k files followed by those of the rest. One file's exception costs no other file its records. |
| Batch.CollectPrefix | app.py:37 | The result for the first n files depends on those files only. |
| Batch.RowsAreEmitted | app.py:50-60 | Every record of a page is the record one of its lines emitted. |
| Batch.CollectRowsSatisfy | app.py:37-64 | Any property the rule guarantees of the records it emits holds of every record of the batch. |
| NetPay.NetPayRule | app.py:48-60 | A line yields nothing iff it does not match. It raises iff the matched amount is refused. Otherwise it yields one record with the page CNPJ, the file name, the captured fields (name stripped) and the amount `limpar_valor` reads. |
| NetPay.ExtractNetPay | app.py:30-64 | `processar_liquidos` equals Collect with the net-pay rule. |
| NetPay.PageRowsCarryPageCnpj | app.py:44-59 | Every record of a page carries that page's own first CNPJ (or the sentinel) and the file name. Nothing is carried over from another page. |
| NetPay.PageRowsAreMatchingLines | app.py:48-60 | A page yields one record per matching line, in line order, up to the first line whose amount raises. |
| NetPay.FormattedAmountIsRead | app.py:58 | A matched amount in the report format always converts, to the amount it shows. |
| NetPay.TwoCommasAbort | app.py:58-62 | A matched amount with two commas ends the file. |
| Assist.FeeRule | app.py:86-106 | A line yields something iff it is a name line with a values line right below it on the same page. The last line of a page never does. It raises iff the salary or the fee is refused. Otherwise its record carries the captured fields of both lines. |
| Assist.ExtractFees | app.py:67-110 | `processar_assistencial` equals Collect with the fee rule. |
| Assist.PageRowsComeFromPairs | app.py:87-106 | Every record of a page comes from a name line immediately followed by a values line of that page, and carries the page's CNPJ and file name. |
| Extras.Canonical | app.py:137 | `str(int(cod))` leaves no leading zero (unless the code is "0") and keeps the number the digits denote. |
| Extras.LeadingZeros | app.py:137 | Zeros in front of a number do not change its value. |
| Extras.ExtraRule | app.py:131-140 | A line yields nothing iff it does not match, and raises iff its amount is refused. Otherwise it yields the page CNPJ, a canonical code with the captured code's value, the stripped name and the amount. |
| Extras.StrLessIrreflexive | app.py:147 | Python string order is irreflexive. |
| Extras.StrLessTransitive | app.py:147 | Python string order is transitive. |
| Extras.StrLessTotal | app.py:147 | Python string order is total. |
| Extras.KeyLessTransitive | app.py:147 | The group key order (CNPJ, code, name) is transitive. |
| Extras.KeyLessTotal | app.py:147 | The group key order is total. |
| Extras.AddToSorted | app.py:147 | Adding a row keeps the groups strictly sorted. |
| Extras.AddToKeys | app.py:147 | Adding a row adds exactly its key. |
| Extras.AddToTotalFor | app.py:147 | Adding a row adds its amount to its own key's total only. |
| Extras.AddToGrandTotal | app.py:147 | Adding a row adds its amount to the grand total. |
| Extras.TotalForSorted | app.py:147 | In a sorted table, a group's total is the total for its key. |
| Extras.GroupedKeys | app.py:144-149 | The grouped table holds each (CNPJ, Código, Funcionário) once, in sorted order, and exactly the keys of the extracted rows. It is empty iff no row was extracted. |
| Extras.GroupedTotalFor | app.py:147 | The total the table holds for a key is the sum of that key's rows. |
| Extras.GroupedSums | app.py:147 | Each group's total is the sum of the amounts of exactly the rows with its key. |
| Extras.GroupedGrandTotal | app.py:147 | Grouping neither loses nor invents money: the grand total equals the sum of all extracted amounts. |
| Extras.GroupedCodesCanonical | app.py:137-147 | Every code of the grouped table is written as `str(int(...))` writes it. |
| Extras.ExtractExtras | app.py:113-149 | `processar_extras` gives the grouped Collect of the extras rule, and the failed file names. |
| Payroll.ColumnOf | app.py:213-228 | Every amount field has a place among the sixteen columns. |
| Payroll.Blank | app.py:213-228 | A fresh record has all sixteen amount columns at "0,00". |
| Payroll.OpenedComplete | app.py:206-228 | A freshly opened record has every amount column. |
| Payroll.FieldMatch | app.py:237-251 | Every value a field pattern reads is made of `[\d.,]`. The union-fee column matches iff the line carries the `Contribuição Assistencial` item, and then holds "10,00" whatever amount the line shows. |
| Payroll.AdmissionMatch | app.py:233-236 | The admission a contract line gives is date-shaped. The converse is `Payroll.ContractLineReads`. |
| Payroll.ContractLineReads | app.py:233-236 | A contract line in the report's layout sets `Admissão` to its date and the contractual salary to its amount. |
| Payroll.UnionFeeLineReads | app.py:246 | A `Contribuição Assistencial` item line followed by an amount sets the union fee to "10,00". |
| Payroll.LineUnionFee | app.py:246 | A classified line holds the union fee iff it carries the item, and then holds "10,00". |
| Payroll.BlockUnionFee | app.py:213-246 | A handed-over record's union fee is "10,00" iff some line of its block carries the item, and "0,00" otherwise. |
| Payroll.GatherMeaning | app.py:239-251 | The matched columns are exactly those whose pattern matches, with the values read. |
| Payroll.MatchesMeaning | app.py:239-251 | A line records exactly the columns whose pattern matches it, with the values the patterns read. |
| Payroll.ClassifyMeaning | app.py:232-251 | A classified line holds the amount of a column iff that column's pattern matches, with the value read. |
| Payroll.ClassifyReadable | app.py:239-251 | Every amount a classified line holds is made of `[\d.,]`. |
| Payroll.InfosAt | app.py:202 | The lines of a page are classified in order, each on its own. |
| Payroll.RunLines | app.py:200-260 | Every open or handed-over record carries the page's company, CNPJ and file. |
| Payroll.Fill | app.py:232-251 | Applying lines never changes the text columns of the open record. |
| Payroll.LastMatch | app.py:239-251 | Finds the last line matching a column's pattern, or reports that none does. |
| Payroll.LastContract | app.py:233-236 | Finds the last contract line, or reports that none exists. |
| Payroll.FillLastWins | app.py:237-251 | Last match wins: each column holds what the last line matching its pattern gave, or what it held before. |
| Payroll.FillAdmission | app.py:233-236 | `Admissão` is set only by a contract line, to the last one's date. |
| Payroll.OpenSince | app.py:200-260 | The open record's opening line is the last opening line, with no opening or totals line since it. When the slot is empty after an opening line, a totals line has closed that record. |
| Payroll.SlotIsOpenBlock | app.py:200-260 | The slot is the block of the last opening line no totals line has closed. A new opening line discards an unclosed block. |
| Payroll.BlockClosesAt | app.py:253-260 | A record is handed over exactly at a totals line (not an opening line) while a record is open. What is handed over is its block up to and including the totals line. |
| Payroll.BlockContents | app.py:203-258 | A handed-over record holds the opening line's code, name and role, and each amount from the last block line that matched it, else "0,00". `Admissão` comes only from a contract line of the block. |
| Payroll.BlockAmountMatched | app.py:237-251 | A column a block line matched holds the text the last such line read. |
| Payroll.BlockAmountUntouched | app.py:213-228 | A column no block line matched stays at "0,00". |
| Payroll.RowsComplete | app.py:206-260 | Every handed-over record has all sixteen amount columns, each made of `[\d.,]`. |
| Payroll.StepComplete | app.py:203-260 | One line keeps every record complete. |
| Payroll.NoOpeningNoRecords | app.py:200 | The slot starts empty on every page, so a page without an opening line hands over nothing, whatever totals lines it holds. A block that runs over a page break is lost. |
| Payroll.FgtsInsideBase | app.py:164-165 | The unanchored F.G.T.S. pattern also matches inside `Base F.G.T.S.:`, reading the same amount. |
| Payroll.FgtsFound | app.py:165 | Wherever the F.G.T.S. label is followed by an amount, the F.G.T.S. pattern matches the line. |
| Payroll.FgtsReadsBase | app.py:250-251 | A line that only shows the FGTS base puts the base into the F.G.T.S. column. |
| Payroll.BaseReadsBase | app.py:250 | The same line puts the base into the base column. |
| Payroll.RunPayrollPages | app.py:191-260 | Every record of a file carries the file's company and name. |
| Payroll.FileDrafts | app.py:177-263 | A file that cannot be opened, or whose first page has no text at all, adds only its name to the failures and no record. Otherwise every record carries the file name and the first page's company. |
| Payroll.CarriedCnpj | app.py:180-198 | The CNPJ in force after n pages is the last `CNPJ/CEI:` value among them, stripped, or the placeholder. Each file starts afresh. |
| Payroll.PageRecordsCarryCnpj | app.py:191-208 | A page's records are appended after those of earlier pages, and carry the CNPJ in force on that page. |
| Payroll.ReadLine | app.py:202-260 | One line of the loop computes the Step function on the slot and the list. |
| Payroll.ClassifyAt | app.py:203-253 | Running the patterns on one line gives its classification. |
| Payroll.ClassifyLines | app.py:202 | Running the patterns on every line gives the page's classifications. |
| Payroll.RunPage | app.py:200-260 | The line loop of one page computes RunLines from an empty slot. |
| Payroll.ScanLines | app.py:200-260 | The same, from the page's raw lines. |
| Payroll.ScanPayrollFile | app.py:179-263 | The header and page loop of one file compute FileDrafts. |
| Payroll.ExtractPayroll | app.py:177-263 | The loop over all files computes PayrollCollect. |
| Payroll.AddPayrollFile | app.py:177-263 | One more file extends the result for the files before it. |
| Conversion.CellOf | app.py:266 | A record's amount is a text cell iff the record holds that column. |
| Conversion.ConvertColumn | app.py:269 | Rewrites one column in place. It succeeds iff every cell of the column converts, and each cell then holds the number `limpar_valor` reads from it. The other columns are untouched. |
| Conversion.ConvertColumns | app.py:267-269 | The column loop succeeds iff every cell converts, and every cell then holds the number read from its old content. |
| Conversion.ReadRow | app.py:266-269 | A row read off the rewritten cells is the converted form of its record. |
| Conversion.ReadRows | app.py:266-269 | So are all rows, in order. |
| Conversion.ConvertTable | app.py:265-272 | Gives no table iff some amount raises; otherwise one converted row per record, in order. An empty list gives the empty table. |
| Conversion.ProcessPayroll | app.py:152-272 | `processar_folha` gives that table for the extracted records, and the names of the failed files. |
| Conversion.ConvertsToConverts | app.py:269 | A record that has a converted row converts. |
| Conversion.ConvertsToUnique | app.py:269 | A record converts to at most one row. |
| Conversion.IsTableUnique | app.py:265-272 | The records determine the table. |
| Conversion.ZeroReadsAsZero | app.py:213 | The starting amount "0,00" reads as 0. |
| Conversion.FeeMarkReadsAsTen | app.py:246 | The union-fee mark "10,00" reads as 10. |
| Conversion.UnionFeeReadsTen | app.py:213-269 | A converted row's union fee is 10 iff some line of its block carries the item, whatever amount it shows, and 0 otherwise. |
| Conversion.UntouchedReadsZero | app.py:213-228 | An amount no block line matched is 0 in the converted row. |
| Conversion.MatchedReadsLast | app.py:239-251 | A matched amount in the converted row is the number read from the last matching line. |
| Conversion.TwoCommasNoTable | app.py:268-269 | One amount with two commas and the call returns no table at all, because the conversion runs outside the per-file `try`. |
| Consolidation.NormalKey | app.py:370-371 | The key's CNPJ is "N/A" exactly for records whose CNPJ was not found. |
| Consolidation.MatchesOf | app.py:381-385 | The matches of a key are empty iff no right row has that key. |
| Consolidation.LookupFirst | app.py:381-386 | The lookup is NaN when nothing matches, else the first match. |
| Consolidation.Consolidate | app.py:359-422 | Refused iff there is no payroll table or it is empty. |
| Consolidation.MatchesUnique | app.py:381-385 | With unique right keys, a key that occurs matches exactly that row. |
| Consolidation.LookupUnique | app.py:381-386 | With unique right keys, the lookup is NaN iff no row has the key, else that row's value. |
| Consolidation.JoinKeepsRows | app.py:381-386 | A left join never drops a payroll row. |
| Consolidation.JoinUnique | app.py:381-386 | With unique right keys, the join is one-to-one and in order. |
| Consolidation.AttachUnique | app.py:381-386 | With unique right keys, a row attaches to one right row or to none. |
| Consolidation.JoinDuplicates | app.py:381-386 | A key shared by two right rows duplicates its payroll row, so the table grows. |
| Consolidation.JoinPrefix | app.py:381-386 | The extra rows a join creates only accumulate along the left table. |
| Consolidation.MatchesTwo | app.py:381-385 | Two right rows with the key give at least two matches. |
| Consolidation.ExtrasJoinPresent | app.py:411-416 | After the extras join, every row has the column, matched or NaN. |
| Consolidation.ExtrasAlwaysFilled | app.py:405-418 | With a non-empty extras table, every consolidated row has a `Total Extras` number. |
| Consolidation.ConsolidateUnique | app.py:366-418 | With no key shared by two rows of a right table, there is one consolidated row per payroll row, in order. Each row has its code stripped, the fee and net columns of its key (NaN without a match, absent when that table is empty), and its key's extras total (0 without a match). |
| Consolidation.FeesUnique | app.py:374-387 | The fee join is skipped when its table is empty, and otherwise puts in each row's looked-up fee columns. |
| Consolidation.NetUnique | app.py:389-402 | The net-pay join is skipped when its table is empty, and otherwise puts in each row's looked-up net pay. |
| Consolidation.ExtrasUnique | app.py:404-418 | The extras join is skipped when there are no groups, and otherwise puts in each row's extras total or 0. |
| Consolidation.FeesStage | app.py:374-387 | The fee stage of a one-to-one consolidation. |
| Consolidation.NetStage | app.py:389-402 | The net-pay stage of a one-to-one consolidation. |
| Consolidation.ExtrasStage | app.py:404-418 | The extras stage of a one-to-one consolidation. |
| Consolidation.PlaceholderJoinsPlaceholder | app.py:371 | The key of a record without a CNPJ joins exactly the rows with the same stripped code and no CNPJ either. It never joins a real CNPJ. |
| Consolidation.DigitsUnstripped | app.py:370 | Stripping leaves a digit code alone. |
| Consolidation.LeadingZeroMissesExtras | app.py:405-418 | A payroll code written with a leading zero never meets an extras group, so its `Total Extras` is 0. |

## Source behaviours the model keeps

These are behaviours of the code as written, stated by lemmas above:

- **Not-found CNPJs join each other.** A record whose CNPJ was not found gets the key CNPJ "N/A".
  It joins every other row whose CNPJ was not found and has the same code (`PlaceholderJoinsPlaceholder`).
- **Only `Total Extras` gets a 0 default.** The fee and net-pay columns stay NaN when there is no
  match (`ConsolidateUnique`).
- **Keys are compared as stripped strings, not as numbers.** Extras codes go through `str(int(...))`,
  so a payroll code written with a leading zero never meets its extras (`LeadingZeroMissesExtras`).
- **A block cut by a page break is lost.** The open record is dropped at every page start
  (`NoOpeningNoRecords`).
- **The F.G.T.S. pattern also matches inside the base line.** A line showing only the FGTS base
  fills the F.G.T.S. column with the base (`FgtsInsideBase`, `FgtsReadsBase`).
- **A first page with no text loses the file.** The header search raises, so the file adds no
  records (`FileDrafts`).
- **An exception keeps earlier records.** Records appended before an exception stay, including
  those from the same file (`RunStepsKeepsPrefix`, `CollectSplit`).
- **The union fee is a fixed mark.** A block line carrying the `Contribuição Assistencial` item
  sets the fee to "10,00", whatever amount the line shows. The converted fee is therefore 10 or 0
  (`BlockUnionFee`, `UnionFeeReadsTen`).
- **One bad payroll amount loses the whole table.** It raises in the column conversion, outside
  the per-file `try` (`TwoCommasNoTable`).

## Left out

- The Streamlit interface is not modelled: tabs, uploaders, session state, spinners, the
  dashboard, and the Excel export. The consolidation block's inputs are the tables themselves.
- PDF text extraction (pdfplumber) is not modelled. Each page's text is an input, `None` when the
  page yields none. A file whose PDF cannot be opened is a document whose `pages` is `None`, and
  it is reported as a failure. A PDF that opens with no pages is a document whose `pages` is
  `Some([])`: it gives no records and no failure, as the loop over `pdf.pages` does.
- The text of the `st.error` messages is not modelled. A failure is recorded as the file's name.
- Floating point is not modelled: money is an exact `real`, and pandas sums are exact sums.
- Python's `float()` grammar is modelled for an optional sign, digits, one point and surrounding
  whitespace. Exponents, `inf`/`nan` and underscores are refused. They cannot reach
  `limpar_valor` here, because every caller passes a `[\d.,]+` capture or a constant.
- `\d` is modelled as the ASCII digits only. IGNORECASE folding covers only ASCII, Latin-1 and
  the special Python equivalences; other Unicode case pairs are not folded.
- The regex engine is not modelled in general. Each pattern is a hand-written matcher that
  follows the engine's leftmost-first order and its greedy and lazy give-back.
- pandas dtypes, column order, merge suffixes and the `rename` of the joined columns are not
  modelled. A row holds its joined columns under fixed names.
- The helper `Empresa CNPJ Norm` column is not modelled: its `drop` is implicit, because the key
  is computed and never stored.
- The `Admissão` cell of a payroll row without a contract line is `None`, where pandas stores NaN.
- Consolidation.ConsolidateUnique: states the row-for-row result only when no two rows of a right
  table share a key. For duplicated keys, `JoinDuplicates` states only that the table grows, and
  `Attach`/`LeftJoin` give the exact rows.
- Conversion.ConvertColumns: does not say which cell raises first when several would. The
  source's error message is not modelled, so only success or failure is observable.
- Layouts.NetPayIs: covers names in which no word starts with a digit, `.` or `,`. With such a
  word, the lazy name group can stop before it, and the lemma does not say what is captured.
- Layouts.ExtraIs: the same restriction on the name as `NetPayIs`.
- Layouts.MemberIs: covers non-empty names in which `Função` does not occur, and roles that start
  with a non-blank character or are empty at the end of the text.
- Layouts.OpenIs: covers non-empty names in which `Função:` does not occur. The lazy name group
  may also capture an empty name, and that layout is not covered.
- Layouts.CompanyIs: covers only headers with no `Apelido:` before `Razão Social:`, that is, the
  `\s*` alternative of the prefix, and non-empty names in which neither label occurs.
