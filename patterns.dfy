/**
  The regular expressions of app.py, each written out as the search the regex
  engine performs: `re.search` tries start positions from the left, and at each
  start the pattern's elements in order.  Where a greedy repetition is followed
  by an element whose first character cannot belong to it (`\s*` before a
  digit, `\d+` before `\s+`, an amount before a letter), giving characters back
  can never help, so the longest run is final; where it can help (whitespace
  before a lazy `.+?`/`.*?`), the give-back is written with FindLast, and lazy
  repetitions with Find.  `.` never crosses a line break, `\d` is the ASCII
  digits and `\s` Python's whitespace.
*/
module Patterns {
  import opened Wrappers
  import opened Text
  import Values

  const CnpjShape: string := "99.999.999/9999-99"
  const CpfShape: string := "999.999.999-99"
  const DateShape: string := "99/99/9999"

  /** A fixed-width pattern at `i`: each '9' of `shape` stands for `\d`, every other character for itself. */
  predicate ShapeAt(s: string, i: nat, shape: string) {
    && i + |shape| <= |s|
    && forall j :: 0 <= j < |shape| ==> if shape[j] == '9' then IsDigit(s[i + j]) else s[i + j] == shape[j]
  }

  /** Text that is exactly one instance of `shape`. */
  predicate HasShape(t: string, shape: string) {
    |t| == |shape| && ShapeAt(t, 0, shape)
  }

  lemma ShapeSlice(s: string, i: nat, shape: string)
    requires ShapeAt(s, i, shape)
    ensures HasShape(s[i..i + |shape|], shape)
  {
    var t := s[i..i + |shape|];
    forall j | 0 <= j < |shape| ensures t[j] == s[i + j] { }
  }

  /** A run of amount characters that is not empty. */
  predicate IsAmount(t: string) {
    t != [] && AllAmountChars(t)
  }

  /** A run of ASCII digits that is not empty. */
  predicate IsCode(t: string) {
    t != [] && AllDigits(t)
  }

  lemma CodeSlice(s: string, a: nat, e: nat)
    requires a < e <= |s| && forall j :: a <= j < e ==> IsDigit(s[j])
    ensures IsCode(s[a..e])
  {
    assert forall j :: 0 <= j < e - a ==> s[a..e][j] == s[a + j];
  }

  lemma AmountSlice(s: string, a: nat, e: nat)
    requires a < e <= |s| && forall j :: a <= j < e ==> IsAmountChar(s[j])
    ensures IsAmount(s[a..e])
  {
    assert forall j :: 0 <= j < e - a ==> s[a..e][j] == s[a + j];
  }

  /** `\s*([\d.,]+)` at `i`: the amount that starts after the whitespace, if any. */
  function AmountAfter(s: string, i: nat): (r: Option<string>)
    requires i <= |s|
    ensures r.Some? ==> IsAmount(r.value)
  {
    var a := SpaceEnd(s, i);
    var e := AmountEnd(s, a);
    if e == a then None else Some(s[a..e])
  }

  // ---------------------------------------------------------------------------
  // The company id on a page: `\d{2}\.\d{3}\.\d{3}/\d{4}-\d{2}`

  /** Where the first CNPJ-shaped text at or after `i` starts. */
  function CnpjFrom(s: string, i: nat): (r: Option<nat>)
    ensures r.Some? ==> i <= r.value && ShapeAt(s, r.value, CnpjShape)
    ensures r.Some? ==> forall j: nat :: i <= j < r.value ==> !ShapeAt(s, j, CnpjShape)
    ensures r.None? ==> forall j: nat :: i <= j ==> !ShapeAt(s, j, CnpjShape)
    decreases |s| + 1 - i
  {
    if i > |s| then None
    else if ShapeAt(s, i, CnpjShape) then Some(i)
    else CnpjFrom(s, i + 1)
  }

  /**
    The page's own company id: its first CNPJ-shaped text, or the "Não
    Encontrado" sentinel exactly when the page has none.
  */
  function PageCnpj(s: string): (r: string)
    ensures r == Values.NotFound || HasShape(r, CnpjShape)
    ensures r == Values.NotFound <==> forall j: nat :: !ShapeAt(s, j, CnpjShape)
    ensures forall i: nat :: ShapeAt(s, i, CnpjShape) && (forall j: nat :: j < i ==> !ShapeAt(s, j, CnpjShape))
              ==> r == s[i..i + 18]
  {
    match CnpjFrom(s, 0)
    case Some(i) =>
      ShapeSlice(s, i, CnpjShape);
      s[i..i + 18]
    case None => Values.NotFound
  }

  // ---------------------------------------------------------------------------
  // Net-pay report line: `^\s*(\d+)\s+(.+?)\s+(CPF)\s+(DATE)\s+([\d\.,]+)`

  datatype NetPayFields = NetPayFields(code: string, name: string, cpf: string, paidOn: string, amount: string)

  /** `\s+(CPF)\s+(DATE)\s+([\d\.,]+)` at `q`, where the lazy name stops. */
  function NetPayTail(s: string, q: nat): (r: Option<(string, string, string)>)
    requires q <= |s|
    ensures r.Some? ==> HasShape(r.value.0, CpfShape) && HasShape(r.value.1, DateShape) && IsAmount(r.value.2)
  {
    var a := SpaceEnd(s, q);
    if a == q || !ShapeAt(s, a, CpfShape) then None
    else
      var b := SpaceEnd(s, a + 14);
      if b == a + 14 || !ShapeAt(s, b, DateShape) then None
      else
        var c := SpaceEnd(s, b + 10);
        var e := AmountEnd(s, c);
        if c == b + 10 || e == c then None
        else
          ShapeSlice(s, a, CpfShape);
          ShapeSlice(s, b, DateShape);
          Some((s[a..a + 14], s[b..b + 10], s[c..e]))
  }

  /** The shortest name from `k` after which the rest of the line matches. */
  function NetPayNameEnd(s: string, k: nat): Option<nat>
    requires k <= |s|
  {
    Find(k + 1, LineEnd(s, k), (q: nat) => q <= |s| && NetPayTail(s, q).Some?)
  }

  /**
    `\s+(.+?)` from `e`, followed by the rest of the line: the name and where it
    stops.  The greedy whitespace gives characters back when no name works.
  */
  function NetPayNameAt(s: string, e: nat): (r: Option<(string, nat)>)
    requires e <= |s|
    ensures r.Some? ==> r.value.0 != [] && '\n' !in r.value.0
    ensures r.Some? ==> r.value.1 <= |s| && NetPayTail(s, r.value.1).Some?
  {
    var w := SpaceEnd(s, e);
    if w == e then None
    else
      match FindLast(e + 1, w, (k: nat) => k <= |s| && NetPayNameEnd(s, k).Some?)
      case None => None
      case Some(k) =>
        var q := NetPayNameEnd(s, k).value;
        LineSlice(s, k, q);
        Some((s[k..q], q))
  }

  /**
    Anchored at the start of the line.  The whitespace before the name is
    greedy and gives characters back one by one when no name works, so the
    name may start with whitespace (which the caller strips).
  */
  function NetPayLine(s: string): (r: Option<NetPayFields>)
    ensures r.Some? ==> IsCode(r.value.code) && r.value.name != [] && '\n' !in r.value.name
    ensures r.Some? ==> HasShape(r.value.cpf, CpfShape) && HasShape(r.value.paidOn, DateShape)
    ensures r.Some? ==> IsAmount(r.value.amount)
  {
    var a := SpaceEnd(s, 0);
    var e := DigitEnd(s, a);
    if e == a then None
    else
      match NetPayNameAt(s, e)
      case None => None
      case Some(nq) =>
        var t := NetPayTail(s, nq.1).value;
        CodeSlice(s, a, e);
        Some(NetPayFields(s[a..e], nq.0, t.0, t.1, t.2))
  }

  // ---------------------------------------------------------------------------
  // Extras report line: `^\s*(\d+)\s+(.+?)\s+([\d\.,]+)\s+([\d\.,]+)$`

  datatype ExtraFields = ExtraFields(code: string, name: string, reference: string, amount: string)

  /** `\s+([\d\.,]+)\s+([\d\.,]+)$` at `q`. */
  function ExtraTail(s: string, q: nat): (r: Option<(string, string)>)
    requires q <= |s|
    ensures r.Some? ==> IsAmount(r.value.0) && IsAmount(r.value.1)
  {
    var a := SpaceEnd(s, q);
    var b := AmountEnd(s, a);
    var c := SpaceEnd(s, b);
    var d := AmountEnd(s, c);
    if a == q || b == a || c == b || d == c || !AtDollar(s, d) then None
    else Some((s[a..b], s[c..d]))
  }

  function ExtraNameEnd(s: string, k: nat): Option<nat>
    requires k <= |s|
  {
    Find(k + 1, LineEnd(s, k), (q: nat) => q <= |s| && ExtraTail(s, q).Some?)
  }

  /**
    `\s+(.+?)` from `e`, followed by the rest of the line: the name and where it
    stops.  The greedy whitespace gives characters back when no name works.
  */
  function ExtraNameAt(s: string, e: nat): (r: Option<(string, nat)>)
    requires e <= |s|
    ensures r.Some? ==> r.value.0 != [] && '\n' !in r.value.0
    ensures r.Some? ==> r.value.1 <= |s| && ExtraTail(s, r.value.1).Some?
  {
    var w := SpaceEnd(s, e);
    if w == e then None
    else
      match FindLast(e + 1, w, (k: nat) => k <= |s| && ExtraNameEnd(s, k).Some?)
      case None => None
      case Some(k) =>
        var q := ExtraNameEnd(s, k).value;
        LineSlice(s, k, q);
        Some((s[k..q], q))
  }

  /** Anchored at the start of the line, with the same give-back before the name as NetPayLine. */
  function ExtraLine(s: string): (r: Option<ExtraFields>)
    ensures r.Some? ==> IsCode(r.value.code) && r.value.name != [] && '\n' !in r.value.name
    ensures r.Some? ==> IsAmount(r.value.reference) && IsAmount(r.value.amount)
  {
    var a := SpaceEnd(s, 0);
    var e := DigitEnd(s, a);
    if e == a then None
    else
      match ExtraNameAt(s, e)
      case None => None
      case Some(nq) =>
        var t := ExtraTail(s, nq.1).value;
        CodeSlice(s, a, e);
        Some(ExtraFields(s[a..e], nq.0, t.0, t.1))
  }

  // ---------------------------------------------------------------------------
  // Union-fee report, name line: `Código:\s*(\d+)\s+Nome\s*:\s*(.+?)\s+Função\s*:\s*(.*)`

  datatype MemberFields = MemberFields(code: string, name: string, role: string)

  /** `\s+Função\s*:\s*(.*)` at `q`: the role, which runs to the end of the line. */
  function MemberTail(s: string, q: nat): (r: Option<string>)
    requires q <= |s|
    ensures r.Some? ==> '\n' !in r.value
  {
    var x := SpaceEnd(s, q);
    if x == q || !LitAt(s, x, "Função") then None
    else
      var y := SpaceEnd(s, x + 6);
      if !LitAt(s, y, ":") then None
      else
        var z := SpaceEnd(s, y + 1);
        var e := LineEnd(s, z);
        LineSlice(s, z, e);
        Some(s[z..e])
  }

  function MemberNameEnd(s: string, k: nat): Option<nat>
    requires k <= |s|
  {
    Find(k + 1, LineEnd(s, k), (q: nat) => q <= |s| && MemberTail(s, q).Some?)
  }

  /** `\s*(.+?)\s+Função\s*:\s*(.*)` from `c`: the name and the role. */
  function MemberNameAt(s: string, c: nat): (r: Option<(string, string)>)
    requires c <= |s|
    ensures r.Some? ==> r.value.0 != [] && '\n' !in r.value.0
  {
    var w := SpaceEnd(s, c);
    match FindLast(c, w, (k: nat) => k <= |s| && MemberNameEnd(s, k).Some?)
    case None => None
    case Some(k) =>
      var q := MemberNameEnd(s, k).value;
      LineSlice(s, k, q);
      Some((s[k..q], MemberTail(s, q).value))
  }

  /** `\s+Nome\s*:` at `e`, followed by the name and the role. */
  function MemberNameFrom(s: string, e: nat): (r: Option<(string, string)>)
    requires e <= |s|
    ensures r.Some? ==> r.value.0 != [] && '\n' !in r.value.0
  {
    if SpaceEnd(s, e) == e then None
    else match LabelColon(s, e, "Nome")
      case None => None
      case Some(c) => MemberNameAt(s, c)
  }

  function MemberAt(s: string, i: nat): (r: Option<MemberFields>)
    requires i <= |s|
    ensures r.Some? ==> IsCode(r.value.code) && r.value.name != [] && '\n' !in r.value.name
  {
    if !LitAt(s, i, "Código:") then None
    else
      var a := SpaceEnd(s, i + 7);
      var e := DigitEnd(s, a);
      if e == a then None
      else match MemberNameFrom(s, e)
        case None => None
        case Some(t) =>
          CodeSlice(s, a, e);
          Some(MemberFields(s[a..e], t.0, t.1))
  }

  function MemberLine(s: string): (r: Option<MemberFields>)
    ensures r.Some? ==> IsCode(r.value.code) && r.value.name != [] && '\n' !in r.value.name
  {
    match Find(0, |s|, (i: nat) => i <= |s| && MemberAt(s, i).Some?)
    case Some(i) => MemberAt(s, i)
    case None => None
  }

  // ---------------------------------------------------------------------------
  // Union-fee report, values line:
  // `Admissão\s*:\s*(DATE)\s*Salário\s*:\s*([,.\d]+)\s*Valor\s*:\s*([,.\d]+)`

  datatype FeeFields = FeeFields(admission: string, salary: string, fee: string)

  /** `\s*:` at `i`: where the text after the colon starts. */
  function ColonAfter(s: string, i: nat): (r: Option<nat>)
    requires i <= |s|
    ensures r.Some? ==> i < r.value <= |s| && s[r.value - 1] == ':'
  {
    var a := SpaceEnd(s, i);
    if LitAt(s, a, ":") then Some(a + 1) else None
  }

  /** `\s*LABEL\s*:` at `i`: where the text after the colon starts. */
  function LabelColon(s: string, i: nat, tag: string): (r: Option<nat>)
    requires i <= |s|
    ensures r.Some? ==> i < r.value <= |s|
  {
    var a := SpaceEnd(s, i);
    if !LitAt(s, a, tag) then None else ColonAfter(s, a + |tag|)
  }

  function FeeAt(s: string, i: nat): (r: Option<FeeFields>)
    requires i <= |s|
    ensures r.Some? ==> HasShape(r.value.admission, DateShape)
    ensures r.Some? ==> IsAmount(r.value.salary) && IsAmount(r.value.fee)
  {
    if !LitAt(s, i, "Admissão") then None
    else match ColonAfter(s, i + 8)
      case None => None
      case Some(a) => FeeFrom(s, a)
  }

  /** `\s*(DATE)` at `a`, followed by the salary and the fee. */
  function FeeFrom(s: string, a: nat): (r: Option<FeeFields>)
    requires a <= |s|
    ensures r.Some? ==> HasShape(r.value.admission, DateShape)
    ensures r.Some? ==> IsAmount(r.value.salary) && IsAmount(r.value.fee)
  {
    var b := SpaceEnd(s, a);
    if !ShapeAt(s, b, DateShape) then None
    else match FeeTail(s, b + 10)
      case None => None
      case Some(t) =>
        ShapeSlice(s, b, DateShape);
        Some(FeeFields(s[b..b + 10], t.0, t.1))
  }

  /** `\s*Salário\s*:\s*([,.\d]+)\s*Valor\s*:\s*([,.\d]+)` at `x`: the salary and the fee. */
  function FeeTail(s: string, x: nat): (r: Option<(string, string)>)
    requires x <= |s|
    ensures r.Some? ==> IsAmount(r.value.0) && IsAmount(r.value.1)
  {
    match LabelColon(s, x, "Salário")
    case None => None
    case Some(c) =>
      var d := SpaceEnd(s, c);
      var e := AmountEnd(s, d);
      if e == d then None
      else match LabelColon(s, e, "Valor")
        case None => None
        case Some(f) =>
          match AmountAfter(s, f)
          case None => None
          case Some(fee) =>
            AmountSlice(s, d, e);
            Some((s[d..e], fee))
  }

  function FeeLine(s: string): (r: Option<FeeFields>)
    ensures r.Some? ==> HasShape(r.value.admission, DateShape)
    ensures r.Some? ==> IsAmount(r.value.salary) && IsAmount(r.value.fee)
  {
    match Find(0, |s|, (i: nat) => i <= |s| && FeeAt(s, i).Some?)
    case Some(i) => FeeAt(s, i)
    case None => None
  }

  // ---------------------------------------------------------------------------
  // Payroll, block opening line: `Cód:\s*(\d+).*?Nome:\s*(.*?)\s+Função:(.*?)(?:Dep|$)`

  datatype OpenFields = OpenFields(code: string, name: string, role: string)

  /** `(.*?)(?:Dep|$)` from `x`: where the role stops. */
  function RoleEnd(s: string, x: nat): (r: Option<nat>)
    requires x <= |s|
    ensures r.Some? ==> x <= r.value <= |s|
  {
    Find(x, LineEnd(s, x), (t: nat) => t <= |s| && (LitAt(s, t, "Dep") || AtDollar(s, t)))
  }

  /** `\s+Função:(.*?)(?:Dep|$)` at `q`: the role. */
  function OpenTail(s: string, q: nat): (r: Option<string>)
    requires q <= |s|
  {
    var x := SpaceEnd(s, q);
    if x == q || !LitAt(s, x, "Função:") then None
    else match RoleEnd(s, x + 7)
      case None => None
      case Some(t) => Some(s[x + 7..t])
  }

  function OpenNameEnd(s: string, k: nat): Option<nat>
    requires k <= |s|
  {
    Find(k, LineEnd(s, k), (q: nat) => q <= |s| && OpenTail(s, q).Some?)
  }

  /** `Nome:\s*(.*?)\s+Função:(.*?)(?:Dep|$)` at `n`: the name and the role. */
  function OpenNameAt(s: string, n: nat): (r: Option<(string, string)>)
    requires n <= |s|
    ensures r.Some? ==> '\n' !in r.value.0
  {
    if !LitAt(s, n, "Nome:") then None
    else
      var w := SpaceEnd(s, n + 5);
      match FindLast(n + 5, w, (k: nat) => k <= |s| && OpenNameEnd(s, k).Some?)
      case None => None
      case Some(k) =>
        var q := OpenNameEnd(s, k).value;
        LineSlice(s, k, q);
        Some((s[k..q], OpenTail(s, q).value))
  }

  function OpenAt(s: string, i: nat): (r: Option<OpenFields>)
    requires i <= |s|
    ensures r.Some? ==> IsCode(r.value.code) && '\n' !in r.value.name
  {
    if !LitAt(s, i, "Cód:") then None
    else
      var a := SpaceEnd(s, i + 4);
      var e := DigitEnd(s, a);
      if e == a then None
      else match Find(e, LineEnd(s, e), (n: nat) => n <= |s| && OpenNameAt(s, n).Some?)
        case None => None
        case Some(n) =>
          var t := OpenNameAt(s, n).value;
          CodeSlice(s, a, e);
          Some(OpenFields(s[a..e], t.0, t.1))
  }

  function OpenLine(s: string): (r: Option<OpenFields>)
    ensures r.Some? ==> IsCode(r.value.code) && '\n' !in r.value.name
  {
    match Find(0, |s|, (i: nat) => i <= |s| && OpenAt(s, i).Some?)
    case Some(i) => OpenAt(s, i)
    case None => None
  }

  // ---------------------------------------------------------------------------
  // Payroll, contract line: `Admissão:\s*(DATE).*?Salário:\s*([,.\d]+)`

  datatype ContractFields = ContractFields(admission: string, salary: string)

  function ContractAt(s: string, i: nat): (r: Option<ContractFields>)
    requires i <= |s|
    ensures r.Some? ==> HasShape(r.value.admission, DateShape) && IsAmount(r.value.salary)
  {
    if !LitAt(s, i, "Admissão:") then None else ContractFrom(s, SpaceEnd(s, i + 9))
  }

  /** `(DATE).*?Salário:\s*([,.\d]+)` at `a`: the date, then the first salary on the rest of the line. */
  function ContractFrom(s: string, a: nat): (r: Option<ContractFields>)
    requires a <= |s|
    ensures r.Some? ==> HasShape(r.value.admission, DateShape) && IsAmount(r.value.salary)
  {
    if !ShapeAt(s, a, DateShape) then None
    else match SalaryAfter(s, a + 10)
      case None => None
      case Some(salary) =>
        ShapeSlice(s, a, DateShape);
        Some(ContractFields(s[a..a + 10], salary))
  }

  /** `.*?Salário:\s*([,.\d]+)` from `x`: the first salary on the rest of the line. */
  function SalaryAfter(s: string, x: nat): (r: Option<string>)
    requires x <= |s|
    ensures r.Some? ==> IsAmount(r.value)
  {
    var p := (n: nat) => n <= |s| && LitAt(s, n, "Salário:") && AmountAfter(s, n + 8).Some?;
    match Find(x, LineEnd(s, x), p)
    case None => None
    case Some(n) => AmountAfter(s, n + 8)
  }

  function ContractLine(s: string): (r: Option<ContractFields>)
    ensures r.Some? ==> HasShape(r.value.admission, DateShape) && IsAmount(r.value.salary)
  {
    match Find(0, |s|, (i: nat) => i <= |s| && ContractAt(s, i).Some?)
    case Some(i) => ContractAt(s, i)
    case None => None
  }

  // ---------------------------------------------------------------------------
  // Payroll, page header (IGNORECASE, over the whole page text):
  // `(?:Apelido:.*?|\s*)Razão Social:\s*(.*?)(?:\s+CNPJ/CEI:|\s+Pág:|\n|$)`
  // `CNPJ/CEI:([\d\./\-]+)`

  /** Where the lazy company name may stop. */
  predicate NameStop(s: string, q: nat)
    requires q <= |s|
  {
    var x := SpaceEnd(s, q);
    || (x > q && (LitAtFold(s, x, "CNPJ/CEI:") || LitAtFold(s, x, "Pág:")))
    || (q < |s| && s[q] == '\n')
    || AtDollar(s, q)
  }

  /**
    `Razão Social:\s*(.*?)` followed by a stop, at `n`.  The whitespace after
    the colon is greedy and may cross line breaks; giving it back never helps,
    because the end of the line where the name starts is always a stop.
  */
  function CompanyAt(s: string, n: nat): (r: Option<string>)
    requires n <= |s|
    ensures r.Some? ==> '\n' !in r.value
  {
    if !LitAtFold(s, n, "Razão Social:") then None
    else
      var w := SpaceEnd(s, n + 13);
      match Find(w, LineEnd(s, w), (q: nat) => q <= |s| && NameStop(s, q))
      case None => None
      case Some(q) =>
        LineSlice(s, w, q);
        Some(s[w..q])
  }

  /**
    Both alternatives at start `i`: after `Apelido:` the lazy `.*?` looks for
    the first place on that line where the rest matches; otherwise `\s*` skips
    whitespace (which cannot begin `Razão`, so it is not given back).
  */
  function CompanyFrom(s: string, i: nat): (r: Option<string>)
    requires i <= |s|
    ensures r.Some? ==> '\n' !in r.value
  {
    var viaNickname :=
      if !LitAtFold(s, i, "Apelido:") then None
      else Find(i + 8, LineEnd(s, i + 8), (n: nat) => n <= |s| && CompanyAt(s, n).Some?);
    match viaNickname
    case Some(n) => CompanyAt(s, n)
    case None => CompanyAt(s, SpaceEnd(s, i))
  }

  /** The raw company name group of the first page's header, if any. */
  function CompanyName(s: string): (r: Option<string>)
    ensures r.Some? ==> '\n' !in r.value
  {
    match Find(0, |s|, (i: nat) => i <= |s| && CompanyFrom(s, i).Some?)
    case Some(i) => CompanyFrom(s, i)
    case None => None
  }

  /** The class `[\d\./\-]` of the CNPJ/CEI value. */
  predicate IsIdChar(c: char) {
    IsDigit(c) || c == '.' || c == '/' || c == '-'
  }

  function CnpjCeiAt(s: string, i: nat): (r: Option<string>)
    requires i <= |s|
    ensures r.Some? ==> r.value != [] && forall j :: 0 <= j < |r.value| ==> IsIdChar(r.value[j])
  {
    if !LitAtFold(s, i, "CNPJ/CEI:") then None
    else
      var e := RunEnd(s, i + 9, IsIdChar);
      if e == i + 9 then None else Some(s[i + 9..e])
  }

  /** The value after the first `CNPJ/CEI:` label of a page. */
  function CnpjCei(s: string): (r: Option<string>)
    ensures r.Some? ==> r.value != [] && forall j :: 0 <= j < |r.value| ==> IsIdChar(r.value[j])
  {
    match Find(0, |s|, (i: nat) => i <= |s| && CnpjCeiAt(s, i).Some?)
    case Some(i) => CnpjCeiAt(s, i)
    case None => None
  }

  // ---------------------------------------------------------------------------
  // Payroll, labelled amounts: `LABEL\s*([\d\.,]+)`, e.g. `Base INSS Empresa:\s*([\d\.,]+)`

  function LabelAmountAt(s: string, i: nat, tag: string): (r: Option<string>)
    requires i <= |s|
    ensures r.Some? ==> IsAmount(r.value)
  {
    if !LitAt(s, i, tag) then None else AmountAfter(s, i + |tag|)
  }

  /** The amount after the first occurrence of `tag` that has one. */
  function LabelAmount(s: string, tag: string): (r: Option<string>)
    ensures r.Some? ==> IsAmount(r.value)
  {
    match Find(0, |s|, (i: nat) => i <= |s| && LabelAmountAt(s, i, tag).Some?)
    case Some(i) => LabelAmountAt(s, i, tag)
    case None => None
  }

  // ---------------------------------------------------------------------------
  // Payroll, totals line: `Proventos:\s*([\d\.,]+).*?Descontos:\s*([\d\.,]+).*?Liquido:\s*([\d\.,]+)`

  datatype TotalsFields = TotalsFields(earnings: string, deductions: string, net: string)

  /** `LABEL\s*([\d\.,]+)` at `n`: the amount and where it ends. */
  function LabelledRun(s: string, n: nat, tag: string): (r: Option<(string, nat)>)
    requires n <= |s|
    ensures r.Some? ==> IsAmount(r.value.0) && n < r.value.1 <= |s|
  {
    if !LitAt(s, n, tag) then None
    else
      var a := SpaceEnd(s, n + |tag|);
      var e := AmountEnd(s, a);
      if e == a then None else Some((s[a..e], e))
  }

  /** `.*?LABEL\s*([\d\.,]+)` from `e`: the first place on the line where the label and an amount follow. */
  function LazyLabelled(s: string, e: nat, tag: string): (r: Option<(string, nat)>)
    requires e <= |s|
    ensures r.Some? ==> IsAmount(r.value.0) && e < r.value.1 <= |s|
  {
    match Find(e, LineEnd(s, e), (n: nat) => n <= |s| && LabelledRun(s, n, tag).Some?)
    case None => None
    case Some(n) => LabelledRun(s, n, tag)
  }

  function TotalsAt(s: string, i: nat): (r: Option<TotalsFields>)
    requires i <= |s|
    ensures r.Some? ==> IsAmount(r.value.earnings) && IsAmount(r.value.deductions) && IsAmount(r.value.net)
  {
    match LabelledRun(s, i, "Proventos:")
    case None => None
    case Some(p) =>
      var later := (n: nat) => n <= |s| && LabelledRun(s, n, "Descontos:").Some?
                         && LazyLabelled(s, LabelledRun(s, n, "Descontos:").value.1, "Liquido:").Some?;
      match Find(p.1, LineEnd(s, p.1), later)
      case None => None
      case Some(n) =>
        var d := LabelledRun(s, n, "Descontos:").value;
        var l := LazyLabelled(s, d.1, "Liquido:").value;
        Some(TotalsFields(p.0, d.0, l.0))
  }

  function TotalsLine(s: string): (r: Option<TotalsFields>)
    ensures r.Some? ==> IsAmount(r.value.earnings) && IsAmount(r.value.deductions) && IsAmount(r.value.net)
  {
    match Find(0, |s|, (i: nat) => i <= |s| && TotalsAt(s, i).Some?)
    case Some(i) => TotalsAt(s, i)
    case None => None
  }

  // ---------------------------------------------------------------------------
  // Payroll, item lines: `\d+LABEL\s+[\d\.,]+\s+([\d\.,]+)` (reference and amount),
  // `\d+LABEL\s+([\d\.,]+)` (amount only) and `\d+LABEL\s+[\d\.,]+` (presence)

  /** `\d+LABEL\s+([\d\.,]+)` at `i`: the first column and where it ends. */
  function ItemColumnAt(s: string, i: nat, tag: string): (r: Option<(string, nat)>)
    requires i <= |s|
    ensures r.Some? ==> IsAmount(r.value.0) && i < r.value.1 <= |s|
  {
    var e := DigitEnd(s, i);
    if e == i || !LitAt(s, e, tag) then None
    else
      var a := SpaceEnd(s, e + |tag|);
      var b := AmountEnd(s, a);
      if a == e + |tag| || b == a then None else Some((s[a..b], b))
  }

  /** `\s+([\d\.,]+)` after the first column: the second column. */
  function ItemSecondAt(s: string, i: nat, tag: string): (r: Option<string>)
    requires i <= |s|
    ensures r.Some? ==> IsAmount(r.value)
  {
    match ItemColumnAt(s, i, tag)
    case None => None
    case Some(c) =>
      var a := SpaceEnd(s, c.1);
      var b := AmountEnd(s, a);
      if a == c.1 || b == a then None else Some(s[a..b])
  }

  /** The amount column of the first two-column item line for `tag`. */
  function ItemAmount(s: string, tag: string): (r: Option<string>)
    ensures r.Some? ==> IsAmount(r.value)
  {
    match Find(0, |s|, (i: nat) => i <= |s| && ItemSecondAt(s, i, tag).Some?)
    case Some(i) => ItemSecondAt(s, i, tag)
    case None => None
  }

  /** The only column of the first one-column item line for `tag`. */
  function ItemSingle(s: string, tag: string): (r: Option<string>)
    ensures r.Some? ==> IsAmount(r.value)
  {
    match Find(0, |s|, (i: nat) => i <= |s| && ItemColumnAt(s, i, tag).Some?)
    case Some(i) => Some(ItemColumnAt(s, i, tag).value.0)
    case None => None
  }

  /** Whether an item line for `tag` with at least one column occurs. */
  predicate ItemPresent(s: string, tag: string) {
    exists i :: 0 <= i <= |s| && ItemColumnAt(s, i, tag).Some?
  }
}
