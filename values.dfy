/**
  The two value normalisers of app.py: `limpar_valor` (Brazilian money text to a
  number) and `limpar_cnpj` (company tax id to its digits). Amounts are exact
  `real`s; the float rounding of Python's `float()` is not modelled.
*/
module Values {
  import opened Wrappers
  import opened Text

  /** What `limpar_valor` may be handed: a missing cell (None/NaN), a float, or text. */
  datatype Cell = Missing | Num(x: real) | Text(s: string)

  /** The ValueError `float()` raises; it carries the text `float()` was given. */
  datatype ValueError = ValueError(text: string)

  /** The placeholder the extractors store when a page has no CNPJ. */
  const NotFound: string := "Não Encontrado"

  /** What `limpar_cnpj` turns a missing CNPJ into. */
  const Placeholder: string := "N/A"

  function DigitValue(c: char): (d: nat)
    requires IsDigit(c)
    ensures d < 10
  {
    c as int - '0' as int
  }

  function DigitChar(d: nat): (c: char)
    requires d < 10
    ensures IsDigit(c) && DigitValue(c) == d
  {
    ('0' as int + d) as char
  }

  /** The number a run of decimal digits denotes. */
  function DigitsValue(ds: string): nat
    requires AllDigits(ds)
    decreases |ds|
  {
    if ds == [] then 0 else DigitsValue(ds[..|ds| - 1]) * 10 + DigitValue(ds[|ds| - 1])
  }

  /** `s.replace('.', '').replace(',', '.')`: thousands points dropped, the decimal comma made a point. */
  function Rewrite(s: string): (r: string)
    decreases |s|
  {
    if s == [] then [] else RewriteChar(s[0]) + Rewrite(s[1..])
  }

  function RewriteChar(c: char): string {
    if c == '.' then [] else if c == ',' then "." else [c]
  }

  /** Digits with at most one point and at least one digit, as `float()` reads them. */
  function ParseUnsigned(u: string): Option<real>
  {
    var i := DigitEnd(u, 0);
    if i == |u| then
      if i == 0 then None else Some(DigitsValue(u) as real)
    else if u[i] != '.' then None
    else
      var f := DigitEnd(u, i + 1);
      if f < |u| || f == 1 then None
      else
        assert AllDigits(u[..i]) && AllDigits(u[i + 1..]);
        Some(DigitsValue(u[..i]) as real + Fraction(u[i + 1..]))
  }

  /** The value of the digits after the decimal point. */
  function Fraction(ds: string): real
    requires AllDigits(ds)
    decreases |ds|
  {
    if ds == [] then 0.0 else (DigitValue(ds[0]) as real + Fraction(ds[1..])) / 10.0
  }

  /** `float(t)` on decimal text: surrounding whitespace and one leading sign are accepted. */
  function ParseDecimal(t: string): Option<real>
  {
    var body := Strip(t);
    if |body| > 0 && (body[0] == '+' || body[0] == '-') then
      match ParseUnsigned(body[1..])
      case Some(v) => Some(if body[0] == '-' then -v else v)
      case None => None
    else ParseUnsigned(body)
  }

  /**
    `limpar_valor`: a missing cell and the empty text give 0, a float comes back
    unchanged, and any other text is rewritten and handed to `float()`, whose
    ValueError reaches the caller.
  */
  function ToNumber(c: Cell): (r: Result<real, ValueError>)
    ensures c.Missing? || c == Text("") ==> r == Success(0.0)
    ensures c.Num? ==> r == Success(c.x)
    ensures r.Failure? ==> c.Text? && r.error == ValueError(Rewrite(c.s))
  {
    match c
    case Missing => Success(0.0)
    case Num(x) => Success(x)
    case Text(s) =>
      if s == "" then Success(0.0)
      else match ParseDecimal(Rewrite(s))
        case Some(v) => Success(v)
        case None => Failure(ValueError(Rewrite(s)))
  }

  lemma {:induction false} RewriteAppend(a: string, b: string)
    ensures Rewrite(a + b) == Rewrite(a) + Rewrite(b)
    decreases |a|
  {
    if a != [] {
      calc {
        Rewrite(a + b);
        RewriteChar(a[0]) + Rewrite((a + b)[1..]);
        { assert (a + b)[1..] == a[1..] + b; }
        RewriteChar(a[0]) + Rewrite(a[1..] + b);
        { RewriteAppend(a[1..], b); }
        RewriteChar(a[0]) + (Rewrite(a[1..]) + Rewrite(b));
        Rewrite(a) + Rewrite(b);
      }
    } else {
      assert a + b == b;
    }
  }

  lemma RewriteOne(c: char)
    ensures Rewrite([c]) == RewriteChar(c)
  {
    assert [c][1..] == [];
  }

  /**
    A point anywhere in the text is ignored, so misplaced thousands points
    (`"1.2.3,4"`) go through unnoticed.
  */
  lemma PointsIgnored(a: string, b: string)
    requires a + b != ""
    ensures ToNumber(Text(a + "." + b)) == ToNumber(Text(a + b))
  {
    RewriteSkipsPoint(a, b);
    assert a + "." + b != "";
  }

  lemma RewriteSkipsPoint(a: string, b: string)
    ensures Rewrite(a + "." + b) == Rewrite(a + b)
  {
    RewriteAppend(a + ".", b);
    RewriteAppend(a, ".");
    RewriteOne('.');
    RewriteAppend(a, b);
  }

  lemma UnsignedTwoPointsRejected(u: string, p: nat, q: nat)
    requires p < q < |u| && u[p] == '.' && u[q] == '.'
    ensures ParseUnsigned(u) == None
  {
    var i := DigitEnd(u, 0);
    assert !IsDigit(u[p]) && !IsDigit(u[q]);
    assert i <= p;
    if i < |u| && u[i] == '.' {
      assert DigitEnd(u, i + 1) <= q;
    }
  }

  lemma {:induction false} RewriteKeepsComma(s: string, i: nat)
    requires i < |s| && s[i] == ','
    ensures |Rewrite(s[..i])| < |Rewrite(s)| && Rewrite(s)[|Rewrite(s[..i])|] == '.'
  {
    assert s == s[..i] + ("," + s[i + 1..]);
    RewriteAppend(s[..i], "," + s[i + 1..]);
    RewriteAppend(",", s[i + 1..]);
  }

  /** Text with two decimal commas (`"1,2,3"`) is not a number: `float()` raises. */
  lemma TwoCommasRejected(s: string, i: nat, j: nat)
    requires i < j < |s| && s[i] == ',' && s[j] == ','
    ensures ToNumber(Text(s)).Failure?
  {
    var p := |Rewrite(s[..i])|;
    var q := |Rewrite(s[..j])|;
    RewriteKeepsComma(s, i);
    RewriteKeepsComma(s, j);
    assert s[..j] == s[..i] + s[i..j];
    RewriteAppend(s[..i], s[i..j]);
    assert s[i..j] == "," + s[i + 1..j];
    RewriteAppend(",", s[i + 1..j]);
    RewriteOne(',');
    DecimalTwoPointsRejected(Rewrite(s), p, q);
  }

  lemma DecimalTwoPointsRejected(t: string, p: nat, q: nat)
    requires p < q < |t| && t[p] == '.' && t[q] == '.'
    ensures ParseDecimal(t) == None
  {
    var a, b := StripSlice(t);
    var body := t[a..b];
    assert !IsSpace(t[p]) && !IsSpace(t[q]);
    assert a <= p;
    assert q < b;
    assert body[p - a] == '.' && body[q - a] == '.';
    if |body| > 0 && (body[0] == '+' || body[0] == '-') {
      UnsignedTwoPointsRejected(body[1..], p - a - 1, q - a - 1);
    } else {
      UnsignedTwoPointsRejected(body, p - a, q - a);
    }
  }

  /** The decimal digits of `n`, most significant first, without leading zeros. */
  function Digits(n: nat): (s: string)
    ensures |s| >= 1 && AllDigits(s)
    decreases n
  {
    if n < 10 then [DigitChar(n)] else Digits(n / 10) + [DigitChar(n % 10)]
  }

  lemma {:induction false} DigitsRoundTrip(n: nat)
    ensures DigitsValue(Digits(n)) == n
    decreases n
  {
    if n >= 10 {
      DigitsRoundTrip(n / 10);
      var s := Digits(n);
      assert s[..|s| - 1] == Digits(n / 10);
    }
  }

  /** Digits grouped by threes with thousands points, as the payroll documents print them. */
  function GroupThousands(ds: string): (g: string)
    decreases |ds|
  {
    if |ds| <= 3 then ds else GroupThousands(ds[..|ds| - 3]) + "." + ds[|ds| - 3..]
  }

  /** An amount of `cents` in the documents' format, e.g. 123456 as `"1.234,56"`. */
  function FormatAmount(cents: nat): string {
    GroupThousands(Digits(cents / 100)) + "," + [DigitChar(cents % 100 / 10), DigitChar(cents % 10)]
  }

  lemma {:induction false} RewriteDigits(ds: string)
    requires AllDigits(ds)
    ensures Rewrite(ds) == ds
    decreases |ds|
  {
    if ds != [] {
      RewriteDigits(ds[1..]);
    }
  }

  lemma {:induction false} RewriteGrouped(ds: string)
    requires AllDigits(ds)
    ensures Rewrite(GroupThousands(ds)) == ds
    decreases |ds|
  {
    if |ds| <= 3 {
      RewriteDigits(ds);
    } else {
      var hi, lo := ds[..|ds| - 3], ds[|ds| - 3..];
      RewriteGrouped(hi);
      RewriteSkipsPoint(GroupThousands(hi), lo);
      RewriteAppend(GroupThousands(hi), lo);
      RewriteDigits(lo);
      assert ds == hi + lo;
    }
  }

  /** Round trip: reading back an amount written in the documents' format gives that amount. */
  lemma AmountRoundTrip(cents: nat)
    ensures ToNumber(Text(FormatAmount(cents))) == Success(cents as real / 100.0)
  {
    PartsRoundTrip(cents, cents / 100, cents % 100 / 10, cents % 10);
  }

  lemma PartsRoundTrip(cents: nat, units: nat, tens: nat, ones: nat)
    requires tens < 10 && ones < 10 && cents == 100 * units + 10 * tens + ones
    ensures ToNumber(Text(FormatParts(units, tens, ones))) == Success(cents as real / 100.0)
  {
    FormattedRewrite(units, tens, ones);
    ReadsCents(FormatParts(units, tens, ones), cents, units, tens, ones);
  }

  /** Text that rewrites to the digits of `units`, a point and two decimals is read as `cents` / 100. */
  lemma ReadsCents(s: string, cents: nat, units: nat, tens: nat, ones: nat)
    requires tens < 10 && ones < 10 && cents == 100 * units + 10 * tens + ones
    requires Rewrite(s) == Digits(units) + "." + [DigitChar(tens), DigitChar(ones)]
    ensures ToNumber(Text(s)) == Success(cents as real / 100.0)
  {
    var v := cents as real / 100.0;
    ParsedCents(Rewrite(s), cents, units, tens, ones);
    ToNumberParsed(s, v);
  }

  lemma ParsedCents(t: string, cents: nat, units: nat, tens: nat, ones: nat)
    requires tens < 10 && ones < 10 && cents == 100 * units + 10 * tens + ones
    requires t == Digits(units) + "." + [DigitChar(tens), DigitChar(ones)]
    ensures ParseDecimal(t) == Some(cents as real / 100.0)
  {
    FormattedValue(cents, units, tens, ones);
    ParseJoined(t, Digits(units), [DigitChar(tens), DigitChar(ones)]);
  }

  /** A non-empty cell whose rewritten text parses is read as that number. */
  lemma ToNumberParsed(s: string, v: real)
    requires Rewrite(s) != "" && ParseDecimal(Rewrite(s)) == Some(v)
    ensures ToNumber(Text(s)) == Success(v)
  {
  }

  lemma FormattedValue(cents: nat, units: nat, tens: nat, ones: nat)
    requires tens < 10 && ones < 10 && cents == 100 * units + 10 * tens + ones
    ensures DigitsValue(Digits(units)) as real + Fraction([DigitChar(tens), DigitChar(ones)])
         == cents as real / 100.0
  {
    DigitsRoundTrip(units);
    TwoDigitsFraction(DigitChar(tens), DigitChar(ones));
    assert cents == 100 * units + (10 * tens + ones);
    CentsAsReal(cents, units, 10 * tens + ones);
  }

  function FormatParts(units: nat, tens: nat, ones: nat): string
    requires tens < 10 && ones < 10
  {
    GroupThousands(Digits(units)) + "," + [DigitChar(tens), DigitChar(ones)]
  }

  lemma FormattedRewrite(units: nat, tens: nat, ones: nat)
    requires tens < 10 && ones < 10
    ensures Rewrite(FormatParts(units, tens, ones)) == Digits(units) + "." + [DigitChar(tens), DigitChar(ones)]
  {
    RewriteFormatted(Digits(units), [DigitChar(tens), DigitChar(ones)]);
  }

  /** Digits, a point and two decimals read as their value. */
  lemma ParseJoined(t: string, ds: string, cents: string)
    requires ds != [] && AllDigits(ds) && |cents| == 2 && AllDigits(cents)
    requires t == ds + "." + cents
    ensures ParseDecimal(t) == Some(DigitsValue(ds) as real + Fraction(cents))
  {
    assert t[0] == ds[0] && t[|t| - 1] == cents[1];
    ParseDecimalUnsigned(t);
    ParseUnsignedJoined(t, ds, cents);
  }

  lemma ParseUnsignedJoined(t: string, ds: string, cents: string)
    requires ds != [] && AllDigits(ds) && |cents| == 2 && AllDigits(cents)
    requires t == ds + "." + cents
    ensures ParseUnsigned(t) == Some(DigitsValue(ds) as real + Fraction(cents))
  {
    var k := |ds|;
    assert t[..k] == ds;
    assert t[k + 1..] == cents;
    ParseUnsignedPoint(t, k);
  }

  lemma RewriteFormatted(ds: string, cents: string)
    requires AllDigits(ds) && AllDigits(cents)
    ensures Rewrite(GroupThousands(ds) + "," + cents) == ds + "." + cents
  {
    var grouped := GroupThousands(ds);
    RewriteAppend(grouped + ",", cents);
    RewriteAppend(grouped, ",");
    RewriteOne(',');
    RewriteGrouped(ds);
    RewriteDigits(cents);
  }

  lemma CentsAsReal(cents: nat, units: nat, rest: nat)
    requires cents == 100 * units + rest
    ensures units as real + rest as real / 100.0 == cents as real / 100.0
  {
  }

  /** Text that starts with a digit and ends with no whitespace is read without sign or padding. */
  lemma ParseDecimalUnsigned(t: string)
    requires t != [] && IsDigit(t[0]) && !IsSpace(t[|t| - 1])
    ensures ParseDecimal(t) == ParseUnsigned(t)
  {
    StripUnpadded(t);
  }

  lemma TwoDigitsFraction(d1: char, d2: char)
    requires IsDigit(d1) && IsDigit(d2)
    ensures Fraction([d1, d2]) == (10 * DigitValue(d1) + DigitValue(d2)) as real / 100.0
  {
    var s := [d1, d2];
    assert s[1..] == [d2];
    assert [d2][1..] == [];
    assert Fraction([d2]) == DigitValue(d2) as real / 10.0;
    assert Fraction(s) == (DigitValue(d1) as real + DigitValue(d2) as real / 10.0) / 10.0;
  }

  /** `float()` on digits, one point and digits. */
  lemma ParseUnsignedPoint(u: string, i: nat)
    requires 1 <= i < |u| && u[i] == '.'
    requires AllDigits(u[..i]) && AllDigits(u[i + 1..])
    ensures ParseUnsigned(u) == Some(DigitsValue(u[..i]) as real + Fraction(u[i + 1..]))
  {
    assert forall k :: 0 <= k < i ==> IsDigit(u[k]) by {
      forall k | 0 <= k < i ensures IsDigit(u[k]) {
        assert u[..i][k] == u[k];
      }
    }
    assert forall k :: i + 1 <= k < |u| ==> IsDigit(u[k]) by {
      forall k | i + 1 <= k < |u| ensures IsDigit(u[k]) {
        assert u[i + 1..][k - i - 1] == u[k];
      }
    }
    RunEndAt(u, 0, i, IsDigit);
    RunEndAt(u, i + 1, |u|, IsDigit);
  }

  /** The digit characters of `s`, in their original order (`re.sub(r'\D', '', s)`). */
  function DigitsOnly(s: string): (r: string)
    ensures AllDigits(r) && |r| <= |s|
    decreases |s|
  {
    if s == [] then [] else (if IsDigit(s[0]) then [s[0]] else []) + DigitsOnly(s[1..])
  }

  /** `limpar_cnpj`: a missing CNPJ or the not-found marker becomes the placeholder, anything else its digits. */
  function CleanCnpj(c: Option<string>): (r: string)
    ensures c == None || c == Some(NotFound) ==> r == Placeholder
  {
    match c
    case None => Placeholder
    case Some(s) => if s == NotFound then Placeholder else DigitsOnly(s)
  }

  /**
    The placeholder is not made of digits, so it never equals the normal form of
    a CNPJ that was found; every other input gives exactly its digits.
  */
  lemma PlaceholderIsNoId(s: string)
    requires s != NotFound
    ensures CleanCnpj(Some(s)) == DigitsOnly(s)
    ensures CleanCnpj(Some(s)) != Placeholder
  {
    assert !IsDigit(Placeholder[1]);
  }

  /** A digit is kept and any other character is dropped, not replaced. */
  lemma DigitsOnlyChar(c: char)
    ensures DigitsOnly([c]) == if IsDigit(c) then [c] else []
  {
    assert [c][1..] == [];
  }

  /** Removing non-digits commutes with concatenation: the digits keep their order. */
  lemma {:induction false} DigitsOnlyAppend(a: string, b: string)
    ensures DigitsOnly(a + b) == DigitsOnly(a) + DigitsOnly(b)
    decreases |a|
  {
    if a != [] {
      assert (a + b)[0] == a[0];
      assert (a + b)[1..] == a[1..] + b;
      DigitsOnlyAppend(a[1..], b);
    } else {
      assert a + b == b;
    }
  }

  /** A digits-only text comes back unchanged, and only such a text does. */
  lemma {:induction false} DigitsOnlyFixpoint(s: string)
    ensures DigitsOnly(s) == s <==> AllDigits(s)
    decreases |s|
  {
    if s != [] {
      DigitsOnlyFixpoint(s[1..]);
      if !IsDigit(s[0]) {
        assert |DigitsOnly(s)| < |s| by {
          assert DigitsOnly(s) == DigitsOnly(s[1..]);
        }
      }
    }
  }
}
