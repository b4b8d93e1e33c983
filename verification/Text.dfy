/** Values as the text they travel in: identifiers, idempotency keys, decimals, dates. */
module Text {

  datatype Option<+T> = None | Some(value: T)

  /** A UUID is its canonical text, 36 characters, so `str` and `uuid.UUID` are the identity on it. */
  type Uuid = s: string | |s| == 36 witness "00000000-0000-0000-0000-000000000000"

  function ParseUuid(s: string): Option<Uuid> {
    if |s| == 36 then Some(s) else None
  }

  predicate StartsWith(s: string, prefix: string) {
    |prefix| <= |s| && s[..|prefix|] == prefix
  }

  lemma PrefixFacts(prefix: string, k: string)
    ensures StartsWith(prefix + k, prefix)
    ensures (prefix + k)[|prefix|..] == k
  {
  }

  // ── Decimal digits ──────────────────────────────────────────────────────────

  predicate IsDigit(c: char) { '0' <= c <= '9' }

  predicate AllDigits(s: string) { forall i :: 0 <= i < |s| ==> IsDigit(s[i]) }

  function DigitChar(d: nat): (c: char)
    requires d < 10
    ensures IsDigit(c) && DigitValue(c) == d
  {
    '0' + d as char
  }

  function DigitValue(c: char): (d: nat)
    requires IsDigit(c)
    ensures d < 10
  {
    (c - '0') as int
  }

  function Digits(n: nat): (s: string)
    ensures |s| >= 1 && AllDigits(s)
  {
    if n < 10 then [DigitChar(n)] else Digits(n / 10) + [DigitChar(n % 10)]
  }

  function Number(s: string): (n: nat)
    requires AllDigits(s)
  {
    if s == [] then 0 else 10 * Number(s[..|s| - 1]) + DigitValue(s[|s| - 1])
  }

  lemma {:induction false} NumberOfDigits(n: nat)
    ensures Number(Digits(n)) == n
  {
    if n >= 10 {
      var s := Digits(n / 10);
      assert Digits(n)[..|s|] == s;
      NumberOfDigits(n / 10);
    } else {
      assert Digits(n)[..0] == [];
    }
  }

  function Zeros(n: nat): (s: string)
    ensures |s| == n && AllDigits(s)
  {
    seq(n, _ => '0')
  }

  lemma {:induction false} NumberPadded(n: nat, s: string)
    requires AllDigits(s)
    ensures Number(Zeros(n) + s) == Number(s)
  {
    var p := Zeros(n) + s;
    if s == [] {
      assert p == Zeros(n);
      if n > 0 {
        assert p[..n - 1] == Zeros(n - 1) + [];
        NumberPadded(n - 1, []);
      }
    } else {
      assert p[..|p| - 1] == Zeros(n) + s[..|s| - 1];
      NumberPadded(n, s[..|s| - 1]);
    }
  }

  // ── Decimals ────────────────────────────────────────────────────────────────

  /** units * 10^-scale, with the trailing zeros Python's Decimal keeps. */
  datatype Decimal = Decimal(units: int, scale: nat)

  /** Money columns are Numeric(19, 4): at most four decimal places. */
  type Amount = d: Decimal | d.scale <= 4 witness Decimal(0, 0)

  function Pow10(n: nat): (p: int)
    ensures p > 0
  {
    if n == 0 then 1 else 10 * Pow10(n - 1)
  }

  /** The amount in ten-thousandths, the unit of a Numeric(19, 4) column. */
  function Money(d: Amount): int { d.units * Pow10(4 - d.scale) }

  function Abs(n: int): nat { if n < 0 then -n else n }

  /** Digits of the coefficient, padded so that one digit stands before the point. */
  function Coefficient(units: nat, scale: nat): (s: string)
    ensures |s| > scale && AllDigits(s)
  {
    var ds := Digits(units);
    if |ds| > scale then ds else Zeros(scale + 1 - |ds|) + ds
  }

  function Pointed(whole: string, part: string): string {
    if part == "" then whole else whole + "." + part
  }

  /** `str(Decimal)`; no exponent is ever printed at four places or fewer. */
  function Str(d: Amount): string {
    var c := Coefficient(Abs(d.units), d.scale);
    var body := Pointed(c[..|c| - d.scale], c[|c| - d.scale..]);
    if d.units < 0 then "-" + body else body
  }

  function IndexOf(s: string, c: char): (i: nat)
    ensures i <= |s|
    ensures i < |s| ==> s[i] == c
    ensures forall j :: 0 <= j < i ==> s[j] != c
  {
    if s == [] then 0 else if s[0] == c then 0 else 1 + IndexOf(s[1..], c)
  }

  /** Splits at the first point; a point with nothing after it is refused. */
  function SplitPoint(s: string): Option<(string, string)> {
    var dot := IndexOf(s, '.');
    if dot == |s| then Some((s, ""))
    else if dot + 1 == |s| then None
    else Some((s[..dot], s[dot + 1..]))
  }

  function ParseParts(whole: string, part: string, negative: bool): Option<Amount> {
    if whole != "" && AllDigits(whole + part) && |part| <= 4 then
      var n: int := Number(whole + part);
      Some(Decimal(if negative then -n else n, |part|))
    else None
  }

  /** `Decimal(text)` on plain notation; None stands for decimal.InvalidOperation. */
  function Parse(s: string): Option<Amount> {
    var negative := s != "" && s[0] == '-';
    match SplitPoint(if negative then s[1..] else s)
    case None => None
    case Some((whole, part)) => ParseParts(whole, part, negative)
  }

  lemma CoefficientNumber(units: nat, scale: nat)
    ensures Number(Coefficient(units, scale)) == units
  {
    var ds := Digits(units);
    NumberOfDigits(units);
    if |ds| <= scale {
      NumberPadded(scale + 1 - |ds|, ds);
    }
  }

  lemma SplitPointed(whole: string, part: string)
    requires AllDigits(whole)
    ensures SplitPoint(Pointed(whole, part)) == Some((whole, part))
  {
    var s := Pointed(whole, part);
    if part == "" {
      assert IndexOf(s, '.') == |s|;
    } else {
      assert s[|whole|] == '.';
      assert forall j :: 0 <= j < |whole| ==> s[j] == whole[j];
      assert IndexOf(s, '.') == |whole|;
      assert s[..|whole|] == whole && s[|whole| + 1..] == part;
    }
  }

  lemma PartsRoundTrip(d: Amount, c: string)
    requires c == Coefficient(Abs(d.units), d.scale)
    ensures ParseParts(c[..|c| - d.scale], c[|c| - d.scale..], d.units < 0) == Some(d)
  {
    CoefficientNumber(Abs(d.units), d.scale);
    assert c[..|c| - d.scale] + c[|c| - d.scale..] == c;
  }

  lemma ParseSigned(whole: string, part: string, negative: bool)
    requires whole != "" && AllDigits(whole)
    ensures Parse(if negative then "-" + Pointed(whole, part) else Pointed(whole, part))
         == ParseParts(whole, part, negative)
  {
    var body := Pointed(whole, part);
    SplitPointed(whole, part);
    assert IsDigit(whole[0]) && body[0] == whole[0];
    assert ("-" + body)[1..] == body;
  }

  /** Amounts survive the JSON payload: parsing the printed form gives back the same decimal. */
  lemma DecimalRoundTrip(d: Amount)
    ensures Parse(Str(d)) == Some(d)
  {
    var c := Coefficient(Abs(d.units), d.scale);
    var whole, part, negative := c[..|c| - d.scale], c[|c| - d.scale..], d.units < 0;
    assert Str(d) == if negative then "-" + Pointed(whole, part) else Pointed(whole, part);
    calc {
      Parse(Str(d));
      { ParseSigned(whole, part, negative); }
      ParseParts(whole, part, negative);
      { PartsRoundTrip(d, c); }
      Some(d);
    }
  }

  /** Money is exact: units over 10^scale, in ten-thousandths. */
  lemma MoneyIsExact(d: Amount)
    ensures Money(d) * Pow10(d.scale) == 10_000 * d.units
  {
    assert Pow10(1) == 10 && Pow10(2) == 100 && Pow10(3) == 1_000 && Pow10(4) == 10_000;
  }

  lemma PartsRead(whole: string, part: string, negative: bool, n: int)
    requires whole != "" && AllDigits(whole + part) && |part| <= 4 && n == Number(whole + part)
    ensures ParseParts(whole, part, negative) == Some(Decimal(if negative then -n else n, |part|))
  {
  }

  /** A number text is worth its digits in base ten, with the places after the point as its scale. */
  lemma ParseReads(whole: string, part: string, negative: bool, n: int)
    requires whole != "" && AllDigits(whole) && AllDigits(whole + part) && |part| <= 4 && n == Number(whole + part)
    ensures Parse(if negative then "-" + Pointed(whole, part) else Pointed(whole, part))
         == Some(Decimal(if negative then -n else n, |part|))
  {
    ParseSigned(whole, part, negative);
    PartsRead(whole, part, negative, n);
  }

  /** Digits weigh ten each: a number text with one more digit. */
  lemma NumberAppend(s: string, c: char)
    requires AllDigits(s) && IsDigit(c)
    ensures AllDigits(s + [c]) && Number(s + [c]) == 10 * Number(s) + (c as int - '0' as int)
  {
    assert (s + [c])[..|s|] == s;
  }

  // ── Idempotency keys ────────────────────────────────────────────────────────

  /** A calendar day as `date.isoformat()` prints it: YYYY-MM-DD, ten characters. */
  type IsoDate = s: string | |s| == 10 witness "1970-01-01"

  function UuidDateKey(prefix: string, id: Uuid, day: IsoDate): string {
    prefix + id + "-" + day
  }

  /** Fixed-width parts make `prefix{id}-{date}` keys unambiguous. */
  lemma UuidDateKeyInjective(prefix: string, a: Uuid, d: IsoDate, b: Uuid, e: IsoDate)
    requires UuidDateKey(prefix, a, d) == UuidDateKey(prefix, b, e)
    ensures a == b && d == e
  {
    var s, n := UuidDateKey(prefix, a, d), |prefix|;
    assert s[n..n + 36] == a && s[n..n + 36] == b;
    assert s[n + 37..] == d && s[n + 37..] == e;
  }
}
