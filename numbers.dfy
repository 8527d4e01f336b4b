/** JavaScript `parseFloat` on exact reals: skip leading whitespace, read the
    longest prefix that is a decimal literal (sign, digits, fraction,
    exponent) or `Infinity`, and ignore the rest; `NaN` is `None`. */
module Numbers {
  import opened Text

  /** A parsed number: a finite real or an infinity with its sign. */
  datatype Number = Finite(value: real) | Infinity(negative: bool)

  /** `n > 0` on a JavaScript number that is not NaN. */
  predicate IsPositive(n: Number) {
    match n
    case Finite(v) => v > 0.0
    case Infinity(negative) => !negative
  }

  function Pow10(n: nat): (r: nat)
    ensures r >= 1
  {
    if n == 0 then 1 else 10 * Pow10(n - 1)
  }

  /** The value of one ASCII digit. */
  function DigitValue(c: char): (r: nat)
    requires IsDigit(c)
    ensures r < 10
  {
    c as int - '0' as int
  }

  /** The value of a string of ASCII digits read in base 10. */
  function DecimalValue(ds: string): nat
    requires AllDigits(ds)
  {
    if ds == [] then 0 else 10 * DecimalValue(ds[..|ds| - 1]) + DigitValue(ds[|ds| - 1])
  }

  /** The longest prefix of `s` made of ASCII digits. */
  function DigitPrefix(s: string): (r: string)
    ensures r <= s && AllDigits(r)
    ensures |r| < |s| ==> !IsDigit(s[|r|])
  {
    if s != [] && IsDigit(s[0]) then [s[0]] + DigitPrefix(s[1..]) else []
  }

  /** `10^e` for an integer exponent. */
  function Scale(e: int): (r: real)
    ensures r > 0.0
  {
    if e >= 0 then Pow10(e) as real else 1.0 / (Pow10(-e) as real)
  }

  /** The value of `whole.fraction`. */
  function Mantissa(whole: string, fraction: string): (r: real)
    requires AllDigits(whole) && AllDigits(fraction)
    ensures r >= 0.0
  {
    DecimalValue(whole) as real + DecimalValue(fraction) as real / (Pow10(|fraction|) as real)
  }

  /** The exponent part `e[+-]digits` at the start of `tail`, 0 when absent. */
  function ExponentOf(tail: string): int {
    if tail != [] && (tail[0] == 'e' || tail[0] == 'E') then
      var v := tail[1..];
      var negative := v != [] && v[0] == '-';
      var w := if v != [] && (v[0] == '-' || v[0] == '+') then v[1..] else v;
      var ds := DigitPrefix(w);
      var e: int := DecimalValue(ds);
      if negative then -e else e
    else 0
  }

  /** The unsigned decimal literal at the start of `u`: digits with an
      optional fraction (at least one digit in all) and an optional
      exponent; anything after it is ignored. */
  function ParseDecimal(u: string): (r: Option<real>)
    ensures r.Some? ==> r.value >= 0.0
  {
    var whole := DigitPrefix(u);
    var rest := u[|whole|..];
    var hasPoint := rest != [] && rest[0] == '.';
    var fraction := if hasPoint then DigitPrefix(rest[1..]) else [];
    if whole == [] && fraction == [] then None
    else
      var tail := if hasPoint then rest[1 + |fraction|..] else rest;
      var m, e := Mantissa(whole, fraction), Scale(ExponentOf(tail));
      ProductNonNegative(m, e);
      Some(m * e)
  }

  lemma ProductNonNegative(a: real, b: real)
    requires a >= 0.0 && b > 0.0
    ensures a * b >= 0.0
  {
  }

  /** An unsigned number: `Infinity` or a decimal literal. */
  function ParseUnsigned(u: string): (r: Option<Number>)
    ensures r.Some? ==> r.value.Infinity? ==> !r.value.negative
    ensures r.Some? ==> r.value.Finite? ==> r.value.value >= 0.0
  {
    if "Infinity" <= u then Some(Infinity(false))
    else match ParseDecimal(u)
      case None => None
      case Some(v) => Some(Finite(v))
  }

  function Negate(n: Number): Number {
    match n
    case Finite(v) => Finite(-v)
    case Infinity(negative) => Infinity(!negative)
  }

  /** A number with an optional sign, after the leading whitespace. */
  function ParseSigned(t: string): Option<Number> {
    if t != [] && t[0] == '-' then
      match ParseUnsigned(t[1..])
      case None => None
      case Some(n) => Some(Negate(n))
    else if t != [] && t[0] == '+' then ParseUnsigned(t[1..])
    else ParseUnsigned(t)
  }

  /** `parseFloat(s)`, with `None` for `NaN`: blank text is `NaN`, and only
      a leading minus sign gives a value below zero or minus infinity. */
  function ParseFloat(s: string): (r: Option<Number>)
    ensures r.Some? ==> TrimStart(s) != []
    ensures r.Some? && r.value.Finite? && r.value.value < 0.0 ==> TrimStart(s)[0] == '-'
    ensures r.Some? && r.value.Infinity? && r.value.negative ==> TrimStart(s)[0] == '-'
  {
    ParseSigned(TrimStart(s))
  }

  /** Base-10 rendering of a natural number, without leading zeros. */
  function DecimalString(n: nat): (r: string)
    ensures r != [] && AllDigits(r)
  {
    if n < 10 then ['0' + n as char]
    else DecimalString(n / 10) + ['0' + (n % 10) as char]
  }

  lemma {:induction false} DecimalValueOfString(n: nat)
    ensures DecimalValue(DecimalString(n)) == n
  {
    if n >= 10 {
      var ds := DecimalString(n);
      assert ds[..|ds| - 1] == DecimalString(n / 10);
      DecimalValueOfString(n / 10);
    }
  }

  lemma {:induction false} DigitPrefixOfDigits(ds: string)
    requires AllDigits(ds)
    ensures DigitPrefix(ds) == ds
  {
    if ds != [] {
      DigitPrefixOfDigits(ds[1..]);
    }
  }

  lemma ParseDecimalOfDigits(ds: string)
    requires ds != [] && AllDigits(ds)
    ensures ParseDecimal(ds) == Some(DecimalValue(ds) as real)
  {
    DigitPrefixOfDigits(ds);
    assert ds[|ds|..] == [];
    assert Mantissa(ds, []) == DecimalValue(ds) as real by {
      assert DecimalValue([]) == 0 && Pow10(0) == 1;
    }
    assert Scale(ExponentOf([])) == 1.0;
  }

  /** Parsing the decimal rendering of a natural number gives it back. */
  lemma ParseDecimalString(n: nat)
    ensures ParseFloat(DecimalString(n)) == Some(Finite(n as real))
  {
    var ds := DecimalString(n);
    assert IsDigit(ds[0]);
    TrimStartOfNonSpace(ds);
    assert !("Infinity" <= ds);
    ParseDecimalOfDigits(ds);
    DecimalValueOfString(n);
    assert ParseUnsigned(ds) == Some(Finite(n as real));
  }

  /** Leading whitespace is skipped. */
  lemma ParseFloatSkipsSpace(pre: string, s: string)
    requires AllSpace(pre)
    ensures ParseFloat(pre + s) == ParseFloat(s)
  {
    TrimStartSkipsSpace(pre, s);
  }

  /** Text whose first non-blank character cannot start a number is `NaN`. */
  lemma NotANumber(s: string)
    requires var t := TrimStart(s);
      t == [] || !(IsDigit(t[0]) || t[0] in {'.', '+', '-', 'I'})
    ensures ParseFloat(s) == None
  {
    var t := TrimStart(s);
    if t != [] {
      assert !("Infinity" <= t);
      assert DigitPrefix(t) == [];
    }
  }

  /** A number written with a leading minus sign is never positive. */
  lemma MinusIsNeverPositive(s: string)
    requires var t := TrimStart(s); t != [] && t[0] == '-'
    ensures ParseFloat(s).None? || !IsPositive(ParseFloat(s).value)
  {
  }
}
