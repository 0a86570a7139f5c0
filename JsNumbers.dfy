/**
 * `parseFloat` as ECMAScript defines it: skip leading white space and line
 * terminators, then read the longest prefix that is a decimal literal (an
 * optional sign, then `Infinity` or digits with an optional fraction and an
 * optional exponent); NaN when there is none. The value is the exact decimal
 * value of that prefix, as a `real`.
 */
module JsNumbers {

  /** A number as `parseFloat` returns it. */
  datatype Number = NaN | Finite(value: real) | Infinity(negative: bool)

  predicate IsDigit(c: char) { '0' <= c <= '9' }

  predicate AllDigits(s: string) { forall i | 0 <= i < |s| :: IsDigit(s[i]) }

  /** The characters ECMAScript's `StrWhiteSpaceChar` admits: white space and line terminators. */
  predicate IsStrWhiteSpace(c: char) {
    || c == '\t' || c == '\U{000B}' || c == '\U{000C}' || c == '\U{FEFF}'
    || c == ' ' || c == '\U{00A0}' || c == '\U{1680}' || '\U{2000}' <= c <= '\U{200A}'
    || c == '\U{202F}' || c == '\U{205F}' || c == '\U{3000}'
    || c == '\n' || c == '\r' || c == '\U{2028}' || c == '\U{2029}'
  }

  predicate StartsWith(s: string, prefix: string) {
    |prefix| <= |s| && s[..|prefix|] == prefix
  }

  function DigitValue(c: char): nat
    requires IsDigit(c)
  {
    c as int - '0' as int
  }

  function DigitChar(d: nat): (c: char)
    requires d < 10
    ensures IsDigit(c) && DigitValue(c) == d
  {
    ('0' as int + d) as char
  }

  /** The value of a run of decimal digits, most significant first. */
  function DigitsValue(ds: string): nat
    requires AllDigits(ds)
    decreases |ds|
  {
    if ds == [] then 0 else 10 * DigitsValue(ds[..|ds| - 1]) + DigitValue(ds[|ds| - 1])
  }

  function Pow10(n: nat): (p: nat)
    ensures p >= 1
  {
    if n == 0 then 1 else 10 * Pow10(n - 1)
  }

  /** Ten to the power `e`, for a negative `e` too. */
  function Scale10(e: int): (r: real)
    ensures r > 0.0
  {
    if e >= 0 then Pow10(e) as real else 1.0 / Pow10(-e) as real
  }

  /** The value of the digits after a decimal point. */
  function FractionValue(ds: string): real
    requires AllDigits(ds)
  {
    DigitsValue(ds) as real / Pow10(|ds|) as real
  }

  /** The value of a literal with the given whole digits, fraction digits and exponent. */
  function LiteralValue(whole: string, fraction: string, exponent: int): real
    requires AllDigits(whole) && AllDigits(fraction)
  {
    (DigitsValue(whole) as real + FractionValue(fraction)) * Scale10(exponent)
  }

  /** The length of the longest prefix of `s` made of digits. */
  function DigitRun(s: string): (k: nat)
    ensures k <= |s|
    ensures AllDigits(s[..k])
    ensures k == |s| || !IsDigit(s[k])
  {
    if s == [] || !IsDigit(s[0]) then 0 else 1 + DigitRun(s[1..])
  }

  /** `s` without its leading white space and line terminators. */
  function TrimStart(s: string): (t: string)
    ensures |t| <= |s| && t == s[|s| - |t|..]
    ensures t == [] || !IsStrWhiteSpace(t[0])
    ensures forall i | 0 <= i < |s| - |t| :: IsStrWhiteSpace(s[i])
  {
    if s != [] && IsStrWhiteSpace(s[0]) then TrimStart(s[1..]) else s
  }

  /** `s` without a leading `+` or `-`. */
  function DropSign(s: string): string {
    if |s| > 0 && (s[0] == '+' || s[0] == '-') then s[1..] else s
  }

  /**
   * The exponent that an `e` or `E` followed by an optionally signed digit run
   * at the start of `s` denotes; 0 when `s` does not start with one, so that
   * the exponent part is not part of the literal.
   */
  function ExponentValue(s: string): int {
    if |s| > 0 && (s[0] == 'e' || s[0] == 'E') then
      var t := s[1..];
      var u := DropSign(t);
      var k := DigitRun(u);
      var magnitude: int := if k == 0 then 0 else DigitsValue(u[..k]);
      if |t| > 0 && t[0] == '-' then -magnitude else magnitude
    else 0
  }

  /** `-x`. */
  function Negate(x: Number): Number {
    match x
    case NaN => NaN
    case Finite(v) => Finite(-v)
    case Infinity(negative) => Infinity(!negative)
  }

  /** `x * k` for a positive finite `k`. */
  function Multiply(x: Number, k: real): (r: Number)
    requires k > 0.0
    ensures r.NaN? <==> x.NaN?
    ensures x.Infinity? ==> r == x
    ensures x.Finite? ==> r.Finite? && r.value == x.value * k
  {
    match x
    case NaN => NaN
    case Finite(v) => Finite(v * k)
    case Infinity(_) => x
  }

  /** `a > x`: never true against NaN, always true against minus infinity. */
  predicate GreaterThan(a: real, x: Number) {
    match x
    case NaN => false
    case Finite(v) => a > v
    case Infinity(negative) => negative
  }

  /** The value of the longest unsigned decimal literal at the start of `u`. */
  function ParseUnsigned(u: string): Number {
    if StartsWith(u, "Infinity") then Infinity(false)
    else
      var i := DigitRun(u);
      ParseAfterWhole(u[..i], u[i..])
  }

  /** The literal once its whole digits `whole` are read; `afterWhole` is what follows them. */
  function ParseAfterWhole(whole: string, afterWhole: string): Number
    requires AllDigits(whole)
  {
    if |afterWhole| > 0 && afterWhole[0] == '.' then ParseAfterPoint(whole, afterWhole[1..])
    else if whole == [] then NaN
    else Finite(LiteralValue(whole, [], ExponentValue(afterWhole)))
  }

  /** The literal once its whole digits and a decimal point are read; `afterPoint` is what follows. */
  function ParseAfterPoint(whole: string, afterPoint: string): Number
    requires AllDigits(whole)
  {
    var f := DigitRun(afterPoint);
    if whole == [] && f == 0 then NaN
    else Finite(LiteralValue(whole, afterPoint[..f], ExponentValue(afterPoint[f..])))
  }

  /** `parseFloat(s)`. */
  function ParseFloat(s: string): Number {
    var t := TrimStart(s);
    var magnitude := ParseUnsigned(DropSign(t));
    if |t| > 0 && t[0] == '-' then Negate(magnitude) else magnitude
  }

  /** The decimal numeral of `n`, as `String(n)` writes it. */
  function DecimalOf(n: nat): (ds: string)
    ensures |ds| > 0 && AllDigits(ds)
    ensures DigitsValue(ds) == n
    ensures ds[0] == '0' ==> n == 0
  {
    if n < 10 then [DigitChar(n)]
    else
      var ds := DecimalOf(n / 10) + [DigitChar(n % 10)];
      assert ds[..|ds| - 1] == DecimalOf(n / 10);
      ds
  }

  /** Without an exponent a literal is worth its whole part plus its fraction. */
  lemma {:induction false} LiteralValueWithoutExponent(whole: string, fraction: string)
    requires AllDigits(whole) && AllDigits(fraction)
    ensures LiteralValue(whole, fraction, 0) == DigitsValue(whole) as real + FractionValue(fraction)
    ensures fraction == [] ==> LiteralValue(whole, fraction, 0) == DigitsValue(whole) as real
  {
  }

  /** The digits, and nothing after them, are read when a non-digit follows. */
  lemma {:induction false} DigitRunOfDigits(ds: string, rest: string)
    requires AllDigits(ds)
    requires rest == [] || !IsDigit(rest[0])
    ensures DigitRun(ds + rest) == |ds|
    decreases |ds|
  {
    if ds != [] {
      assert (ds + rest)[1..] == ds[1..] + rest;
      DigitRunOfDigits(ds[1..], rest);
    } else {
      assert ds + rest == rest;
    }
  }

  /** White space in front of a string that does not start with white space is skipped. */
  lemma {:induction false} TrimStartSkips(w: string, s: string)
    requires forall i | 0 <= i < |w| :: IsStrWhiteSpace(w[i])
    requires s == [] || !IsStrWhiteSpace(s[0])
    ensures TrimStart(w + s) == s
    decreases |w|
  {
    if w == [] {
      assert w + s == s;
    } else {
      assert (w + s)[0] == w[0];
      assert (w + s)[1..] == w[1..] + s;
      TrimStartSkips(w[1..], s);
    }
  }

  /** A run of digits followed by a character that cannot continue it reads as its value. */
  lemma {:induction false} ParseUnsignedOfDigits(ds: string, rest: string)
    requires |ds| > 0 && AllDigits(ds)
    requires rest == [] || !(IsDigit(rest[0]) || rest[0] == '.' || rest[0] == 'e' || rest[0] == 'E')
    ensures ParseUnsigned(ds + rest) == Finite(DigitsValue(ds) as real)
  {
    var u := ds + rest;
    assert !StartsWith(u, "Infinity") by {
      assert u[0] == ds[0];
    }
    DigitRunOfDigits(ds, rest);
    assert u[..|ds|] == ds && u[|ds|..] == rest;
    assert ExponentValue(rest) == 0;
    assert ParseAfterWhole(ds, rest) == Finite(LiteralValue(ds, [], 0));
    LiteralValueWithoutExponent(ds, []);
  }

  /**
   * Reading back a run of digits: white space, a sign and the digits,
   * followed by anything that cannot continue a decimal literal, parse to
   * plus or minus their value.
   */
  lemma {:induction false} ParseFloatOfDigits(w: string, sign: string, ds: string, rest: string)
    requires forall i | 0 <= i < |w| :: IsStrWhiteSpace(w[i])
    requires sign == "" || sign == "+" || sign == "-"
    requires |ds| > 0 && AllDigits(ds)
    requires rest == [] || !(IsDigit(rest[0]) || rest[0] == '.' || rest[0] == 'e' || rest[0] == 'E')
    ensures ParseFloat(w + sign + ds + rest)
            == Finite(if sign == "-" then -(DigitsValue(ds) as real) else DigitsValue(ds) as real)
  {
    ParseFloatAfterSign(w, sign, ds, rest);
    ParseUnsignedOfDigits(ds, rest);
  }

  /** White space and a sign in front of a numeral only decide the sign of the result. */
  lemma {:induction false} ParseFloatAfterSign(w: string, sign: string, ds: string, rest: string)
    requires forall i | 0 <= i < |w| :: IsStrWhiteSpace(w[i])
    requires sign == "" || sign == "+" || sign == "-"
    requires |ds| > 0 && IsDigit(ds[0])
    ensures ParseFloat(w + sign + ds + rest)
            == if sign == "-" then Negate(ParseUnsigned(ds + rest)) else ParseUnsigned(ds + rest)
  {
    SignedNumeralTrimmed(w, sign, ds, rest);
  }

  /** White space and a sign in front of a numeral are consumed before the numeral is read. */
  lemma {:induction false} SignedNumeralTrimmed(w: string, sign: string, ds: string, rest: string)
    requires forall i | 0 <= i < |w| :: IsStrWhiteSpace(w[i])
    requires sign == "" || sign == "+" || sign == "-"
    requires |ds| > 0 && IsDigit(ds[0])
    ensures var t := TrimStart(w + sign + ds + rest);
      && DropSign(t) == ds + rest
      && ((|t| > 0 && t[0] == '-') <==> sign == "-")
  {
    var numeral := ds + rest;
    assert numeral[0] == ds[0];
    SignedNumeralShape(sign, numeral);
    ConcatRegroup(w, sign, ds, rest);
    TrimStartSkips(w, sign + numeral);
  }

  lemma {:induction false} ConcatRegroup(a: string, b: string, c: string, d: string)
    ensures a + b + c + d == a + (b + (c + d))
  {
  }

  /** An optional sign followed by a digit: no white space to skip, and the sign is the first character. */
  lemma {:induction false} SignedNumeralShape(sign: string, numeral: string)
    requires sign == "" || sign == "+" || sign == "-"
    requires |numeral| > 0 && IsDigit(numeral[0])
    ensures var signed := sign + numeral;
      && !IsStrWhiteSpace(signed[0])
      && DropSign(signed) == numeral
      && (signed[0] == '-' <==> sign == "-")
  {
    var signed := sign + numeral;
    if sign == "" {
      assert signed == numeral;
    } else {
      assert signed[0] == sign[0];
      assert signed[1..] == numeral;
    }
  }

  /** `parseFloat` reads back the numeral `String(n)` writes, behind white space and a sign. */
  lemma {:induction false} ParseFloatOfDecimal(w: string, sign: string, n: nat, rest: string)
    requires forall i | 0 <= i < |w| :: IsStrWhiteSpace(w[i])
    requires sign == "" || sign == "+" || sign == "-"
    requires rest == [] || !(IsDigit(rest[0]) || rest[0] == '.' || rest[0] == 'e' || rest[0] == 'E')
    ensures ParseFloat(w + sign + DecimalOf(n) + rest) == Finite(if sign == "-" then -(n as real) else n as real)
  {
    ParseFloatOfDigits(w, sign, DecimalOf(n), rest);
  }

  /**
   * A numeral with a decimal point: digits `whole`, a point and digits
   * `fraction` (not both empty) parse to `whole` plus `fraction` tenths,
   * hundredths and so on.
   */
  lemma {:induction false} ParseFloatOfFraction(whole: string, fraction: string, rest: string)
    requires AllDigits(whole) && AllDigits(fraction) && |whole| + |fraction| > 0
    requires rest == [] || !(IsDigit(rest[0]) || rest[0] == 'e' || rest[0] == 'E')
    ensures ParseFloat(whole + "." + fraction + rest)
            == Finite(DigitsValue(whole) as real + FractionValue(fraction))
  {
    var afterPoint := fraction + rest;
    var s := whole + (['.'] + afterPoint);
    assert whole + "." + fraction + rest == s;
    assert s[0] == if whole == [] then '.' else whole[0];
    TrimStartSkips([], s);
    assert [] + s == s;
    assert s[0] != '+' && s[0] != '-';
    assert DropSign(s) == s;
    ParseUnsignedOfFraction(whole, fraction, rest);
  }

  lemma {:induction false} ParseUnsignedOfFraction(whole: string, fraction: string, rest: string)
    requires AllDigits(whole) && AllDigits(fraction) && |whole| + |fraction| > 0
    requires rest == [] || !(IsDigit(rest[0]) || rest[0] == 'e' || rest[0] == 'E')
    ensures ParseUnsigned(whole + (['.'] + (fraction + rest)))
            == Finite(DigitsValue(whole) as real + FractionValue(fraction))
  {
    var afterPoint := fraction + rest;
    var pointed := ['.'] + afterPoint;
    var s := whole + pointed;
    assert !StartsWith(s, "Infinity") by {
      assert s[0] == if whole == [] then '.' else whole[0];
    }
    DigitRunOfDigits(whole, pointed);
    assert s[..|whole|] == whole && s[|whole|..] == pointed;
    assert pointed[1..] == afterPoint;
    ParseAfterPointOfFraction(whole, fraction, rest);
  }

  /** After the point, the fraction digits are read and nothing that follows them. */
  lemma {:induction false} ParseAfterPointOfFraction(whole: string, fraction: string, rest: string)
    requires AllDigits(whole) && AllDigits(fraction) && |whole| + |fraction| > 0
    requires rest == [] || !(IsDigit(rest[0]) || rest[0] == 'e' || rest[0] == 'E')
    ensures ParseAfterPoint(whole, fraction + rest)
            == Finite(DigitsValue(whole) as real + FractionValue(fraction))
  {
    var afterPoint := fraction + rest;
    DigitRunOfDigits(fraction, rest);
    assert afterPoint[..|fraction|] == fraction && afterPoint[|fraction|..] == rest;
    assert ExponentValue(rest) == 0;
    LiteralValueWithoutExponent(whole, fraction);
  }

  /**
   * `parseFloat` gives NaN exactly when, after the white space and an optional
   * sign, the text starts neither with `Infinity`, nor with a digit, nor with
   * a point followed by a digit.
   */
  lemma {:induction false} ParseFloatNaN(s: string)
    ensures ParseFloat(s) == NaN <==>
      var u := DropSign(TrimStart(s));
      && !StartsWith(u, "Infinity")
      && !(|u| > 0 && IsDigit(u[0]))
      && !(|u| > 1 && u[0] == '.' && IsDigit(u[1]))
  {
    var t := TrimStart(s);
    var u := DropSign(t);
    assert ParseFloat(s) == NaN <==> ParseUnsigned(u) == NaN;
    if !StartsWith(u, "Infinity") {
      var i := DigitRun(u);
      assert i > 0 <==> |u| > 0 && IsDigit(u[0]);
      assert ParseUnsigned(u) == ParseAfterWhole(u[..i], u[i..]);
      if i == 0 && |u| > 0 && u[0] == '.' {
        assert u[i..][1..] == u[1..];
        assert DigitRun(u[1..]) > 0 <==> |u| > 1 && IsDigit(u[1]);
      }
    }
  }
}
