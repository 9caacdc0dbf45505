/** api/v1alpha1/common_types.go: the availability target of a monitor, an
    arbitrary-precision decimal that is checked and divided by one hundred. */
module Slo {
  import opened Base
  import opened Digits

  /** The number unscaled / 10^scale, the representation of gopkg.in/inf.v0. */
  datatype Dec = Dec(unscaled: int, scale: int)

  predicate IsSign(c: char) { c == '+' || c == '-' }

  /** Where the first point of `s` is, from index `i` on, or the length of `s`. */
  function PointAt(s: string, i: nat): (p: nat)
    requires i <= |s|
    ensures i <= p <= |s|
    ensures p < |s| ==> s[p] == '.'
    ensures forall k :: i <= k < p ==> s[k] != '.'
    decreases |s| - i
  {
    if i == |s| || s[i] == '.' then i else PointAt(s, i + 1)
  }

  /** Digits with at most one point among them and at least one digit: the
      number without its point and how many digits follow the point. */
  function ParseUnsigned(s: string): Option<(nat, nat)> {
    var p := PointAt(s, 0);
    var whole := s[..p];
    var fraction := if p < |s| then s[p + 1..] else "";
    if AllDigits(whole) && AllDigits(fraction) && whole + fraction != "" then
      Some((Value(whole + fraction), |fraction|))
    else None
  }

  function Signed(u: Option<(nat, nat)>, negative: bool): (d: Option<Dec>)
    ensures d.Some? ==> d.value.scale >= 0
  {
    match u
    case None => None
    case Some((magnitude, scale)) => Some(Dec(if negative then -(magnitude as int) else magnitude as int, scale))
  }

  /** The decimal grammar: an optional sign in front of an unsigned decimal. */
  function ParseDec(s: string): (d: Option<Dec>)
    ensures d.Some? ==> d.value.scale >= 0
  {
    if s != "" && IsSign(s[0]) then Signed(ParseUnsigned(s[1..]), s[0] == '-') else Signed(ParseUnsigned(s), false)
  }

  /** How the library prints the magnitude of a decimal. */
  function PrintUnsigned(magnitude: nat, scale: int): string {
    var digits := Print(magnitude);
    if scale <= 0 then
      digits + (if magnitude != 0 then Zeros(-scale) else "")
    else if |digits| <= scale then
      "0" + "." + (Zeros(scale - |digits|) + digits)
    else
      digits[..|digits| - scale] + "." + digits[|digits| - scale..]
  }

  /** How the library prints a decimal. */
  function PrintDec(d: Dec): string {
    if d.unscaled < 0 then "-" + PrintUnsigned(-d.unscaled, d.scale)
    else PrintUnsigned(d.unscaled, d.scale)
  }

  /** Comparison after bringing both numbers to the larger scale. */
  predicate Below(x: Dec, y: Dec) {
    var m := if x.scale < y.scale then y.scale else x.scale;
    x.unscaled * Pow10(m - x.scale) < y.unscaled * Pow10(m - y.scale)
  }

  const NINETY := Dec(9, -1)
  const HUNDRED := Dec(1, -2)
  const ONE_HUNDREDTH := Dec(1, 2)

  function Times(x: Dec, y: Dec): Dec {
    Dec(x.unscaled * y.unscaled, x.scale + y.scale)
  }

  /** SloSpec.IsValid: the target divided by one hundred, when the target is valid. */
  function IsValid(target: string): Option<string> {
    if target == "" then None
    else
      match ParseDec(target)
      case None => None
      case Some(d) =>
        if !Below(NINETY, d) then None
        else if !Below(d, HUNDRED) then None
        else Some(PrintDec(Times(d, ONE_HUNDREDTH)))
  }

  /** The exact value of a decimal. */
  function Real(d: Dec): real
    requires d.scale >= 0
  {
    d.unscaled as real / Pow10(d.scale) as real
  }

  lemma DigitsHaveNoPoint(s: string, t: string)
    requires AllDigits(s)
    ensures PointAt(s + "." + t, 0) == |s|
    ensures PointAt(s, 0) == |s|
  {
    assert (s + "." + t)[|s|] == '.';
    assert forall i :: 0 <= i < |s| ==> (s + "." + t)[i] == s[i];
  }

  /** Reading back a printed decimal gives the same number with the same scale. */
  lemma PrintParse(d: Dec)
    requires d.scale >= 0
    ensures ParseDec(PrintDec(d)) == Some(d)
  {
    var magnitude := if d.unscaled < 0 then -d.unscaled else d.unscaled;
    PrintParseUnsigned(magnitude, d.scale);
    ParsePlain(PrintUnsigned(magnitude, d.scale), (magnitude, d.scale));
    ParseNegative(PrintUnsigned(magnitude, d.scale), (magnitude, d.scale));
  }

  lemma ParsePlain(s: string, d: (nat, nat))
    requires ParseUnsigned(s) == Some(d) && s != "" && IsDigit(s[0])
    ensures ParseDec(s) == Some(Dec(d.0, d.1))
  {
  }

  lemma ParseNegative(s: string, d: (nat, nat))
    requires ParseUnsigned(s) == Some(d)
    ensures ParseDec("-" + s) == Some(Dec(-(d.0 as int), d.1))
  {
    var t := "-" + s;
    assert t[1..] == s;
    assert ParseDec(t) == Signed(ParseUnsigned(t[1..]), true);
  }

  lemma PrintParseUnsigned(magnitude: nat, scale: nat)
    ensures ParseUnsigned(PrintUnsigned(magnitude, scale)) == Some((magnitude, scale))
    ensures PrintUnsigned(magnitude, scale) != "" && IsDigit(PrintUnsigned(magnitude, scale)[0])
  {
    if scale == 0 {
      PrintParseWhole(magnitude);
    } else {
      var whole, fraction := PrintedParts(magnitude, scale);
      ParseParts(whole, fraction);
    }
  }

  lemma PrintParseWhole(magnitude: nat)
    ensures ParseUnsigned(PrintUnsigned(magnitude, 0)) == Some((magnitude, 0))
    ensures PrintUnsigned(magnitude, 0) != "" && IsDigit(PrintUnsigned(magnitude, 0)[0])
  {
    PrintValue(magnitude);
    ParseWhole(Print(magnitude));
    assert Print(magnitude) + Zeros(0) == Print(magnitude) && Print(magnitude) + "" == Print(magnitude);
  }

  /** The digits in front of and behind the printed point. */
  lemma PrintedParts(magnitude: nat, scale: nat) returns (whole: string, fraction: string)
    requires scale > 0
    ensures PrintUnsigned(magnitude, scale) == whole + "." + fraction
    ensures AllDigits(whole) && AllDigits(fraction) && whole != "" && |fraction| == scale
    ensures AllDigits(whole + fraction) && Value(whole + fraction) == magnitude
  {
    var digits := Print(magnitude);
    PrintValue(magnitude);
    if |digits| <= scale {
      PaddedValue(scale - |digits|, digits);
      whole, fraction := "0", Zeros(scale - |digits|) + digits;
    } else {
      whole, fraction := digits[..|digits| - scale], digits[|digits| - scale..];
      assert whole + fraction == digits;
    }
  }

  lemma ParseWhole(digits: string)
    requires AllDigits(digits) && digits != ""
    ensures ParseUnsigned(digits) == Some((Value(digits), 0))
  {
    DigitsHaveNoPoint(digits, "");
    assert digits[..|digits|] == digits && digits + "" == digits;
  }

  lemma PaddedValue(pad: nat, digits: string)
    requires AllDigits(digits)
    ensures AllDigits(Zeros(pad) + digits) && AllDigits("0" + (Zeros(pad) + digits))
    ensures Value("0" + (Zeros(pad) + digits)) == Value(digits)
  {
    ZerosValue(pad + 1, digits);
    LeadingZero(pad);
    assert "0" + (Zeros(pad) + digits) == Zeros(pad + 1) + digits;
  }

  lemma LeadingZero(n: nat)
    ensures "0" + Zeros(n) == Zeros(n + 1)
  {
  }

  lemma ParseParts(whole: string, fraction: string)
    requires AllDigits(whole) && AllDigits(fraction) && whole != ""
    ensures AllDigits(whole + fraction)
    ensures ParseUnsigned(whole + "." + fraction) == Some((Value(whole + fraction), |fraction|))
    ensures IsDigit((whole + "." + fraction)[0])
  {
    var body := whole + "." + fraction;
    DigitsHaveNoPoint(whole, fraction);
    assert body[..|whole|] == whole && body[|whole| + 1..] == fraction;
  }

  lemma {:induction false} Pow10Sum(a: nat, b: nat)
    ensures Pow10(a + b) == Pow10(a) * Pow10(b)
  {
    if a > 0 {
      Pow10Sum(a - 1, b);
      var x, y := Pow10(a - 1), Pow10(b);
      assert 10 * (x * y) == (10 * x) * y;
    }
  }

  /** A target is accepted exactly when it is a decimal strictly between 90 and
      100, whatever its number of digits. */
  lemma AcceptsExactly(target: string)
    ensures IsValid(target).Some? <==>
      ParseDec(target).Some?
      && 90 * Pow10(ParseDec(target).value.scale) < ParseDec(target).value.unscaled
      && ParseDec(target).value.unscaled < 100 * Pow10(ParseDec(target).value.scale)
  {
    if ParseDec(target).Some? {
      BoundsAreExact(ParseDec(target).value);
      assert target != "";
    }
  }

  lemma BoundsAreExact(d: Dec)
    requires d.scale >= 0
    ensures Below(NINETY, d) <==> 90 * Pow10(d.scale) < d.unscaled
    ensures Below(d, HUNDRED) <==> d.unscaled < 100 * Pow10(d.scale)
  {
    assert Pow10(0) == 1;
    Pow10Sum(d.scale, 1);
    Pow10Sum(d.scale, 2);
    assert Pow10(1) == 10 && Pow10(2) == 10 * Pow10(1);
  }

  /** The accepted target comes back divided by exactly one hundred: the printed
      result reads back as the same digits two places further right. */
  lemma ScalesExactly(target: string)
    requires IsValid(target).Some?
    ensures ParseDec(target).Some? && ParseDec(IsValid(target).value).Some?
    ensures ParseDec(IsValid(target).value).value
      == Dec(ParseDec(target).value.unscaled, ParseDec(target).value.scale + 2)
    ensures Real(ParseDec(IsValid(target).value).value) == Real(ParseDec(target).value) / 100.0
    ensures 0.9 < Real(ParseDec(IsValid(target).value).value) < 1.0
  {
    AcceptsExactly(target);
    var d := ParseDec(target).value;
    ScaledBack(d);
    assert Times(d, ONE_HUNDREDTH) == Dec(d.unscaled, d.scale + 2);
  }

  lemma ScaledBack(d: Dec)
    requires d.scale >= 0 && 90 * Pow10(d.scale) < d.unscaled < 100 * Pow10(d.scale)
    ensures ParseDec(PrintDec(Dec(d.unscaled, d.scale + 2))) == Some(Dec(d.unscaled, d.scale + 2))
    ensures Real(Dec(d.unscaled, d.scale + 2)) == Real(d) / 100.0
    ensures 0.9 < Real(Dec(d.unscaled, d.scale + 2)) < 1.0
  {
    PrintParse(Dec(d.unscaled, d.scale + 2));
    assert Dec(d.unscaled, d.scale) == d;
    RealScaled(d.unscaled, d.scale);
  }

  lemma RealScaled(unscaled: int, scale: nat)
    requires 90 * Pow10(scale) < unscaled < 100 * Pow10(scale)
    ensures Real(Dec(unscaled, scale + 2)) == Real(Dec(unscaled, scale)) / 100.0
    ensures 0.9 < Real(Dec(unscaled, scale + 2)) < 1.0
  {
    Pow10Sum(scale, 2);
    assert Pow10(1) == 10 && Pow10(2) == 10 * Pow10(1);
    assert Pow10(scale + 2) == Pow10(scale) * 100;
    Hundredth(unscaled, Pow10(scale));
  }

  lemma Hundredth(u: int, p: nat)
    requires p >= 1 && 90 * p < u < 100 * p
    ensures u as real / (p * 100) as real == (u as real / p as real) / 100.0
    ensures 0.9 < u as real / (p * 100) as real < 1.0
  {
    var q, x := p as real, u as real;
    var y := x / q;
    Quotient(x, q, 90.0, 100.0);
    assert (p * 100) as real == q * 100.0;
    QuotientIs(x, q * 100.0, y / 100.0);
  }

  lemma Quotient(x: real, q: real, low: real, high: real)
    requires q > 0.0 && low * q < x < high * q
    ensures (x / q) * q == x && low < x / q < high
  {
    var y := x / q;
    assert y * q == x;
    assert (y - low) * q > 0.0 && (high - y) * q > 0.0;
    PositiveFactor(y - low, q);
    PositiveFactor(high - y, q);
  }

  lemma PositiveFactor(a: real, q: real)
    requires q > 0.0 && a * q > 0.0
    ensures a > 0.0
  {
  }

  lemma QuotientIs(x: real, q: real, y: real)
    requires q > 0.0 && y * q == x
    ensures x / q == y
  {
    var z := x / q;
    assert (z - y) * q == 0.0;
  }
}
