/** Decimal digit strings: how the operator prints and reads whole numbers
    (fmt's %d and strconv.Atoi). */
module Digits {
  import opened Base

  const INT64_MAX: int := 0x7fff_ffff_ffff_ffff
  const INT64_MIN: int := -0x8000_0000_0000_0000

  predicate IsDigit(c: char) { '0' <= c <= '9' }

  predicate AllDigits(s: string) { forall i :: 0 <= i < |s| ==> IsDigit(s[i]) }

  function DigitValue(c: char): nat
    requires IsDigit(c)
  {
    c as int - '0' as int
  }

  function DigitChar(d: nat): (c: char)
    requires d < 10
    ensures IsDigit(c) && DigitValue(c) == d
  {
    ('0' as int + d) as char
  }

  function Pow10(n: nat): (p: nat)
    ensures p >= 1
  {
    if n == 0 then 1 else 10 * Pow10(n - 1)
  }

  /** The number a digit string denotes; the empty string denotes zero. */
  function Value(s: string): nat
    requires AllDigits(s)
  {
    if s == "" then 0 else 10 * Value(s[..|s| - 1]) + DigitValue(s[|s| - 1])
  }

  /** The shortest digit string of `n`. */
  function Print(n: nat): (s: string)
    ensures AllDigits(s) && |s| >= 1
  {
    if n < 10 then [DigitChar(n)] else Print(n / 10) + [DigitChar(n % 10)]
  }

  lemma {:induction false} PrintValue(n: nat)
    ensures Value(Print(n)) == n
  {
    if n < 10 {
      assert [DigitChar(n)][..0] == "";
    } else {
      PrintValue(n / 10);
      var s := Print(n / 10) + [DigitChar(n % 10)];
      assert s[..|s| - 1] == Print(n / 10);
    }
  }

  function Zeros(n: nat): (s: string)
    ensures |s| == n && AllDigits(s)
  {
    seq(n, i => '0')
  }

  lemma {:induction false} ZerosValue(n: nat, s: string)
    requires AllDigits(s)
    ensures AllDigits(Zeros(n) + s) && Value(Zeros(n) + s) == Value(s)
  {
    if s == "" {
      if n > 0 {
        ZerosValue(n - 1, "");
        assert Zeros(n - 1) + "" == Zeros(n - 1);
        assert Zeros(n)[..n - 1] == Zeros(n - 1);
      }
      assert Zeros(n) + "" == Zeros(n);
    } else {
      var t := s[..|s| - 1];
      ZerosValue(n, t);
      var z := Zeros(n) + s;
      assert z[..|z| - 1] == Zeros(n) + t;
    }
  }

  /** fmt's %d. */
  function Itoa(n: int): (s: string)
    ensures |s| >= 1
  {
    if n < 0 then "-" + Print(-n) else Print(n)
  }

  /** strconv.Atoi: an optional sign, at least one digit, a 64-bit result. */
  function Atoi(s: string): Option<int> {
    var signed := s != "" && (s[0] == '-' || s[0] == '+');
    var digits := if signed then s[1..] else s;
    if digits == "" || !AllDigits(digits) then None
    else
      var magnitude: int := Value(digits);
      var n := if signed && s[0] == '-' then -magnitude else magnitude;
      if INT64_MIN <= n <= INT64_MAX then Some(n) else None
  }

  /** Reading back a printed 64-bit number gives that number. */
  lemma AtoiItoa(n: int)
    requires INT64_MIN <= n <= INT64_MAX
    ensures Atoi(Itoa(n)) == Some(n)
  {
    var digits := Print(if n < 0 then -n else n);
    PrintValue(if n < 0 then -n else n);
    if n < 0 { ReadNegative(digits); } else { ReadPlain(digits); }
  }

  lemma ReadPlain(digits: string)
    requires AllDigits(digits) && digits != "" && Value(digits) <= INT64_MAX
    ensures Atoi(digits) == Some(Value(digits) as int)
  {
    assert IsDigit(digits[0]);
  }

  lemma ReadNegative(digits: string)
    requires AllDigits(digits) && digits != "" && -(Value(digits) as int) >= INT64_MIN
    ensures Atoi("-" + digits) == Some(-(Value(digits) as int))
  {
    assert ("-" + digits)[1..] == digits;
  }
}
