/** Decimal text for integers, as the program writes and reads it:
    `strconv.FormatUint`/`%d` (shortest digits), zero padded fields (`%02d`,
    time layouts) and Go's `strconv.Atoi`. */
module Decimal {
  import opened Base

  /** Range of Go's 64-bit `int`, which `strconv.Atoi` returns. */
  const INT64_MIN: int := -0x8000_0000_0000_0000
  const INT64_MAX: int := 0x7fff_ffff_ffff_ffff

  predicate IsDigit(c: char) { '0' <= c <= '9' }

  predicate AllDigits(s: string) { forall i :: 0 <= i < |s| ==> IsDigit(s[i]) }

  function DigitChar(d: nat): (c: char)
    requires d < 10
    ensures IsDigit(c) && c as int - '0' as int == d
  {
    ('0' as int + d) as char
  }

  function DigitValue(c: char): nat
    requires IsDigit(c)
  {
    c as int - '0' as int
  }

  /** The shortest decimal representation of `n`: no sign, no leading zero. */
  function Digits(n: nat): (s: string)
    ensures 1 <= |s| && AllDigits(s)
    ensures |s| > 1 ==> s[0] != '0'
    ensures n < 10 <==> |s| == 1
    decreases n
  {
    if n < 10 then [DigitChar(n)] else Digits(n / 10) + [DigitChar(n % 10)]
  }

  /** The number a string of decimal digits denotes (leading zeros allowed). */
  function Value(s: string): nat
    requires AllDigits(s)
    decreases |s|
  {
    if s == [] then 0 else 10 * Value(s[..|s| - 1]) + DigitValue(s[|s| - 1])
  }

  function Zeros(k: nat): (s: string)
    ensures |s| == k && AllDigits(s)
  {
    seq(k, _ => '0')
  }

  /** `n` in decimal, left-padded with zeros to at least `width` characters
      (Go's time layouts "01"/"2006", Python's `{n:02d}` for n >= 0). */
  function ZeroPad(n: nat, width: nat): (s: string)
    ensures |s| == Max(width, |Digits(n)|) && AllDigits(s)
  {
    Zeros(PadCount(n, width)) + Digits(n)
  }

  function PadCount(n: nat, width: nat): nat
  {
    if |Digits(n)| < width then width - |Digits(n)| else 0
  }

  /** Go's `strconv.Atoi`: an optional sign, at least one decimal digit and
      nothing else, and a value that fits a 64-bit `int`. */
  function Atoi(s: string): (r: Option<int>)
    ensures r.Some? ==> INT64_MIN <= r.value <= INT64_MAX
  {
    var signed := |s| > 0 && (s[0] == '-' || s[0] == '+');
    var body := if signed then s[1..] else s;
    if |body| == 0 || !AllDigits(body) then None
    else
      var v: int := if signed && s[0] == '-' then 0 - Value(body) as int else Value(body) as int;
      if INT64_MIN <= v <= INT64_MAX then Some(v) else None
  }

  /** Reading back what `Digits` wrote gives the number again. */
  lemma {:induction false} ValueOfDigits(n: nat)
    ensures Value(Digits(n)) == n
  {
    if n >= 10 {
      ValueOfDigits(n / 10);
      var s := Digits(n);
      assert s[..|s| - 1] == Digits(n / 10);
    }
  }

  /** Leading zeros do not change the value of a digit string. */
  lemma {:induction false} ValueIgnoresLeadingZeros(k: nat, s: string)
    requires AllDigits(s)
    ensures AllDigits(Zeros(k) + s) && Value(Zeros(k) + s) == Value(s)
  {
    var t := Zeros(k) + s;
    if s == [] {
      assert t == Zeros(k);
      ValueOfZeros(k);
    } else {
      var u := s[..|s| - 1];
      ValueIgnoresLeadingZeros(k, u);
      assert t[..|t| - 1] == Zeros(k) + u;
    }
  }

  lemma {:induction false} ValueOfZeros(k: nat)
    ensures Value(Zeros(k)) == 0
  {
    if k > 0 {
      ValueOfZeros(k - 1);
      assert Zeros(k)[..k - 1] == Zeros(k - 1);
    }
  }

  /** A zero-padded field reads back as the number that was padded. */
  lemma ValueOfZeroPad(n: nat, width: nat)
    ensures Value(ZeroPad(n, width)) == n
  {
    ValueIgnoresLeadingZeros(PadCount(n, width), Digits(n));
    ValueOfDigits(n);
  }

  /** Numbers below 10^k need at most k digits, so a width-k pad is exactly k wide. */
  lemma {:induction false} DigitsLength(n: nat, k: nat)
    requires n < Pow10(k)
    ensures |Digits(n)| <= Max(k, 1)
  {
    if n >= 10 {
      DigitsLength(n / 10, k - 1);
    }
  }

  function Pow10(k: nat): (p: nat)
    ensures p >= 1
  {
    if k == 0 then 1 else 10 * Pow10(k - 1)
  }

  /** The labels written with `strconv.FormatUint` parse back with `strconv.Atoi`. */
  lemma AtoiOfDigits(n: nat)
    requires n <= INT64_MAX
    ensures Atoi(Digits(n)) == Some(n)
  {
    ValueOfDigits(n);
  }

  /** A minus sign in front of the digits negates the value, down to the smallest int. */
  lemma AtoiOfNegative(n: nat)
    requires n <= -INT64_MIN
    ensures Atoi("-" + Digits(n)) == Some(-(n as int))
  {
    var s := "-" + Digits(n);
    assert s[1..] == Digits(n);
    ValueOfDigits(n);
  }

  /** Values outside the 64-bit range are refused even when the text is well formed. */
  lemma AtoiRefusesOverflow(n: nat)
    requires n > INT64_MAX
    ensures Atoi(Digits(n)) == None
  {
    ValueOfDigits(n);
  }
}
