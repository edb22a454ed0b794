/** `format_time` of the Python package (`ai/__init__.py`): a duration in
    seconds as hours, minutes and seconds. */
module AiTime {
  import opened Base
  import opened Decimal

  /** Python's `int()` on a number: truncation toward zero. */
  function Truncate(x: real): int
  {
    if x >= 0.0 then x.Floor else -((-x).Floor)
  }

  /** `f'{n:02d}'`: at least two digits, the sign counting toward the width. */
  function Field(n: int): (s: string)
    ensures |s| >= 2
  {
    if n >= 0 then ZeroPad(n, 2) else "-" + Digits(-n)
  }

  /** `format_time`. Python's `divmod` rounds toward negative infinity, which
      for the positive divisors here is Dafny's `/` and `%`. */
  function FormatTime(totalSeconds: real): string
  {
    var total := Truncate(totalSeconds);
    var hours, remainder := total / 3600, total % 3600;
    var minutes, seconds := remainder / 60, remainder % 60;
    Field(hours) + ":" + Field(minutes) + ":" + Field(seconds)
  }

  /** Reads `H:MM:SS` back as a number of seconds; hours may have any number of digits. */
  function ParseTime(s: string): Option<int>
  {
    if |s| < 8 || s[|s| - 6] != ':' || s[|s| - 3] != ':' then None
    else
      var h, m, sec := s[..|s| - 6], s[|s| - 5..|s| - 3], s[|s| - 2..];
      if !AllDigits(h) || !AllDigits(m) || !AllDigits(sec) then None
      else Some(Value(h) * 3600 + Value(m) * 60 + Value(sec))
  }

  /** The three fields of a non-negative duration: hours are not capped,
      minutes and seconds are below 60, and together they make up the
      truncated duration. */
  lemma FormatTimeFields(totalSeconds: real)
    requires totalSeconds >= 0.0
    ensures var total := Truncate(totalSeconds);
      var h, m, s := total / 3600, total % 3600 / 60, total % 60;
      && 0 <= m < 60 && 0 <= s < 60 && h >= 0
      && h * 3600 + m * 60 + s == total
      && FormatTime(totalSeconds) == ZeroPad(h, 2) + ":" + ZeroPad(m, 2) + ":" + ZeroPad(s, 2)
  {
    var total := Truncate(totalSeconds);
    assert total % 3600 % 60 == total % 60;
  }

  /** The text reads back as the whole seconds of the duration. */
  lemma FormatTimeRoundTrip(totalSeconds: real)
    requires totalSeconds >= 0.0
    ensures ParseTime(FormatTime(totalSeconds)) == Some(Truncate(totalSeconds))
  {
    FormatTimeFields(totalSeconds);
    var total := Truncate(totalSeconds);
    ParseFields(total / 3600, total % 3600 / 60, total % 60);
  }

  lemma ParseFields(h: nat, m: nat, s: nat)
    requires m < 60 && s < 60
    ensures ParseTime(ZeroPad(h, 2) + ":" + ZeroPad(m, 2) + ":" + ZeroPad(s, 2)) == Some(h * 3600 + m * 60 + s)
  {
    DigitsLength(m, 2);
    DigitsLength(s, 2);
    FieldsLayout(ZeroPad(h, 2), ZeroPad(m, 2), ZeroPad(s, 2));
    ValueOfZeroPad(h, 2);
    ValueOfZeroPad(m, 2);
    ValueOfZeroPad(s, 2);
  }

  lemma FieldsLayout(h: string, m: string, s: string)
    requires |h| >= 2 && |m| == 2 && |s| == 2
    ensures var t := h + ":" + m + ":" + s;
      && |t| == |h| + 6 && t[|t| - 6] == ':' && t[|t| - 3] == ':'
      && t[..|t| - 6] == h && t[|t| - 5..|t| - 3] == m && t[|t| - 2..] == s
  {
    var t := h + ":" + m + ":" + s;
    assert t == h + (":" + m + ":" + s);
  }

  /** Fractions of a second are dropped. */
  lemma FormatTimeTruncates(whole: nat, fraction: real)
    requires 0.0 <= fraction < 1.0
    ensures FormatTime(whole as real + fraction) == FormatTime(whole as real)
  {
    assert (whole as real + fraction).Floor == whole;
  }

  /** Below ten a field gets a leading zero; from ten to 99 it is the two digits. */
  lemma FieldOfSmall(n: nat)
    requires n < 100
    ensures Field(n) == (if n < 10 then ['0', DigitChar(n)] else [DigitChar(n / 10), DigitChar(n % 10)])
  {
    if n >= 10 {
      assert Digits(n) == Digits(n / 10) + [DigitChar(n % 10)];
    }
  }

  /** A whole number of seconds is formatted from its own fields. */
  lemma FormatWhole(total: int)
    ensures FormatTime(total as real) == Field(total / 3600) + ":" + Field(total % 3600 / 60) + ":" + Field(total % 3600 % 60)
  {
    assert Truncate(total as real) == total;
  }

  lemma FormatOneHourOneMinuteOneSecond()
    ensures FormatTime(3661.0) == "01:01:01"
  {
    var one := Field(1);
    assert FormatTime(3661.0) == one + ":" + one + ":" + one by {
      FormatWhole(3661);
      assert 3661 / 3600 == 1 && 3661 % 3600 == 61 && 61 / 60 == 1 && 61 % 60 == 1;
    }
    assert one == ['0', '1'] by {
      FieldOfSmall(1);
    }
  }

  /** Hours are not capped at two digits. */
  lemma FormatHundredHours()
    ensures FormatTime(360000.0) == "100:00:00"
  {
    var hours, zero := Field(100), Field(0);
    assert FormatTime(360000.0) == hours + ":" + zero + ":" + zero by {
      FormatWhole(360000);
      assert 360000 / 3600 == 100 && 360000 % 3600 == 0 && 0 / 60 == 0 && 0 % 60 == 0;
    }
    assert zero == ['0', '0'] by {
      FieldOfSmall(0);
    }
    assert hours == ['1', '0', '0'] by {
      assert 100 / 10 == 10 && 100 % 10 == 0 && 10 / 10 == 1 && 10 % 10 == 0;
      assert Digits(100) == Digits(10) + ['0'] && Digits(10) == Digits(1) + ['0'];
      assert ZeroPad(100, 2) == Zeros(0) + Digits(100);
    }
  }

  /** A negative duration follows `divmod`'s flooring: -1 second is an hour
      back plus 59:59. */
  lemma FormatNegativeSecond()
    ensures FormatTime(-1.0) == "-1:59:59"
  {
    var hours, fifty := Field(-1), Field(59);
    assert FormatTime(-1.0) == hours + ":" + fifty + ":" + fifty by {
      FormatWhole(-1);
      assert -1 / 3600 == -1 && -1 % 3600 == 3599 && 3599 / 60 == 59 && 3599 % 60 == 59;
    }
    assert fifty == ['5', '9'] by {
      FieldOfSmall(59);
      assert 59 / 10 == 5 && 59 % 10 == 9;
    }
    assert hours == ['-', '1'];
  }
}
