/**
 * Calendar dates as the date picker sees them, and its default
 * `DD/MM/YYYY` formatter together with a parser that inverts it.
 */
module Dates {
  import opened Wrappers

  /** `Date.getMonth()`: 0 for January up to 11 for December. */
  type MonthIndex = m: int | 0 <= m < 12
  /** `Date.getDate()`: the day of the month. */
  type DayOfMonth = d: int | 1 <= d <= 31 witness 1

  /**
   * A date as its three local-time components: `getFullYear()`,
   * `getMonth()` and `getDate()`. Time of day and time zone are not part
   * of the model.
   */
  datatype Date = Date(year: int, monthIndex: MonthIndex, day: DayOfMonth)

  predicate IsDigit(c: char) {
    '0' <= c <= '9'
  }

  predicate AllDigits(s: string) {
    forall i :: 0 <= i < |s| ==> IsDigit(s[i])
  }

  function DigitChar(d: nat): (c: char)
    requires d < 10
    ensures IsDigit(c)
  {
    (('0' as int) + d) as char
  }

  function DigitValue(c: char): (d: nat)
    requires IsDigit(c)
    ensures d < 10
  {
    (c as int) - ('0' as int)
  }

  /** `n.toString()` for a non-negative integer: decimal, no leading zeros. */
  function Decimal(n: nat): (s: string)
    ensures 1 <= |s| && AllDigits(s)
    ensures s[0] == '0' ==> n == 0
    ensures n == 0 ==> s == "0"
  {
    if n < 10 then [DigitChar(n)] else Decimal(n / 10) + [DigitChar(n % 10)]
  }

  /** The value of a string of decimal digits (0 for the empty string). */
  function DecimalValue(s: string): (n: nat)
    requires AllDigits(s)
  {
    if s == [] then 0 else DecimalValue(s[..|s| - 1]) * 10 + DigitValue(s[|s| - 1])
  }

  lemma {:induction false} DecimalRoundTrip(n: nat)
    ensures DecimalValue(Decimal(n)) == n
  {
    var s := Decimal(n);
    if n < 10 {
      assert s[..0] == [];
    } else {
      var prefix := Decimal(n / 10);
      assert s[..|s| - 1] == prefix;
      DecimalRoundTrip(n / 10);
    }
  }

  /** Digits as `toString` writes them: at least one, and no leading zero unless the number is 0. */
  predicate Unpadded(digits: string) {
    |digits| >= 1 && AllDigits(digits) && (digits[0] == '0' ==> digits == "0")
  }

  /** `${i}` for an integer: a minus sign before the digits when negative. */
  function IntToString(i: int): (s: string)
    ensures |s| >= 1
    ensures (s[0] == '-') <==> i < 0
    ensures i < 0 ==> |s| >= 2 && Unpadded(s[1..]) && s[1] != '0'
    ensures i >= 0 ==> Unpadded(s)
  {
    if i < 0 then "-" + Decimal(-i) else Decimal(i)
  }

  /** Reads back what `IntToString` writes; `None` for anything else. */
  function ParseInt(s: string): (r: Option<int>)
    ensures r.Some? ==> |s| >= 1
  {
    if |s| >= 2 && s[0] == '-' && AllDigits(s[1..]) then
      var magnitude: int := DecimalValue(s[1..]);
      Some(-magnitude)
    else if |s| >= 1 && AllDigits(s) then Some(DecimalValue(s))
    else None
  }

  lemma IntRoundTrip(i: int)
    ensures ParseInt(IntToString(i)) == Some(i)
  {
    var s := IntToString(i);
    if i < 0 {
      assert s[1..] == Decimal(-i);
      DecimalRoundTrip(-i);
    } else {
      assert s[0] != '-';
      DecimalRoundTrip(i);
    }
  }

  /** `s.padStart(width, fill)` with a one-character fill string. */
  function PadStart(s: string, width: nat, fill: char): (r: string)
    ensures |r| == if |s| >= width then |s| else width
    ensures r[|r| - |s|..] == s
    ensures forall i :: 0 <= i < |r| - |s| ==> r[i] == fill
  {
    if |s| >= width then s else seq(width - |s|, _ => fill) + s
  }

  /** A component below 100 padded to exactly two digits. */
  function TwoDigits(n: nat): (s: string)
    requires n < 100
    ensures |s| == 2 && AllDigits(s)
    ensures DigitValue(s[0]) * 10 + DigitValue(s[1]) == n
  {
    DecimalBelowHundred(n);
    PadStart(Decimal(n), 2, '0')
  }

  lemma DecimalBelowHundred(n: nat)
    requires n < 100
    ensures n < 10 ==> Decimal(n) == [DigitChar(n)]
    ensures 10 <= n ==> Decimal(n) == [DigitChar(n / 10), DigitChar(n % 10)]
  {
  }

  /**
   * The default display format: day and 1-based month zero-padded to two
   * digits, the year as it prints, separated by slashes.
   */
  function FormatDefault(d: Date): (s: string)
    ensures |s| >= 7 && s[2] == '/' && s[5] == '/'
    ensures AllDigits(s[..2]) && AllDigits(s[3..5])
    ensures IsDigit(s[0]) && IsDigit(s[1]) && IsDigit(s[3]) && IsDigit(s[4])
    ensures DigitValue(s[0]) * 10 + DigitValue(s[1]) == d.day
    ensures DigitValue(s[3]) * 10 + DigitValue(s[4]) == d.monthIndex + 1
    ensures s[6..] == IntToString(d.year)
  {
    var dd, mm, yy := TwoDigits(d.day), TwoDigits(d.monthIndex + 1), IntToString(d.year);
    var tail := mm + "/" + yy;
    assert tail[..2] == mm && tail[2] == '/' && tail[3..] == yy;
    var s := dd + "/" + tail;
    assert s[..2] == dd && s[2] == '/' && s[3..] == tail;
    assert s[3..5] == mm && s[5] == '/' && s[6..] == yy by {
      assert s[3..5] == tail[..2] && s[5] == tail[2] && s[6..] == tail[3..];
    }
    assert s[0] == dd[0] && s[1] == dd[1] && s[3] == mm[0] && s[4] == mm[1];
    s
  }

  /** Reads a `DD/MM/YYYY` string back into a date; `None` when malformed. */
  function ParseDefault(s: string): (r: Option<Date>)
  {
    if |s| < 7 || s[2] != '/' || s[5] != '/' || !AllDigits(s[..2]) || !AllDigits(s[3..5]) then None
    else
      var day := DigitValue(s[0]) * 10 + DigitValue(s[1]);
      var month := DigitValue(s[3]) * 10 + DigitValue(s[4]);
      match ParseInt(s[6..])
      case None => None
      case Some(year) =>
        if 1 <= day <= 31 && 1 <= month <= 12 then Some(Date(year, month - 1, day)) else None
  }

  /** The default formatter loses nothing: parsing its output gives the date back. */
  lemma FormatParseRoundTrip(d: Date)
    ensures ParseDefault(FormatDefault(d)) == Some(d)
  {
    var dd, mm, yy := TwoDigits(d.day), TwoDigits(d.monthIndex + 1), IntToString(d.year);
    var s := FormatDefault(d);
    assert s[0] == dd[0] && s[1] == dd[1] && s[3] == mm[0] && s[4] == mm[1] && s[6..] == yy by {
      assert s == dd + "/" + (mm + "/" + yy);
    }
    assert ParseInt(s[6..]) == Some(d.year) by {
      IntRoundTrip(d.year);
    }
    assert DigitValue(s[0]) * 10 + DigitValue(s[1]) == d.day;
    assert DigitValue(s[3]) * 10 + DigitValue(s[4]) == d.monthIndex + 1;
  }

  /** Distinct dates are shown as distinct strings. */
  lemma FormatInjective(d1: Date, d2: Date)
    requires FormatDefault(d1) == FormatDefault(d2)
    ensures d1 == d2
  {
    FormatParseRoundTrip(d1);
    FormatParseRoundTrip(d2);
  }

  /** The year 2024 prints as "2024". */
  lemma YearExample()
    ensures IntToString(2024) == "2024"
  {
    assert Decimal(2) == "2";
    assert Decimal(20) == "20" by {
      assert 20 / 10 == 2 && 20 % 10 == 0;
    }
    assert Decimal(202) == "202" by {
      assert 202 / 10 == 20 && 202 % 10 == 2;
    }
    assert Decimal(2024) == "2024" by {
      assert 2024 / 10 == 202 && 2024 % 10 == 4;
    }
  }

  /** 5 January 2024 is shown as "05/01/2024". */
  lemma FormatExample()
    ensures FormatDefault(Date(2024, 0, 5)) == "05/01/2024"
  {
    YearExample();
    assert TwoDigits(5) == "05" by {
      DecimalBelowHundred(5);
    }
    assert TwoDigits(1) == "01" by {
      DecimalBelowHundred(1);
    }
    assert FormatDefault(Date(2024, 0, 5)) == TwoDigits(5) + "/" + (TwoDigits(1) + "/" + IntToString(2024));
  }
}
