/** The "2006-01-02" layout of Go's `time` package, which the user form reads and writes
    birth dates in. */
module Dates {
  import opened Wrappers
  import opened Strings
  import opened Models

  function TwoDigits(s: string): int
    requires |s| == 2 && AllDigits(s)
  {
    (s[0] as int - '0' as int) * 10 + (s[1] as int - '0' as int)
  }

  /** `time.Parse("2006-01-02", s)`: exactly four digits of year (no sign), a dash,
      exactly two digits of month, a dash, exactly two digits of day, and nothing after;
      the month must lie in 1..12 and the day must exist in that month. */
  function ParseDate(s: string): (r: Option<CivilDate>)
    ensures r.Some? ==> |s| == 10 && s[4] == '-' && s[7] == '-'
    ensures r.Some? ==> AllDigits(s[..4]) && r.value.year == DigitsValue(s[..4]) && 0 <= r.value.year <= 9999
  {
    if |s| != 10 || s[4] != '-' || s[7] != '-' then None
    else if !AllDigits(s[..4]) || !AllDigits(s[5..7]) || !AllDigits(s[8..10]) then None
    else
      FourDigits(s[..4]);
      var year := DigitsValue(s[..4]);
      var month := TwoDigits(s[5..7]);
      var day := TwoDigits(s[8..10]);
      if month < 1 || 12 < month then None
      else if day < 1 || DaysIn(month, year) < day then None
      else Some(Date(year, month, day))
  }

  function Pad2(n: nat): string
    requires n < 100
  {
    [DigitChar(n / 10), DigitChar(n % 10)]
  }

  /** `n` written with at least four digits. */
  function Pad4(n: nat): string {
    if n < 10 then "000" + NatToString(n)
    else if n < 100 then "00" + NatToString(n)
    else if n < 1000 then "0" + NatToString(n)
    else NatToString(n)
  }

  /** `t.Format("2006-01-02")` of a valid date; a negative year is written with a minus
      sign before four digits. */
  function FormatDate(d: CivilDate): string
  {
    (if d.year < 0 then "-" + Pad4(-d.year) else Pad4(d.year))
    + "-" + Pad2(d.month) + "-" + Pad2(d.day)
  }

  lemma Pad2Value(n: nat)
    requires n < 100
    ensures AllDigits(Pad2(n)) && TwoDigits(Pad2(n)) == n
  {
  }

  lemma {:induction false} Pad4Value(n: nat)
    requires n < 10000
    ensures |Pad4(n)| == 4 && AllDigits(Pad4(n)) && DigitsValue(Pad4(n)) == n
  {
    NatToStringDigits(n);
    var s := NatToString(n);
    if n < 10 {
      DigitsValuePadded("000", s);
    } else if n < 100 {
      assert |NatToString(n / 10)| == 1;
      DigitsValuePadded("00", s);
    } else if n < 1000 {
      assert |NatToString(n / 100)| == 1;
      assert |NatToString(n / 10)| == 2;
      DigitsValuePadded("0", s);
    } else {
      assert |NatToString(n / 1000)| == 1;
      assert |NatToString(n / 100)| == 2;
      assert |NatToString(n / 10)| == 3;
    }
  }

  /** Leading zeros do not change the value of a run of digits. */
  lemma {:induction false} DigitsValuePadded(zeros: string, s: string)
    requires forall i :: 0 <= i < |zeros| ==> zeros[i] == '0'
    requires AllDigits(s)
    ensures AllDigits(zeros + s) && DigitsValue(zeros + s) == DigitsValue(s)
    decreases |s|
  {
    if s == [] {
      assert zeros + s == zeros;
      ZerosValue(zeros);
    } else {
      var init := s[..|s| - 1];
      assert (zeros + s)[..|zeros + s| - 1] == zeros + init;
      DigitsValuePadded(zeros, init);
    }
  }

  lemma {:induction false} ZerosValue(zeros: string)
    requires forall i :: 0 <= i < |zeros| ==> zeros[i] == '0'
    ensures AllDigits(zeros) && DigitsValue(zeros) == 0
    decreases |zeros|
  {
    if zeros != [] {
      ZerosValue(zeros[..|zeros| - 1]);
    }
  }

  /** Formatting a valid date whose year has four digits and parsing it back gives the same
      date: the round trip the edit form relies on. */
  lemma DateRoundTrip(d: CivilDate)
    requires 0 <= d.year <= 9999
    ensures ParseDate(FormatDate(d)) == Some(d)
  {
    var y := Pad4(d.year);
    Pad4Value(d.year);
    Pad2Value(d.month);
    Pad2Value(d.day);
    var s := FormatDate(d);
    assert s == y + "-" + Pad2(d.month) + "-" + Pad2(d.day);
    assert s[..4] == y;
    assert s[5..7] == Pad2(d.month);
    assert s[8..10] == Pad2(d.day);
  }

  /** Go's zero time formats as "0001-01-01", which reads back as the zero time. */
  lemma ZeroDateRoundTrip()
    ensures FormatDate(ZeroDate) == "0001-01-01"
    ensures ParseDate("0001-01-01") == Some(ZeroDate)
  {
    DateRoundTrip(ZeroDate);
  }

  /** The day must exist in its month: February 29 reads only in a leap year. */
  lemma LeapDayChecks()
    ensures ParseDate("2024-02-29") == Some(Date(2024, 2, 29))
    ensures ParseDate("2023-02-29") == None
  {
    var s := "2024-02-29";
    assert s[..4] == "2024" && s[5..7] == "02" && s[8..10] == "29";
    FourDigits("2024");
    var t := "2023-02-29";
    assert t[..4] == "2023" && t[5..7] == "02" && t[8..10] == "29";
    FourDigits("2023");
  }

  /** A century is a leap year only when 400 divides it. */
  lemma CenturyCheck()
    ensures ParseDate("1900-02-29") == None
  {
    var u := "1900-02-29";
    assert u[..4] == "1900" && u[5..7] == "02" && u[8..10] == "29";
    FourDigits("1900");
  }

  /** A one-digit month and a thirteenth month are both refused. */
  lemma MonthChecks()
    ensures ParseDate("2023-2-28") == None
    ensures ParseDate("2023-13-01") == None
  {
    var w := "2023-13-01";
    assert w[5..7] == "13" && w[8..10] == "01";
  }

  /** Every text `ParseDate` accepts is the formatted text of the date it reads: the
      layout has a single spelling for each date, so no other input reaches that date. */
  lemma ParseDateFormatsBack(s: string)
    requires ParseDate(s).Some?
    ensures FormatDate(ParseDate(s).value) == s
  {
    var d := ParseDate(s).value;
    Pad4Value(d.year);
    DigitsValueInjective(Pad4(d.year), s[..4]);
    Pad2Back(s[5..7]);
    Pad2Back(s[8..10]);
    assert s == s[..4] + "-" + s[5..7] + "-" + s[8..10];
  }

  /** Two digits read and written again are the same two digits. */
  lemma Pad2Back(t: string)
    requires |t| == 2 && AllDigits(t)
    ensures TwoDigits(t) < 100 && Pad2(TwoDigits(t)) == t
  {
    var n := TwoDigits(t);
    assert n / 10 == t[0] as int - '0' as int && n % 10 == t[1] as int - '0' as int;
  }

  /** Runs of digits of one length with the same value are the same text. */
  lemma {:induction false} DigitsValueInjective(a: string, b: string)
    requires |a| == |b| && AllDigits(a) && AllDigits(b) && DigitsValue(a) == DigitsValue(b)
    ensures a == b
    decreases |a|
  {
    if a != [] {
      var n := |a|;
      var la, lb := a[n - 1] as int - '0' as int, b[n - 1] as int - '0' as int;
      assert DigitsValue(a) == DigitsValue(a[..n - 1]) * 10 + la;
      assert DigitsValue(b) == DigitsValue(b[..n - 1]) * 10 + lb;
      assert la == DigitsValue(a) % 10 && lb == DigitsValue(b) % 10;
      DigitsValueInjective(a[..n - 1], b[..n - 1]);
      assert a == a[..n - 1] + [a[n - 1]] && b == b[..n - 1] + [b[n - 1]];
    }
  }

  /** A signed year is refused: the layout's year is four digits. */
  lemma SignedYearRefused()
    ensures ParseDate("-123-01-01") == None
    ensures ParseDate("+123-01-01") == None
  {
    assert !IsDigit("-123-01-01"[0]) && !IsDigit("+123-01-01"[0]);
  }

  lemma FourDigits(s: string)
    requires |s| == 4 && AllDigits(s)
    ensures DigitsValue(s) == (s[0] as int - '0' as int) * 1000 + (s[1] as int - '0' as int) * 100
                             + (s[2] as int - '0' as int) * 10 + (s[3] as int - '0' as int)
  {
    assert s[..3][..2] == s[..2];
    assert s[..2][..1] == s[..1];
    assert s[..1][..0] == [];
    assert DigitsValue(s) == DigitsValue(s[..3]) * 10 + (s[3] as int - '0' as int);
    assert DigitsValue(s[..3]) == DigitsValue(s[..2]) * 10 + (s[2] as int - '0' as int);
    assert DigitsValue(s[..2]) == DigitsValue(s[..1]) * 10 + (s[1] as int - '0' as int);
    assert DigitsValue(s[..1]) == (s[0] as int - '0' as int);
  }
}
