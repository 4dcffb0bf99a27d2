/** The `formatDate` helper that LeadProfile, CallInsightsView and CallsView each define
    identically: a date as DD/MM/YYYY. The date is given by the three calendar parts the helper
    reads (`getDate()`, `getMonth()` and `getFullYear()`); the time zone that produces them is
    not modelled. */
module DateFormat {
  import opened Strings

  type Day = d: int | 1 <= d <= 31 witness 1
  type Month0 = m: int | 0 <= m <= 11 witness 0

  /** The calendar parts of a JavaScript `Date`; `month0` counts from 0 as `getMonth()` does. */
  datatype DateParts = DateParts(day: Day, month0: Month0, year: int)

  /** `${day}/${month}/${year}` with day and month-plus-one padded to two digits. */
  function FormatDate(d: DateParts): (r: string)
    ensures |r| >= 7 && r[2] == '/' && r[5] == '/'
  {
    var day := PadStart2(NatToString(d.day));
    var month := PadStart2(NatToString(d.month0 + 1));
    NatToStringLength(d.day);
    NatToStringLength(d.month0 + 1);
    day + "/" + month + "/" + IntToString(d.year)
  }

  /** A zero in front of a digit string does not change the number it denotes. */
  lemma {:induction false} LeadingZero(s: string)
    requires forall k :: 0 <= k < |s| ==> IsDigit(s[k])
    ensures DigitsValue("0" + s) == DigitsValue(s)
    decreases |s|
  {
    if s != [] {
      var z := "0" + s;
      assert z[..|z| - 1] == "0" + s[..|s| - 1];
      LeadingZero(s[..|s| - 1]);
    }
  }

  /** A number below 100 padded to two digits still reads back as itself. */
  lemma TwoDigits(n: nat)
    requires n < 100
    ensures var p := PadStart2(NatToString(n));
      |p| == 2 && (forall k :: 0 <= k < 2 ==> IsDigit(p[k])) && DigitsValue(p) == n
  {
    NatToStringLength(n);
    NatToStringRoundTrip(n);
    if n < 10 {
      LeadingZero(NatToString(n));
    }
  }

  /** For a four-digit year the text is exactly ten characters, DD/MM/YYYY, and each field
      reads back as the day, the one-based month and the year: nothing is lost. */
  lemma FormatDateRoundTrip(d: DateParts)
    requires 1000 <= d.year <= 9999
    ensures var r := FormatDate(d);
      && |r| == 10 && r[2] == '/' && r[5] == '/'
      && (forall k :: 0 <= k < 10 && k != 2 && k != 5 ==> IsDigit(r[k]))
      && DigitsValue(r[0..2]) == d.day
      && DigitsValue(r[3..5]) == d.month0 + 1
      && DigitsValue(r[6..10]) == d.year
  {
    var r := FormatDate(d);
    var day := PadStart2(NatToString(d.day));
    var month := PadStart2(NatToString(d.month0 + 1));
    var year := IntToString(d.year);
    TwoDigits(d.day);
    TwoDigits(d.month0 + 1);
    NatToStringLength(d.year);
    NatToStringRoundTrip(d.year);
    assert r == day + "/" + month + "/" + year;
    assert r[0..2] == day;
    assert r[3..5] == month;
    assert r[6..10] == year;
  }

  /** Two dates with the same text are the same date (for four-digit years). */
  lemma FormatDateInjective(d: DateParts, e: DateParts)
    requires 1000 <= d.year <= 9999 && 1000 <= e.year <= 9999
    requires FormatDate(d) == FormatDate(e)
    ensures d == e
  {
    FormatDateRoundTrip(d);
    FormatDateRoundTrip(e);
  }
}
