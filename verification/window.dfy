/** The default query window: the first and the last day of the month given by the
    clock readings, rendered the way the script's f-strings render them. */
module DefaultWindow {
  import opened Results
  import opened Decimal
  import opened Text
  import opened Calendar

  /** A date read back from its text form. */
  datatype Ymd = Ymd(year: nat, month: nat, day: nat)

  /** The default start and end strings. */
  datatype Window = Window(start: string, end: string)

  /** `year-month-day` with each field a decimal number, padded or not. */
  function ParseDate(s: string): (d: Option<Ymd>)
  {
    var f := Split(s, '-');
    if |f| == 3 && IsDigits(f[0]) && IsDigits(f[1]) && IsDigits(f[2])
    then Some(Ymd(Parse(f[0]), Parse(f[1]), Parse(f[2])))
    else None
  }

  /** The three `-`-separated fields of a date string, when it has exactly three. */
  function Fields(s: string): (f: Option<(string, string, string)>)
  {
    var parts := Split(s, '-');
    if |parts| == 3 then Some((parts[0], parts[1], parts[2])) else None
  }

  /** Three digit runs joined by `-` split back into those runs. */
  lemma SplitDate(y: string, m: string, d: string)
    requires IsDigits(y) && IsDigits(m) && IsDigits(d)
    ensures Split(y + "-" + m + "-" + d, '-') == [y, m, d]
  {
    assert '-' !in y && '-' !in m && '-' !in d;
    SplitJoin(y, '-', m + "-" + d);
    assert y + "-" + m + "-" + d == y + ['-'] + (m + "-" + d);
    SplitJoin(m, '-', d);
    assert m + "-" + d == m + ['-'] + d;
  }

  /** The start day is always written as this literal. */
  const FirstDayText: string := "01"

  lemma FirstDay()
    ensures IsDigits(FirstDayText) && Parse(FirstDayText) == 1
  {
  }

  /** `year-month-day` with unpadded year and month reads back field by field. */
  lemma ReadBack(y: nat, m: nat, day: string)
    requires IsDigits(day)
    ensures ParseDate(Show(y) + "-" + Show(m) + "-" + day) == Some(Ymd(y, m, Parse(day)))
  {
    SplitDate(Show(y), Show(m), day);
    ParseShow(y);
    ParseShow(m);
  }

  /** The default window for the year and month read from the clock, as the script's
      f-strings write it: year, month and last day unpadded, the first day as `01`. */
  function GetDates(today: Today): (w: Window)
    requires ValidToday(today)
  {
    var y := Show(today.year);
    var m := Show(today.month);
    Window(y + "-" + m + "-" + FirstDayText, y + "-" + m + "-" + Show(DaysInMonth(today.year, today.month)))
  }

  /** The start reads back as day 1 of the given year and month and the end as that
      month's last Gregorian day, with year and month unchanged. */
  lemma GetDatesReadsBack(today: Today)
    requires ValidToday(today)
    ensures ParseDate(GetDates(today).start) == Some(Ymd(today.year, today.month, 1))
    ensures ParseDate(GetDates(today).end) == Some(Ymd(today.year, today.month, DaysInMonth(today.year, today.month)))
  {
    var days := DaysInMonth(today.year, today.month);
    FirstDay();
    ReadBack(today.year, today.month, FirstDayText);
    ReadBack(today.year, today.month, Show(days));
    ParseShow(days);
  }

  /** Month and year are unpadded: the month field is a single character exactly for
      January to September, and neither field starts with `0`. The start's day field is
      the literal `01`; the end's day field is always two digits (28 to 31). */
  lemma {:induction false} NoZeroPadding(today: Today)
    requires ValidToday(today)
    ensures Fields(GetDates(today).start).Some? && Fields(GetDates(today).end).Some?
    ensures
      var (startYear, startMonth, startDay) := Fields(GetDates(today).start).value;
      var (endYear, endMonth, endDay) := Fields(GetDates(today).end).value;
      && IsDigits(startYear) && IsDigits(startMonth) && IsDigits(endDay)
      && (|startMonth| == 1 <==> today.month < 10)
      && startYear[0] != '0' && startMonth[0] != '0'
      && startDay == "01"
      && |endDay| == 2
      && startYear == endYear && startMonth == endMonth
  {
    var y := Show(today.year);
    var m := Show(today.month);
    var days := DaysInMonth(today.year, today.month);
    SplitDate(y, m, "01");
    SplitDate(y, m, Show(days));
    TwoDigits(days);
  }

  /** Decimal spellings used by the worked examples below. */
  lemma Spellings()
    ensures Show(7) == "7" && Show(2) == "2"
    ensures Show(31) == "31" && Show(29) == "29" && Show(28) == "28"
    ensures Show(2021) == "2021" && Show(2024) == "2024" && Show(1900) == "1900"
  {
    assert Show(3) == "3";
    assert Show(20) == "20";
    assert Show(202) == "202";
    assert Show(19) == "19";
    assert Show(190) == "190";
  }

  /** The default start date is digits and dashes only, so it holds no `&` and the
      URL built from it can be read back. */
  lemma DefaultStartNoAmp(today: Today)
    requires ValidToday(today)
    ensures '&' !in GetDates(today).start
  {
    var y := Show(today.year);
    var m := Show(today.month);
    FirstDay();
    assert '&' !in y && '&' !in m && '&' !in FirstDayText;
    assert GetDates(today).start == y + "-" + m + "-" + FirstDayText;
  }

  /** July 2021: the month is printed as `7`, and July has 31 days. */
  lemma July2021()
    ensures GetDates(Today(2021, 7)) == Window("2021-7-01", "2021-7-31")
  {
    Spellings();
    var w := GetDates(Today(2021, 7));
    assert w.start == "2021" + "-" + "7" + "-" + "01";
    assert w.end == "2021" + "-" + "7" + "-" + "31";
  }

  /** February 2024 takes its leap day. */
  lemma LeapFebruary()
    ensures GetDates(Today(2024, 2)).end == "2024-2-29"
  {
    Spellings();
    assert IsLeapYear(2024);
    assert DaysInMonth(2024, 2) == 29;
    var w := GetDates(Today(2024, 2));
    assert w.end == "2024" + "-" + "2" + "-" + "29";
  }

  /** February 1900 does not: a century not divisible by 400 is a common year. */
  lemma CenturyFebruary()
    ensures GetDates(Today(1900, 2)).end == "1900-2-28"
  {
    Spellings();
    assert !IsLeapYear(1900);
    assert DaysInMonth(1900, 2) == 28;
    var w := GetDates(Today(1900, 2));
    assert w.end == "1900" + "-" + "2" + "-" + "28";
  }
}
