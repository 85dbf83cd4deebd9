/** `getTodayDateString` (src/server.js): the "YYYY-MM-DD" date used to ask for
    today's schedule. The host clock is an input that gives the current
    moment both as a local-time and as a UTC calendar date. */
module Dates {
  import opened Base
  import Text

  /** A calendar date with JavaScript's 0-based month index. */
  datatype CivilDate = CivilDate(year: int, monthIndex: int, day: int)

  /** The current moment as `Date` reports it: `getFullYear()` etc. read
      `local`, `getUTCFullYear()` etc. read `utc`. */
  datatype Clock = Clock(local: CivilDate, utc: CivilDate)

  predicate IsLeapYear(y: int) {
    y % 4 == 0 && (y % 100 != 0 || y % 400 == 0)
  }

  function DaysInMonth(y: int, monthIndex: int): int
    requires 0 <= monthIndex < 12
  {
    if monthIndex == 1 then (if IsLeapYear(y) then 29 else 28)
    else if monthIndex in {3, 5, 8, 10} then 30
    else 31
  }

  /** A real date with a four-digit year. */
  predicate ValidDate(d: CivilDate) {
    1000 <= d.year <= 9999 && 0 <= d.monthIndex < 12 && 1 <= d.day <= DaysInMonth(d.year, d.monthIndex)
  }

  /** `String(n).padStart(2, '0')`. */
  function TwoDigits(n: nat): string {
    Text.PadStart2(Text.NatToString(n))
  }

  /** The text after the year: "-MM-DD". */
  function MonthDayText(monthIndex: nat, day: nat): string {
    "-" + TwoDigits(monthIndex + 1) + "-" + TwoDigits(day)
  }

  /** The ISO "YYYY-MM-DD" text of a date. */
  function IsoDate(d: CivilDate): (s: string)
    requires ValidDate(d)
  {
    Text.NatToString(d.year) + MonthDayText(d.monthIndex, d.day)
  }

  /** Reads a "YYYY-MM-DD" text back into a date. */
  function ParseIsoDate(s: string): Option<CivilDate> {
    if |s| == 10 && s[4] == '-' && s[7] == '-'
       && Text.AllDigits(s[..4]) && Text.AllDigits(s[5..7]) && Text.AllDigits(s[8..])
    then Some(CivilDate(Text.DigitsValue(s[..4]), Text.DigitsValue(s[5..7]) - 1, Text.DigitsValue(s[8..])))
    else None
  }

  lemma TwoDigitsValue(n: nat)
    requires n < 100
    ensures |TwoDigits(n)| == 2 && Text.AllDigits(TwoDigits(n))
    ensures Text.DigitsValue(TwoDigits(n)) == n
  {
    Text.NatToStringLength(n);
    Text.NatToStringRoundTrip(n);
    if n < 10 {
      var t := TwoDigits(n);
      assert t == "0" + Text.NatToString(n);
      assert t[..1] == "0";
    }
  }

  /** Where the three parts of "YYYY-MM-DD" sit in the text. */
  lemma IsoSlices(y: string, m: string, dd: string)
    requires |y| == 4 && |m| == 2 && |dd| == 2
    ensures var s := y + ("-" + m + "-" + dd);
            |s| == 10 && s[4] == '-' && s[7] == '-' && s[..4] == y && s[5..7] == m && s[8..] == dd
  {
    var rest := "-" + m + "-" + dd;
    assert |rest| == 6 && rest[0] == '-' && rest[3] == '-';
    assert rest[1..3] == m && rest[4..] == dd;
    var s := y + rest;
    assert s[..4] == y;
    assert s[5..7] == rest[1..3];
    assert s[8..] == rest[4..];
  }

  /** Every valid date is written as ten characters, "YYYY-MM-DD", that read
      back as the same date. */
  lemma IsoDateRoundTrip(d: CivilDate)
    requires ValidDate(d)
    ensures |IsoDate(d)| == 10 && IsoDate(d)[4] == '-' && IsoDate(d)[7] == '-'
    ensures ParseIsoDate(IsoDate(d)) == Some(d)
  {
    var y := Text.NatToString(d.year);
    var m := TwoDigits(d.monthIndex + 1);
    var dd := TwoDigits(d.day);
    Text.NatToStringLength(d.year);
    Text.NatToStringRoundTrip(d.year);
    TwoDigitsValue(d.monthIndex + 1);
    TwoDigitsValue(d.day);
    IsoSlices(y, m, dd);
    assert IsoDate(d) == y + ("-" + m + "-" + dd);
  }

  /** `getTodayDateString()` as the source writes it: the year from local
      time, the month and day from UTC. */
  function TodayDateStringAsWritten(c: Clock): string
    requires ValidDate(c.local) && ValidDate(c.utc)
  {
    Text.NatToString(c.local.year) + MonthDayText(c.utc.monthIndex, c.utc.day)
  }

  /** The date string with all three fields read in UTC: the one the rest of
      the model uses. */
  function TodayDateString(c: Clock): (s: string)
    requires ValidDate(c.utc)
    ensures ParseIsoDate(s) == Some(c.utc)
  {
    IsoDateRoundTrip(c.utc);
    IsoDate(c.utc)
  }

  /** Within one calendar year the two agree. */
  lemma AsWrittenAgreesWithinYear(c: Clock)
    requires ValidDate(c.local) && ValidDate(c.utc) && c.local.year == c.utc.year
    ensures TodayDateStringAsWritten(c) == TodayDateString(c)
  {
  }

  lemma YearPrefix(year: int, rest: string)
    requires 1000 <= year <= 9999
    ensures |Text.NatToString(year) + rest| >= 4
    ensures (Text.NatToString(year) + rest)[..4] == Text.NatToString(year)
    ensures Text.DigitsValue(Text.NatToString(year)) == year
  {
    Text.NatToStringLength(year);
    Text.NatToStringRoundTrip(year);
  }

  /** Whenever local time and UTC are in different years, the string as
      written is not today's UTC date: its first four characters spell the
      local year. */
  lemma AsWrittenWrongAcrossYears(c: Clock)
    requires ValidDate(c.local) && ValidDate(c.utc) && c.local.year != c.utc.year
    ensures TodayDateStringAsWritten(c) != TodayDateString(c)
  {
    var rest := MonthDayText(c.utc.monthIndex, c.utc.day);
    var s := TodayDateStringAsWritten(c);
    var t := TodayDateString(c);
    YearPrefix(c.local.year, rest);
    YearPrefix(c.utc.year, rest);
    assert s[..4] != t[..4];
  }

  /** On a host eight hours behind UTC, at 20:00 local time on 31 December
      2025 it is already 1 January 2026 in UTC; the string as written reads
      as 1 January 2025, which is neither the local nor the UTC date. */
  lemma NewYearsEveCounterexample(c: Clock)
    requires c == Clock(CivilDate(2025, 11, 31), CivilDate(2026, 0, 1))
    ensures TodayDateStringAsWritten(c) != TodayDateString(c)
    ensures ParseIsoDate(TodayDateStringAsWritten(c)) == Some(CivilDate(2025, 0, 1))
    ensures ParseIsoDate(IsoDate(c.local)) == Some(CivilDate(2025, 11, 31))
  {
    AsWrittenWrongAcrossYears(c);
    var mixed := CivilDate(2025, 0, 1);
    assert TodayDateStringAsWritten(c) == IsoDate(mixed);
    IsoDateRoundTrip(mixed);
    IsoDateRoundTrip(c.local);
  }
}
