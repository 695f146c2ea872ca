/** Dates as the chart code sees them: whole UTC days and their `YYYY-MM-DD` strings, for the years 0 to 9999.
    The day of a date is the ECMAScript formula; the date of a day is found by counting from 0000-01-01. */
module Calendar {
  import opened Schema

  // ----- The Gregorian calendar -----

  predicate Leap(y: int) {
    y % 4 == 0 && (y % 100 != 0 || y % 400 == 0)
  }

  function DaysInMonth(y: int, m: int): int {
    if m == 2 then if Leap(y) then 29 else 28
    else if m == 4 || m == 6 || m == 9 || m == 11 then 30 else 31
  }

  datatype Date = Date(year: int, month: int, day: int)

  predicate Proper(d: Date) {
    0 <= d.year <= 9999 && 1 <= d.month <= 12 && 1 <= d.day <= DaysInMonth(d.year, d.month)
  }

  // Days before month `m` of a common year.
  function DaysBefore(m: int): int {
    if m <= 1 then 0 else if m == 2 then 31 else if m == 3 then 59 else if m == 4 then 90 else if m == 5 then 120
    else if m == 6 then 151 else if m == 7 then 181 else if m == 8 then 212 else if m == 9 then 243
    else if m == 10 then 273 else if m == 11 then 304 else 334
  }

  // DayFromYear of ECMA-262, section 21.4.1.6: the days from 1970-01-01 to the first of January of `y`.
  function DayFromYear(y: int): int {
    365 * (y - 1970) + (y - 1969) / 4 - (y - 1901) / 100 + (y - 1601) / 400
  }

  function DayNumber(d: Date): int {
    DayFromYear(d.year) + DaysBefore(d.month) + (if d.month > 2 && Leap(d.year) then 1 else 0) + d.day - 1
  }

  const FIRST := -719_528      // 0000-01-01
  const LAST := 2_932_896      // 9999-12-31

  function Tomorrow(d: Date): Date {
    if d.day < DaysInMonth(d.year, d.month) then Date(d.year, d.month, d.day + 1)
    else if d.month < 12 then Date(d.year, d.month + 1, 1)
    else Date(d.year + 1, 1, 1)
  }

  lemma NewYear(y: int)
    ensures DayFromYear(y + 1) == DayFromYear(y) + if Leap(y) then 366 else 365
  {
    Fours(y);
    Hundreds(y);
    FourHundreds(y);
    assert y % 400 == 0 ==> y % 100 == 0 by { Hundredths(y); }
    assert y % 100 == 0 ==> y % 4 == 0 by { Quarters(y); }
  }

  lemma Fours(y: int)
    ensures (y - 1968) / 4 == (y - 1969) / 4 + if y % 4 == 0 then 1 else 0
  {}

  lemma Hundreds(y: int)
    ensures (y - 1900) / 100 == (y - 1901) / 100 + if y % 100 == 0 then 1 else 0
  {}

  lemma FourHundreds(y: int)
    ensures (y - 1600) / 400 == (y - 1601) / 400 + if y % 400 == 0 then 1 else 0
  {}

  lemma Hundredths(y: int)
    ensures y % 400 == 0 ==> y % 100 == 0
  {}

  lemma Quarters(y: int)
    ensures y % 100 == 0 ==> y % 4 == 0
  {}

  // The formula counts the days.
  lemma TomorrowIsNext(d: Date)
    requires Proper(d)
    ensures DayNumber(Tomorrow(d)) == DayNumber(d) + 1
  {
    NewYear(d.year);
    hide DayFromYear;
  }

  lemma {:induction false} YearsAscend(y: int, z: int)
    requires y < z
    ensures DayFromYear(y) + 365 <= DayFromYear(z) && (Leap(y) ==> DayFromYear(y) + 366 <= DayFromYear(z))
    decreases z - y
  {
    NewYear(z - 1);
    if y < z - 1 { YearsAscend(y, z - 1); }
    hide DayFromYear;
  }

  predicate Earlier(d: Date, e: Date) {
    d.year < e.year || (d.year == e.year && (d.month < e.month || (d.month == e.month && d.day < e.day)))
  }

  lemma DaysAscend(d: Date, e: Date)
    requires Proper(d) && Proper(e) && Earlier(d, e)
    ensures DayNumber(d) < DayNumber(e)
  {
    if d.year < e.year { YearsAscend(d.year, e.year); }
    hide DayFromYear;
  }

  lemma SameDay(d: Date, e: Date)
    requires Proper(d) && Proper(e) && DayNumber(d) == DayNumber(e)
    ensures d == e
  {
    if Earlier(d, e) { DaysAscend(d, e); } else if Earlier(e, d) { DaysAscend(e, d); }
    hide DayNumber;
  }

  // The date of a day, counting from the first.
  function DateOf(day: int): (d: Date)
    requires FIRST <= day <= LAST
    ensures Proper(d) && DayNumber(d) == day
    decreases day - FIRST
  {
    if day == FIRST then Date(0, 1, 1)
    else
      TomorrowIsNext(DateOf(day - 1));
      StaysProper(DateOf(day - 1));
      Tomorrow(DateOf(day - 1))
  }

  lemma StaysProper(d: Date)
    requires Proper(d) && DayNumber(d) < LAST
    ensures Proper(Tomorrow(d))
  {}

  // Days and dates correspond one to one.
  lemma DatesAreDays(d: Date)
    requires Proper(d)
    ensures FIRST <= DayNumber(d) <= LAST && DateOf(DayNumber(d)) == d
  {
    hide DateOf;
    var first, last := Date(0, 1, 1), Date(9999, 12, 31);
    if Earlier(first, d) { DaysAscend(first, d); }
    if Earlier(d, last) { DaysAscend(d, last); }
    SameDay(DateOf(DayNumber(d)), d);
  }

  // ----- Their texts -----

  function Digit(n: int): char {
    '0' + (n % 10) as char
  }

  predicate IsDigit(c: char) { '0' <= c <= '9' }

  function DateText(d: Date): string {
    [Digit(d.year / 1000), Digit(d.year / 100), Digit(d.year / 10), Digit(d.year), '-',
     Digit(d.month / 10), Digit(d.month), '-', Digit(d.day / 10), Digit(d.day)]
  }

  // `/^\d{4}-\d{2}-\d{2}$/u`
  predicate DatePattern(s: string) {
    |s| == 10 && s[4] == '-' && s[7] == '-' && forall i :: 0 <= i < 10 && i != 4 && i != 7 ==> IsDigit(s[i])
  }

  lemma DigitsAgree(m: int, n: int)
    requires Digit(m) == Digit(n)
    ensures m % 10 == n % 10
  {}

  lemma TwoDigits(m: int, n: int)
    requires 0 <= m < 100 && 0 <= n < 100 && Digit(m / 10) == Digit(n / 10) && Digit(m) == Digit(n)
    ensures m == n
  {
    DigitsAgree(m / 10, n / 10);
    DigitsAgree(m, n);
    hide Digit;
  }

  lemma FourDigits(m: int, n: int)
    requires 0 <= m < 10000 && 0 <= n < 10000 && Digit(m / 1000) == Digit(n / 1000) && Digit(m / 100) == Digit(n / 100)
    requires Digit(m / 10) == Digit(n / 10) && Digit(m) == Digit(n)
    ensures m == n
  {
    DigitsAgree(m / 1000, n / 1000);
    DigitsAgree(m / 100, n / 100);
    DigitsAgree(m / 10, n / 10);
    DigitsAgree(m, n);
    hide Digit;
    Expand(m);
    Expand(n);
  }

  lemma Expand(m: int)
    requires 0 <= m < 10000
    ensures m == 1000 * (m / 1000 % 10) + 100 * (m / 100 % 10) + 10 * (m / 10 % 10) + m % 10
  {
    var a := m / 10;
    var b := a / 10;
    assert b == m / 100 && b / 10 == m / 1000;
    assert m == 10 * a + m % 10 && a == 10 * b + a % 10 && b == 10 * (b / 10) + b % 10;
  }

  lemma TextsDiffer(d: Date, e: Date)
    requires Proper(d) && Proper(e) && DateText(d) == DateText(e)
    ensures d == e
  {
    hide Digit;
    var s, t := DateText(d), DateText(e);
    assert s[0] == t[0] && s[1] == t[1] && s[2] == t[2] && s[3] == t[3] && s[5] == t[5] && s[6] == t[6] && s[8] == t[8] && s[9] == t[9];
    hide DateText;
    FourDigits(d.year, e.year);
    TwoDigits(d.month, e.month);
    TwoDigits(d.day, e.day);
  }

  function TextOf(day: int): (s: string)
    requires FIRST <= day <= LAST
    ensures DatePattern(s)
  {
    DateText(DateOf(day))
  }

  // Different days have different texts.
  lemma OneDayPerText(day: int, other: int)
    requires FIRST <= day <= LAST && FIRST <= other <= LAST && TextOf(day) == TextOf(other)
    ensures day == other
  {
    TextsDiffer(DateOf(day), DateOf(other));
    hide DateOf, DateText;
  }

  // ----- The built-ins -----

  // `new Date(t).toISOString().slice(0, 10)`; outside the years 0 to 9999 only the sign it starts with is kept.
  function IsoDate(t: int): string {
    var day := t / DAY_MS;
    if day < FIRST then "-" else if day > LAST then "+" else TextOf(day)
  }

  function UtcToday(now: int): int {
    now / DAY_MS * DAY_MS
  }

  // What is assumed of `Date.parse` on `<text>T00:00:00.000Z`: it reads every real date.  On a text that
  // names no day it may fail or roll over to some other day, as engines do.
  ghost predicate ParsesDates(parse: string -> Option<int>) {
    forall day :: FIRST <= day <= LAST ==> parse(TextOf(day)) == Some(day * DAY_MS)
  }

  // The client's `dateTimestamp` and, with None for its exception, the server's `parseDate`.
  function DateTimestamp(value: Option<string>, parse: string -> Option<int>): Option<int> {
    if value.None? || !DatePattern(value.value) then None
    else
      var parsed := parse(value.value);
      if parsed.Some? && IsoDate(parsed.value) == value.value then parsed else None
  }

  lemma ReadsDates(day: int, parse: string -> Option<int>)
    requires FIRST <= day <= LAST && ParsesDates(parse)
    ensures DateTimestamp(Some(TextOf(day)), parse) == Some(day * DAY_MS) && IsoDate(day * DAY_MS) == TextOf(day)
  {
    assert day * DAY_MS / DAY_MS == day;
  }

  // Whatever the engine makes of a text that names no day, it is refused.
  lemma ReadsOnlyDates(value: Option<string>, parse: string -> Option<int>)
    requires ParsesDates(parse)
    ensures var t := DateTimestamp(value, parse);
      t.Some? ==> value.Some? && t.value % DAY_MS == 0 && FIRST <= t.value / DAY_MS <= LAST && value.value == TextOf(t.value / DAY_MS)
  {
    var t := DateTimestamp(value, parse);
    if t.Some? {
      assert IsoDate(t.value)[0] == value.value[0];
      var day := t.value / DAY_MS;
      assert value.value == TextOf(day);
      assert parse(TextOf(day)) == Some(day * DAY_MS);
    }
  }
}
