/**
 * Calendar dates of the proleptic Gregorian calendar (java.time.LocalDate), the day arithmetic the
 * services use (`plusDays`, `minusDays`, `with(DayOfWeek.MONDAY)`, `withDayOfMonth(1)`, `isAfter`),
 * the ISO text of a date (`LocalDate.toString()`) and the UTC hour and weekday of an instant.
 */
module Calendar {
  import opened Text

  datatype Date = Date(year: int, month: int, day: int)

  predicate IsLeapYear(y: int) {
    y % 4 == 0 && (y % 100 != 0 || y % 400 == 0)
  }

  function DaysInMonth(y: int, m: int): (n: int)
    requires 1 <= m <= 12
    ensures 28 <= n <= 31
  {
    if m == 2 then (if IsLeapYear(y) then 29 else 28)
    else if m == 4 || m == 6 || m == 9 || m == 11 then 30
    else 31
  }

  predicate IsValid(d: Date) {
    1 <= d.month <= 12 && 1 <= d.day <= DaysInMonth(d.year, d.month)
  }

  /** A date that exists in the calendar, as every LocalDate does. */
  type LocalDate = d: Date | IsValid(d) witness Date(1970, 1, 1)

  function DaysInYear(y: int): int {
    if IsLeapYear(y) then 366 else 365
  }

  /** Days from 0001-01-01 to the first of January of year `y` (negative before year 1). */
  function DaysBeforeYear(y: int): int {
    var p := y - 1;
    365 * p + p / 4 - p / 100 + p / 400
  }

  /** Days from the first of January of year `y` to the first day of month `m`. */
  function DaysBeforeMonth(y: int, m: int): int
    requires 1 <= m <= 12
  {
    var leap := if IsLeapYear(y) && m > 2 then 1 else 0;
    leap + (
      if m == 1 then 0 else if m == 2 then 31 else if m == 3 then 59 else if m == 4 then 90
      else if m == 5 then 120 else if m == 6 then 151 else if m == 7 then 181 else if m == 8 then 212
      else if m == 9 then 243 else if m == 10 then 273 else if m == 11 then 304 else 334)
  }

  /** The position of a date on the day line: days since 0001-01-01, which was a Monday. */
  function DayNumber(d: LocalDate): int {
    DaysBeforeYear(d.year) + DaysBeforeMonth(d.year, d.month) + d.day - 1
  }

  lemma {:induction false} YearLength(y: int)
    ensures DaysBeforeYear(y + 1) == DaysBeforeYear(y) + DaysInYear(y)
  {
    assert y / 4 - (y - 1) / 4 == if y % 4 == 0 then 1 else 0;
    assert y / 100 - (y - 1) / 100 == if y % 100 == 0 then 1 else 0;
    assert y / 400 - (y - 1) / 400 == if y % 400 == 0 then 1 else 0;
  }

  /** The next calendar day (`plusDays(1)`). */
  function NextDay(d: LocalDate): (r: LocalDate)
    ensures DayNumber(r) == DayNumber(d) + 1
  {
    if d.day < DaysInMonth(d.year, d.month) then Date(d.year, d.month, d.day + 1)
    else if d.month < 12 then Date(d.year, d.month + 1, 1)
    else
      YearLength(d.year);
      Date(d.year + 1, 1, 1)
  }

  /** The previous calendar day (`minusDays(1)`). */
  function PrevDay(d: LocalDate): (r: LocalDate)
    ensures DayNumber(r) == DayNumber(d) - 1
  {
    if d.day > 1 then Date(d.year, d.month, d.day - 1)
    else if d.month > 1 then Date(d.year, d.month - 1, DaysInMonth(d.year, d.month - 1))
    else
      YearLength(d.year - 1);
      Date(d.year - 1, 12, 31)
  }

  /** `d.plusDays(n)`: the date `n` days later. */
  function PlusDays(d: LocalDate, n: nat): (r: LocalDate)
    ensures DayNumber(r) == DayNumber(d) + n
    decreases n
  {
    if n == 0 then d else PlusDays(NextDay(d), n - 1)
  }

  /** `d.minusDays(n)`: the date `n` days earlier. */
  function MinusDays(d: LocalDate, n: nat): (r: LocalDate)
    ensures DayNumber(r) == DayNumber(d) - n
    decreases n
  {
    if n == 0 then d else MinusDays(PrevDay(d), n - 1)
  }

  /** ISO day of the week: 1 = Monday ... 7 = Sunday. */
  function IsoWeekday(d: LocalDate): (w: int)
    ensures 1 <= w <= 7
  {
    DayNumber(d) % 7 + 1
  }

  /** `d.with(DayOfWeek.MONDAY)`: the Monday of the ISO week (Monday to Sunday) that holds `d`. */
  function WeekStart(d: LocalDate): (r: LocalDate)
    ensures IsoWeekday(r) == 1
    ensures DayNumber(d) - 6 <= DayNumber(r) <= DayNumber(d)
  {
    var r := MinusDays(d, IsoWeekday(d) - 1);
    MondayAligned(DayNumber(d), DayNumber(r));
    r
  }

  lemma MondayAligned(n: int, m: int)
    requires m == n - n % 7
    ensures m % 7 == 0
  {
  }

  /** `d.withDayOfMonth(1)`: the first day of the month that holds `d`. */
  function MonthStart(d: LocalDate): (r: LocalDate)
    ensures r.year == d.year && r.month == d.month && r.day == 1
    ensures DayNumber(d) - 30 <= DayNumber(r) <= DayNumber(d)
  {
    Date(d.year, d.month, 1)
  }

  /** `a.isAfter(b)`: `a` lies strictly later on the day line. */
  predicate IsAfter(a: LocalDate, b: LocalDate) {
    DayNumber(a) > DayNumber(b)
  }

  /** Distinct dates have distinct day numbers, so the day line orders dates without ties. */
  lemma {:induction false} DayNumberInjective(a: LocalDate, b: LocalDate)
    requires DayNumber(a) == DayNumber(b)
    ensures a == b
  {
    if a.year < b.year {
      YearBounds(a);
      YearBounds(b);
      YearsApart(a.year, b.year);
    } else if b.year < a.year {
      YearBounds(a);
      YearBounds(b);
      YearsApart(b.year, a.year);
    } else if a.month != b.month {
      MonthsApart(a, b);
    }
  }

  /** A date's day number lies inside its own year. */
  lemma YearBounds(d: LocalDate)
    ensures DaysBeforeYear(d.year) <= DayNumber(d) < DaysBeforeYear(d.year) + DaysInYear(d.year)
  {
  }

  lemma {:induction false} YearsApart(y1: int, y2: int)
    requires y1 < y2
    ensures DaysBeforeYear(y1) + DaysInYear(y1) <= DaysBeforeYear(y2)
    decreases y2 - y1
  {
    YearLength(y1);
    if y1 + 1 < y2 {
      YearsApart(y1 + 1, y2);
    }
  }

  lemma MonthsApart(a: LocalDate, b: LocalDate)
    requires a.year == b.year && a.month != b.month
    ensures DayNumber(a) != DayNumber(b)
  {
  }

  // ---- Instants (epoch seconds, read in UTC) ----

  /** Days from 0001-01-01 to 1970-01-01, the epoch of java.time.Instant. */
  const EpochDayOffset: int := 719162

  /** The UTC calendar day of an instant, counted from 1970-01-01 (floor division). */
  function EpochDay(epochSeconds: int): int {
    epochSeconds / 86400
  }

  /** `LocalDateTime.ofInstant(t, UTC).getHour()`. */
  function UtcHour(epochSeconds: int): (h: int)
    ensures 0 <= h < 24
  {
    (epochSeconds / 3600) % 24
  }

  /** `LocalDateTime.ofInstant(t, UTC).getDayOfWeek().getValue()`: ISO weekday, 1 = Monday. */
  function UtcIsoWeekday(epochSeconds: int): (w: int)
    ensures 1 <= w <= 7
  {
    (EpochDay(epochSeconds) + EpochDayOffset) % 7 + 1
  }

  /** An instant falls on the weekday of the calendar date of its UTC day. */
  lemma InstantWeekday(epochSeconds: int, d: LocalDate)
    requires EpochDay(epochSeconds) + EpochDayOffset == DayNumber(d)
    ensures UtcIsoWeekday(epochSeconds) == IsoWeekday(d)
  {
  }

  lemma EpochIsThursday()
    ensures DayNumber(Date(1970, 1, 1)) == EpochDayOffset
    ensures IsoWeekday(Date(1970, 1, 1)) == 4
  {
  }

  // ---- Text ----

  function TwoDigits(n: nat): string {
    if n < 10 then "0" + NatText(n) else NatText(n)
  }

  /** `LocalDate.toString()`: ISO-8601 `yyyy-MM-dd`, with a sign and more digits outside 0000..9999. */
  function DateText(d: LocalDate): string {
    var y := d.year;
    var yearText :=
      if -1000 < y < 0 then "-" + ZeroPadded(-y, 4)
      else if 0 <= y < 1000 then ZeroPadded(y, 4)
      else if y > 9999 then "+" + NatText(y)
      else if y < 0 then "-" + NatText(-y)
      else NatText(y);
    yearText + "-" + TwoDigits(d.month) + "-" + TwoDigits(d.day)
  }
}
