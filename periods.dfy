/**
 * Period bucketing of a business date (`formatPeriod`): the start of its week or month, or the date
 * itself. The services render the bucket as `LocalDate.toString()`; dates have one rendering each, so
 * the bucket is kept here as the date it renders.
 */
module Periods {
  import opened Text
  import opened Calendar

  /**
   * The analytics and chart bucketing: `"week"` and `"month"`, compared case-insensitively; every
   * other mode string, `"weekly"` included, keeps the day.
   */
  function PeriodStart(d: LocalDate, groupBy: string): (p: LocalDate)
    ensures Lower(groupBy) == "week" ==>
      IsoWeekday(p) == 1 && DayNumber(d) - 6 <= DayNumber(p) <= DayNumber(d)
    ensures Lower(groupBy) == "month" ==> p.year == d.year && p.month == d.month && p.day == 1
    ensures Lower(groupBy) != "week" && Lower(groupBy) != "month" ==> p == d
  {
    var mode := Lower(groupBy);
    if mode == "week" then WeekStart(d)
    else if mode == "month" then MonthStart(d)
    else d
  }

  /**
   * The revenue bucketing, which also accepts `"weekly"` and `"monthly"`; every other mode string,
   * `"daily"` included, keeps the day.
   */
  function RevenuePeriodStart(d: LocalDate, period: string): (p: LocalDate)
    ensures Lower(period) in {"week", "weekly"} ==>
      IsoWeekday(p) == 1 && DayNumber(d) - 6 <= DayNumber(p) <= DayNumber(d)
    ensures Lower(period) in {"month", "monthly"} ==> p.year == d.year && p.month == d.month && p.day == 1
    ensures Lower(period) !in {"week", "weekly", "month", "monthly"} ==> p == d
  {
    var mode := Lower(period);
    if mode == "weekly" || mode == "week" then WeekStart(d)
    else if mode == "monthly" || mode == "month" then MonthStart(d)
    else d
  }

  /** The Monday of a date's week lies on the day line at the last multiple of seven at or before it. */
  lemma WeekStartAligned(d: LocalDate)
    ensures DayNumber(WeekStart(d)) == DayNumber(d) - DayNumber(d) % 7
  {
  }

  /** Two dates share a week bucket exactly when they fall in the same Monday-to-Sunday week. */
  lemma SameWeekBucket(a: LocalDate, b: LocalDate, groupBy: string)
    requires Lower(groupBy) == "week"
    ensures PeriodStart(a, groupBy) == PeriodStart(b, groupBy) <==> DayNumber(a) / 7 == DayNumber(b) / 7
  {
    WeekStartAligned(a);
    WeekStartAligned(b);
    if DayNumber(a) / 7 == DayNumber(b) / 7 {
      DayNumberInjective(WeekStart(a), WeekStart(b));
    }
  }

  /** Two dates share a month bucket exactly when they have the same year and month. */
  lemma SameMonthBucket(a: LocalDate, b: LocalDate, groupBy: string)
    requires Lower(groupBy) == "month"
    ensures PeriodStart(a, groupBy) == PeriodStart(b, groupBy) <==> a.year == b.year && a.month == b.month
  {
  }

  /** Bucketing a bucket start gives it back. */
  lemma PeriodStartIdempotent(d: LocalDate, groupBy: string)
    ensures PeriodStart(PeriodStart(d, groupBy), groupBy) == PeriodStart(d, groupBy)
  {
    var p := PeriodStart(d, groupBy);
    if Lower(groupBy) == "week" {
      WeekStartAligned(p);
      DayNumberInjective(WeekStart(p), p);
    }
  }

  /**
   * The two bucketings agree except on `"weekly"` and `"monthly"`, which only the revenue service
   * understands; the analytics and chart services treat them as daily.
   */
  lemma BucketingsAgree(d: LocalDate, mode: string)
    ensures Lower(mode) !in {"weekly", "monthly"} ==> RevenuePeriodStart(d, mode) == PeriodStart(d, mode)
    ensures Lower(mode) == "weekly" ==> PeriodStart(d, mode) == d && RevenuePeriodStart(d, mode) == WeekStart(d)
  {
  }
}
