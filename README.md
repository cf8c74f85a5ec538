# Payment analytics, revenue, charts and merchant pagination — a Dafny model

This project models the reporting core of a payment-processing back office together with the two
pagers of its web front end:

- **Analytics** (`analytics.dfy`): transaction volume per day, week or month, the success rate with its
  raw status breakdown, daily trends with day-over-day and overall change, the hour-by-weekday peak
  heatmap, and the card-type distribution.
- **Revenue** (`revenue.dfy`): revenue per period, the merchant revenue ranking with shares and a
  limit, top performers, the seven-day moving-average forecast with its confidence band, and the
  year-over-year monthly growth comparison.
- **Charts** (`charts.dfy`): line, bar and pie chart data and the daily drill-down of one category.
- **Merchants** (`merchants.dfy`, `merchant_profiles.dfy`, `page_metadata.dfy`): merchant summaries from
  aggregated rows (display name, activity status, success rate, average amount), listing with search
  and pagination, lookup by id, new merchant ids, and the "update only the fields that were sent"
  merge of a merchant profile, which works in place on the merchant entity.
- **Pagers** (`transactions_pagination.dfy`, `common_pagination.dfy`): the 0-based page window of the
  transaction table and the 1-based, offset-driven pager of the merchant list.

Shared vocabulary lives in `wrappers.dfy` (Option, Result), `text.dfy` (ASCII case mapping, trimming,
zero-padded numbers), `calendar.dfy` (proleptic Gregorian dates on a day line, UTC instants),
`records.dfy` (the transaction record and the response shapes), `periods.dfy` (bucketing by day, week
or month), `decimal.dfy` (half-up division, percentages, sums), `grouping.dfy` (grouping in first-seen
or map-iteration order) and `sorting.dfy` (a stable descending sort and `limit`).

Conventions of the model:

- Amounts are whole cents (`int`). `BigDecimal` division with two decimals and `HALF_UP` is `HalfUpDiv`
  on cents. Every percentage, whether computed with `Math.round` on doubles or with `BigDecimal`
  division to four places, is an exact integer in hundredths of a percent (`PercentBp`).
- Dates are `Date(year, month, day)` values restricted to valid calendar dates, numbered on a day line
  whose day 0 is Monday 0001-01-01. Timestamps are optional epoch seconds, read in UTC.
- A `LinkedHashMap` filled in a loop is modelled by that loop (`GroupByInsertion`), which yields the
  keys in first-seen order. A `HashMap` or `groupingBy` map is iterated in an order the language does not
  fix, so it appears as an `order` parameter required to list each distinct key exactly once
  (`IsKeyOrder`); every property is proved for all such orders.
- Loops that update local maps or lists become methods with loop invariants, each proved equal to a
  specification function about which the remaining properties are proved as lemmas.

Where the written description of the system and the code differ, the model follows the code:

- With fewer than two days of data, trends leave `trendDirection` and `overallChangePercentage` unset
  (the description calls this case "stable").
- When the first day averages zero and the last day is higher, the overall change divides by zero and
  the call fails; `GetTransactionTrends` returns `Failure(DivisionByZero)` exactly then. A point's own
  change is guarded and is simply absent.
- Only `"week"` and `"month"` (any case) bucket by week or month in the volume and chart services;
  `"weekly"` and `"monthly"` fall through to daily buckets there, while the revenue service accepts both
  spellings (`BucketingsAgree`).
- The forecast's standard deviation takes the sum of squared deviations, divides it by the window size
  with half-up rounding to two decimals, and only then takes the square root.

## Model

| member | source | states |
|---|---|---|
| Periods.PeriodStart | part3-backend-challenge/src/main/java/com/payment/service/AnalyticsServiceImpl.java:60-70 | `"week"` (any case) gives the Monday on or at most six days before the date, `"month"` the first of its month, and every other mode, `"weekly"` included, the date itself |
| Periods.RevenuePeriodStart | part3-backend-challenge/src/main/java/com/payment/service/RevenueServiceImpl.java:63-75 | `"week"`/`"weekly"` give the Monday of the date's week, `"month"`/`"monthly"` the first of its month, anything else (such as `"daily"`) the date itself |
| Periods.SameWeekBucket | part3-backend-challenge/src/main/java/com/payment/service/AnalyticsServiceImpl.java:63-64 | two dates share a week bucket exactly when they lie in the same Monday-to-Sunday week |
| Periods.SameMonthBucket | part3-backend-challenge/src/main/java/com/payment/service/AnalyticsServiceImpl.java:65-66 | two dates share a month bucket exactly when year and month agree |
| Periods.PeriodStartIdempotent | part3-backend-challenge/src/main/java/com/payment/service/AnalyticsServiceImpl.java:60-70 | bucketing a bucket start returns it unchanged |
| Periods.BucketingsAgree | part3-backend-challenge/src/main/java/com/payment/service/RevenueServiceImpl.java:63-75 | the revenue bucketing agrees with the analytics bucketing on every mode except `"weekly"`/`"monthly"`; on `"weekly"` the analytics bucket is the day itself while the revenue bucket is its Monday |
| Calendar.WeekStart | part3-backend-challenge/src/main/java/com/payment/service/AnalyticsServiceImpl.java:64 | `with(DayOfWeek.MONDAY)` is a Monday within the six days up to the date |
| Calendar.MonthStart | part3-backend-challenge/src/main/java/com/payment/service/AnalyticsServiceImpl.java:66 | `withDayOfMonth(1)` keeps year and month and sets day 1 |
| Calendar.PlusDays | part3-backend-challenge/src/main/java/com/payment/service/RevenueServiceImpl.java:328 | `plusDays(n)` lies exactly `n` days later on the day line |
| Calendar.MinusDays | part3-backend-challenge/src/main/java/com/payment/service/RevenueServiceImpl.java:137 | `minusDays(n)` lies exactly `n` days earlier on the day line |
| Calendar.UtcHour | part3-backend-challenge/src/main/java/com/payment/service/AnalyticsServiceImpl.java:202-206 | the UTC hour of an instant lies in 0..23 |
| Calendar.UtcIsoWeekday | part3-backend-challenge/src/main/java/com/payment/service/AnalyticsServiceImpl.java:202-207 | the UTC ISO weekday of an instant lies in 1..7 |
| Calendar.InstantWeekday | part3-backend-challenge/src/main/java/com/payment/service/AnalyticsServiceImpl.java:202-207 | an instant's UTC weekday is the weekday of the calendar date of its UTC day |
| Text.Lower | part3-backend-challenge/src/main/java/com/payment/service/AnalyticsServiceImpl.java:62 | `toLowerCase()` keeps the length and lower-cases each character |
| Text.TrimEmptyIffBlank | part3-backend-challenge/src/main/java/com/payment/service/MerchantServiceImpl.java:41 | `trim()` is empty exactly when every character is at most U+0020 |
| Text.ZeroPadded | part3-backend-challenge/src/main/java/com/payment/service/MerchantServiceImpl.java:437 | `%05d`-style padding yields at least `width` digits that read back as the number |
| Decimal.HalfUpDiv | part3-backend-challenge/src/main/java/com/payment/service/AnalyticsServiceImpl.java:50 | `divide(count, 2, HALF_UP)` in cents: the quotient is within half a unit of the exact one, ties away from zero |
| Decimal.PercentBp | part3-backend-challenge/src/main/java/com/payment/service/AnalyticsServiceImpl.java:116-118 | the rounded percentage in hundredths of a percent has the sign of the numerator, lies in 0..100% for a share, and is 100% for the whole |
| Decimal.Average | part3-backend-challenge/src/main/java/com/payment/service/RevenueServiceImpl.java:44 | the half-up mean of a non-negative total is non-negative and within half a cent of the exact mean |
| Grouping.GroupByInsertion | part3-backend-challenge/src/main/java/com/payment/service/AnalyticsServiceImpl.java:33-38 | the `LinkedHashMap` loop yields one group per distinct key in first-seen order, each holding that key's records in record order |
| Grouping.KeysDistinct | part3-backend-challenge/src/main/java/com/payment/service/AnalyticsServiceImpl.java:33-38 | the first-seen keys of a grouping are pairwise distinct |
| Grouping.KeysCover | part3-backend-challenge/src/main/java/com/payment/service/AnalyticsServiceImpl.java:33-38 | every record's key is a first-seen key, and every first-seen key has a non-empty group |
| Grouping.MembersHaveKey | part3-backend-challenge/src/main/java/com/payment/service/AnalyticsServiceImpl.java:33-38 | every record of a group has that group's key |
| Grouping.MembersComplete | part3-backend-challenge/src/main/java/com/payment/service/AnalyticsServiceImpl.java:33-38 | every record with a key belongs to that key's group |
| Grouping.GroupingTotals | part3-backend-challenge/src/main/java/com/payment/service/RevenueServiceImpl.java:89-90 | for any iteration order of a `groupingBy` map, the per-group totals add up to the total over all records |
| Sorting.SortDesc | part3-backend-challenge/src/main/java/com/payment/service/RevenueServiceImpl.java:107 | `sorted(comparing(revenue).reversed())` is non-increasing in weight and a permutation of its input |
| Sorting.Take | part3-backend-challenge/src/main/java/com/payment/service/RevenueServiceImpl.java:108 | `limit(n)` is the prefix of length `min(n, size)` |
| Sorting.TopOfSorted | part3-backend-challenge/src/main/java/com/payment/service/RevenueServiceImpl.java:107-108 | a prefix of a sorted list is sorted, and no element after it outweighs an element in it |
| Sorting.SortStable | part3-backend-challenge/src/main/java/com/payment/service/RevenueServiceImpl.java:107 | the sort is stable: the elements of any one weight come out in the order they went in |
| Sorting.InsertStable | part3-backend-challenge/src/main/java/com/payment/service/RevenueServiceImpl.java:107 | inserting into a sorted list keeps the input order among elements of equal weight |
| Analytics.GetTransactionVolume | part3-backend-challenge/src/main/java/com/payment/service/AnalyticsServiceImpl.java:26-58 | the data are the volume points of the first-seen period buckets; `groupBy` is echoed and the date range reads "start to end" |
| Analytics.VolumePartition | part3-backend-challenge/src/main/java/com/payment/service/AnalyticsServiceImpl.java:33-54 | one point per distinct bucket in first-seen order, each non-empty; counts add up to the number of records, totals to the sum of all amounts; each average is total / count rounded half-up |
| Analytics.VolumePointRounding | part3-backend-challenge/src/main/java/com/payment/service/AnalyticsServiceImpl.java:46-50 | a non-empty bucket's point has its key and size, and an average within half a cent of total / count |
| Analytics.VolumeSums | part3-backend-challenge/src/main/java/com/payment/service/AnalyticsServiceImpl.java:41-54 | the bucket counts add up to the number of records and the bucket totals to the sum of all amounts |
| Analytics.GetSuccessRate | part3-backend-challenge/src/main/java/com/payment/service/AnalyticsServiceImpl.java:72-124 | total is the record count; the four counters count case-insensitive status matches; the breakdown has one key per raw status with its record count; the rate is the half-up percentage of completed, 0 without records, and lies in 0..100% |
| Analytics.NamedCountsBounded | part3-backend-challenge/src/main/java/com/payment/service/AnalyticsServiceImpl.java:88-106 | completed + pending + failed + reversed never exceeds the number of records |
| Analytics.BreakdownSumsToTotal | part3-backend-challenge/src/main/java/com/payment/service/AnalyticsServiceImpl.java:80-90 | the breakdown counts, read in first-seen status order, add up to the number of records |
| Analytics.CaseInsensitiveCounters | part3-backend-challenge/src/main/java/com/payment/service/AnalyticsServiceImpl.java:88-105 | `"COMPLETED"` and `"completed"` are two breakdown keys but both count as completed |
| Analytics.DayAverage | part3-backend-challenge/src/main/java/com/payment/service/AnalyticsServiceImpl.java:145-146 | a day's half-up average amount is never negative |
| Analytics.DailyGroups | part3-backend-challenge/src/main/java/com/payment/service/AnalyticsServiceImpl.java:134-138 | as many daily groups as distinct days |
| Analytics.DailyAverages | part3-backend-challenge/src/main/java/com/payment/service/AnalyticsServiceImpl.java:143-146 | one non-negative half-up average per daily group, in the same order |
| Analytics.Change | part3-backend-challenge/src/main/java/com/payment/service/AnalyticsServiceImpl.java:151-156 | a change is present exactly when there is a previous average and it is positive, and it has the sign of the move |
| Analytics.PointsFrom | part3-backend-challenge/src/main/java/com/payment/service/AnalyticsServiceImpl.java:143-160 | one trend point per daily group, with its day, half-up average and size |
| Analytics.PointsFromPrefix | part3-backend-challenge/src/main/java/com/payment/service/AnalyticsServiceImpl.java:143-160 | the points of the first `k` days are the first `k` points |
| Analytics.PointChange | part3-backend-challenge/src/main/java/com/payment/service/AnalyticsServiceImpl.java:150-159 | point `i` compares its average with that of day `i - 1` (none for the first day) |
| Analytics.DailyTrendPoints | part3-backend-challenge/src/main/java/com/payment/service/AnalyticsServiceImpl.java:140-160 | the loop carrying the previous average yields exactly the trend points |
| Analytics.TrendPointChange | part3-backend-challenge/src/main/java/com/payment/service/AnalyticsServiceImpl.java:150-159 | point `i` has a change exactly when `i > 0` and the previous day's average is positive; the change is non-negative on a rise and non-positive on a fall |
| Analytics.GetTransactionTrends | part3-backend-challenge/src/main/java/com/payment/service/AnalyticsServiceImpl.java:126-188 | fails with division by zero exactly when there are two or more days, the first averages 0 and the last is higher; otherwise the points are the trend points, direction and overall change stay unset below two days, and are up/down/stable with the half-up percentage change (0 when stable) from two days on |
| Analytics.SlotOf | part3-backend-challenge/src/main/java/com/payment/service/AnalyticsServiceImpl.java:202-208 | a slot has hour 0..23 and day `isoWeekday % 7` in 0..6, Sunday = 0 |
| Analytics.Timestamps | part3-backend-challenge/src/main/java/com/payment/service/AnalyticsServiceImpl.java:199-200 | only records with a timestamp are counted: the list holds exactly the records' timestamps, and no more entries than records |
| Analytics.Heatmap | part3-backend-challenge/src/main/java/com/payment/service/AnalyticsServiceImpl.java:213-218 | one cell per slot of the map's iteration order, carrying that slot's hour, day and number of timestamped records |
| Analytics.PeakIndex | part3-backend-challenge/src/main/java/com/payment/service/AnalyticsServiceImpl.java:223-226 | `max(comparing(count))` picks the first cell of largest count |
| Analytics.TallySlots | part3-backend-challenge/src/main/java/com/payment/service/AnalyticsServiceImpl.java:198-211 | the `merge` loop leaves one counter per occupied slot, holding the number of timestamped records in it |
| Analytics.GetPeakTimes | part3-backend-challenge/src/main/java/com/payment/service/AnalyticsServiceImpl.java:190-236 | the heatmap lists every occupied slot with its count; without cells the busiest fields stay unset, otherwise they are those of the first cell of largest count |
| Analytics.HeatmapPartition | part3-backend-challenge/src/main/java/com/payment/service/AnalyticsServiceImpl.java:198-218 | every cell lies in the 24 x 7 grid and is non-empty, and the counts add up to the number of timestamped records |
| Analytics.TallyCards | part3-backend-challenge/src/main/java/com/payment/service/AnalyticsServiceImpl.java:247-257 | the in-place counters hold, per card type seen, its record count and amount total, and the running total is the record count |
| Analytics.GetCardDistribution | part3-backend-challenge/src/main/java/com/payment/service/AnalyticsServiceImpl.java:238-273 | total is the record count, and each listed card type has its count, amount total and half-up percentage share (0 without records) |
| Analytics.CardDistributionPartition | part3-backend-challenge/src/main/java/com/payment/service/AnalyticsServiceImpl.java:247-272 | the counts add up to the number of records, the amount totals to the sum of all amounts, and every share lies in 0..100% |
| Revenue.PeriodRevenues | part3-backend-challenge/src/main/java/com/payment/service/RevenueServiceImpl.java:39-47 | one figure per distinct bucket in first-seen order, holding that bucket's revenue, count and half-up average |
| Revenue.CollectPeriodRevenues | part3-backend-challenge/src/main/java/com/payment/service/RevenueServiceImpl.java:33-47 | the `LinkedHashMap` loop and the stream yield exactly the period figures |
| Revenue.GetRevenueByPeriod | part3-backend-challenge/src/main/java/com/payment/service/RevenueServiceImpl.java:25-61 | the periods are the bucket figures, `groupBy` is echoed, total revenue is the sum of the period revenues and equals the sum of all amounts, total transactions likewise equals the record count |
| Revenue.PeriodRevenuesPartition | part3-backend-challenge/src/main/java/com/payment/service/RevenueServiceImpl.java:53-58 | the period revenues add up to the sum of all amounts and the counts to the record count |
| Revenue.EffectiveLimit | part3-backend-challenge/src/main/java/com/payment/service/RevenueServiceImpl.java:82-84 | a missing or non-positive limit becomes 10, a positive one is kept |
| Revenue.MerchantRows | part3-backend-challenge/src/main/java/com/payment/service/RevenueServiceImpl.java:93-106 | one row per merchant of the map's iteration order, with its revenue, count and half-up average |
| Revenue.Ranking | part3-backend-challenge/src/main/java/com/payment/service/RevenueServiceImpl.java:111-123 | the kept merchants in sorted order, with rank `i + 1` and their share of the kept merchants' revenue |
| Revenue.AssignRanks | part3-backend-challenge/src/main/java/com/payment/service/RevenueServiceImpl.java:114-123 | the rank loop gives row `i` rank `i + 1` and its share of the given total, changing nothing else |
| Revenue.RankMerchants | part3-backend-challenge/src/main/java/com/payment/service/RevenueServiceImpl.java:89-123 | the pipeline yields the ranking, and its total is the revenue of the kept merchants only |
| Revenue.GetRevenueByMerchant | part3-backend-challenge/src/main/java/com/payment/service/RevenueServiceImpl.java:77-131 | the merchants are the ranking, total revenue is their summed revenue, and `totalMerchants` their number |
| Revenue.GetTopPerformers | part3-backend-challenge/src/main/java/com/payment/service/RevenueServiceImpl.java:240-293 | the list is the same ranking as revenue by merchant whatever `sortBy` is; `sortBy` is echoed and the date range reads "start to end" |
| Revenue.SortedRowsOwn | part3-backend-challenge/src/main/java/com/payment/service/RevenueServiceImpl.java:93-107 | every sorted row is the row of a merchant of the map, with non-negative revenue |
| Revenue.SortedRowsDistinct | part3-backend-challenge/src/main/java/com/payment/service/RevenueServiceImpl.java:89-107 | no merchant has two sorted rows |
| Revenue.SortedRowsCover | part3-backend-challenge/src/main/java/com/payment/service/RevenueServiceImpl.java:89-107 | every merchant of the map has a sorted row |
| Revenue.TopSortedDistinct | part3-backend-challenge/src/main/java/com/payment/service/RevenueServiceImpl.java:107-108 | the kept merchants remain sorted by revenue and distinct |
| Revenue.RankingShape | part3-backend-challenge/src/main/java/com/payment/service/RevenueServiceImpl.java:107-116 | the ranking has `min(limit, merchants)` entries, ranks 1..n in list order, each a merchant of the records |
| Revenue.RankingOrder | part3-backend-challenge/src/main/java/com/payment/service/RevenueServiceImpl.java:107-116 | revenue never increases down the ranking and no merchant appears twice |
| Revenue.OmittedEarnedNoMore | part3-backend-challenge/src/main/java/com/payment/service/RevenueServiceImpl.java:107-108 | a merchant cut by the limit earned no more than any merchant kept |
| Revenue.SharesBounded | part3-backend-challenge/src/main/java/com/payment/service/RevenueServiceImpl.java:112-122 | every share lies in 0..100% of the kept total, and a sole kept merchant with revenue has 100% |
| Revenue.ShareWithin | part3-backend-challenge/src/main/java/com/payment/service/RevenueServiceImpl.java:117-122 | within any list of non-negative revenues, each share lies in 0..100% of their sum |
| Revenue.ForecastRange | part3-backend-challenge/src/main/java/com/payment/service/RevenueServiceImpl.java:136-137 | the history window runs from 30 days before today to today |
| Revenue.WindowRevenues | part3-backend-challenge/src/main/java/com/payment/service/RevenueServiceImpl.java:304-308 | the window is the last `min(7, n)` daily revenues, oldest first |
| Revenue.LastRevenues | part3-backend-challenge/src/main/java/com/payment/service/RevenueServiceImpl.java:304-308 | the skip-and-collect loop yields exactly the window |
| Revenue.SumSquaredDeviations | part3-backend-challenge/src/main/java/com/payment/service/RevenueServiceImpl.java:315-319 | the variance loop yields the sum of squared deviations from the mean |
| Revenue.SquaredDeviationNonNegative | part3-backend-challenge/src/main/java/com/payment/service/RevenueServiceImpl.java:315-319 | the sum of squared deviations is never negative |
| Revenue.SquaredDeviationZero | part3-backend-challenge/src/main/java/com/payment/service/RevenueServiceImpl.java:315-319 | the sum of squared deviations is 0 exactly when every value equals the mean |
| Revenue.DatedPoints | part3-backend-challenge/src/main/java/com/payment/service/RevenueServiceImpl.java:324-336 | the point loop yields `max(0, periods)` points, point `n` dated `n + 1` days after the last day, all with the same figures |
| Revenue.MovingAverageForecast | part3-backend-challenge/src/main/java/com/payment/service/RevenueServiceImpl.java:298-339 | the forecast is the specified point list: empty without history, otherwise dated points carrying the half-up window mean and the bounds mean -/+ deviation, the lower one cut at 0 |
| Revenue.ForecastRevenue | part3-backend-challenge/src/main/java/com/payment/service/RevenueServiceImpl.java:133-171 | the history is the daily revenue figures, the forecast is that of the history, the method is "moving_average" and the confidence 0.75 |
| Revenue.ForecastShape | part3-backend-challenge/src/main/java/com/payment/service/RevenueServiceImpl.java:324-336 | no points without history, otherwise `max(0, periods)` points on the consecutive days after the last day, all with identical figures |
| Revenue.ForecastBounds | part3-backend-challenge/src/main/java/com/payment/service/RevenueServiceImpl.java:310-333 | with a non-negative square root and non-negative revenues, 0 <= lower <= predicted <= upper |
| Revenue.ForecastFlat | part3-backend-challenge/src/main/java/com/payment/service/RevenueServiceImpl.java:310-333 | a window of equal revenues `c` forecasts exactly `c`, with both bounds at `c` |
| Revenue.FlatMean | part3-backend-challenge/src/main/java/com/payment/service/RevenueServiceImpl.java:310-312 | the half-up mean of equal values is that value |
| Revenue.FlatSpread | part3-backend-challenge/src/main/java/com/payment/service/RevenueServiceImpl.java:315-322 | equal values have zero standard deviation |
| Revenue.Growth | part3-backend-challenge/src/main/java/com/payment/service/RevenueServiceImpl.java:201-209 | the growth is 0 when the previous revenue is not positive, otherwise non-negative on a rise and non-positive on a fall |
| Revenue.MonthName | part3-backend-challenge/src/main/java/com/payment/service/RevenueServiceImpl.java:197 | `Month.of(m).name()` is an upper-case name of at least three letters |
| Revenue.MonthNamesDistinct | part3-backend-challenge/src/main/java/com/payment/service/RevenueServiceImpl.java:197 | different months have different names |
| Revenue.MergeMonthlyRevenue | part3-backend-challenge/src/main/java/com/payment/service/RevenueServiceImpl.java:177-187 | after the nested `merge` loop, the lookup with defaults gives each (year, month) the revenue of its records |
| Revenue.YearIsTwelveMonths | part3-backend-challenge/src/main/java/com/payment/service/RevenueServiceImpl.java:214-219 | the twelve monthly revenues of a year add up to its revenue |
| Revenue.AnalyzeGrowth | part3-backend-challenge/src/main/java/com/payment/service/RevenueServiceImpl.java:173-238 | twelve rows, months 1..12 in order with their name, revenues and growth; each yearly total is the sum of its column and the revenue of that year; the overall rate follows the same growth rule |
| Charts.GroupsPartition | part3-backend-challenge/src/main/java/com/payment/service/ChartDataServiceImpl.java:109-117 | for any iteration order of a `groupingBy` map, the group counts add up to the record count and the group revenues to the sum of all amounts |
| Charts.EmptyOrder | part3-backend-challenge/src/main/java/com/payment/service/ChartDataServiceImpl.java:156 | a grouping map is empty exactly when there are no records, so the revenue list is empty only then |
| Charts.GetLineChartData | part3-backend-challenge/src/main/java/com/payment/service/ChartDataServiceImpl.java:26-81 | the `LinkedHashMap` loop and the metric switch yield exactly the line chart |
| Charts.LineChartShape | part3-backend-challenge/src/main/java/com/payment/service/ChartDataServiceImpl.java:34-78 | one label per distinct bucket in first-seen order and one dataset of that length; by metric, counts that add up to the record count, half-up averages of non-empty buckets, or revenues that add up to the sum of all amounts |
| Charts.GetBarChartData | part3-backend-challenge/src/main/java/com/payment/service/ChartDataServiceImpl.java:95-174 | the switch and the dataset list yield exactly the bar chart |
| Charts.BarChartByStatus | part3-backend-challenge/src/main/java/com/payment/service/ChartDataServiceImpl.java:120-128 | by status, the labels are the statuses in map order and the only dataset is the count dataset, adding up to the record count |
| Charts.BarChartByCard | part3-backend-challenge/src/main/java/com/payment/service/ChartDataServiceImpl.java:107-118 | by card, the labels are the card types in map order; the revenue dataset is present exactly when there are records; counts and revenues add up to the whole |
| Charts.SortedGroups | part3-backend-challenge/src/main/java/com/payment/service/ChartDataServiceImpl.java:131-139 | the sorted merchant groups are each merchant's complete group, each merchant exactly once |
| Charts.TopGroupsProperties | part3-backend-challenge/src/main/java/com/payment/service/ChartDataServiceImpl.java:134-141 | the top list has `min(n, merchants)` complete, distinct merchant groups with revenue non-increasing |
| Charts.TopGroupsOmitted | part3-backend-challenge/src/main/java/com/payment/service/ChartDataServiceImpl.java:134-141 | no merchant cut from the top list earned more than one kept |
| Charts.BarChartByMerchant | part3-backend-challenge/src/main/java/com/payment/service/ChartDataServiceImpl.java:130-149 | by merchant, at most ten labels with their revenues and counts at the same index, revenue non-increasing; the revenue dataset is present exactly when there are records |
| Charts.GetPieChartData | part3-backend-challenge/src/main/java/com/payment/service/ChartDataServiceImpl.java:176-229 | the mode switch yields exactly the pie chart |
| Charts.PieChartShape | part3-backend-challenge/src/main/java/com/payment/service/ChartDataServiceImpl.java:186-214 | one "Distribution" dataset aligned with the labels: by merchant at most five merchants by revenue, non-increasing; otherwise every card type or status with counts adding up to the record count |
| Charts.GetDrillDownData | part3-backend-challenge/src/main/java/com/payment/service/ChartDataServiceImpl.java:236-293 | the filter, the daily grouping and the two datasets yield exactly the drill-down chart |
| Charts.DrillDownFilter | part3-backend-challenge/src/main/java/com/payment/service/ChartDataServiceImpl.java:244-260 | "merchant" takes the merchant fetch; "cardtype"/"status" keep exactly the records whose field equals the value case-sensitively; any other category keeps every record |
| Charts.DrillDownShape | part3-backend-challenge/src/main/java/com/payment/service/ChartDataServiceImpl.java:262-292 | one label per distinct day in first-seen order, a "Revenue" and a "Count" dataset of that length, counts adding up to the record count and revenues to the sum of all amounts |
| Merchants.GenerateMerchantName | part3-backend-challenge/src/main/java/com/payment/service/MerchantServiceImpl.java:187-194 | an id starting with "MCH-" is shown as "Merchant " and the rest, any other id (null included) unchanged |
| Merchants.DetermineMerchantStatus | part3-backend-challenge/src/main/java/com/payment/service/MerchantServiceImpl.java:199-212 | "active" exactly when there is a last date and it is strictly after today minus 30 days, "inactive" otherwise |
| Merchants.SuccessRate | part3-backend-challenge/src/main/java/com/payment/service/MerchantServiceImpl.java:228-235 | 0 without transactions, otherwise within half a unit of completed / total in hundredths of a percent, in 0..100% when completed <= total and 100% when all completed |
| Merchants.AverageAmount | part3-backend-challenge/src/main/java/com/payment/service/MerchantServiceImpl.java:237-243 | 0 unless both count and revenue are positive, otherwise the half-up mean, between 0 and the revenue |
| Merchants.ToMerchantSummary | part3-backend-challenge/src/main/java/com/payment/service/MerchantServiceImpl.java:217-257 | id and dates are copied, null counts and revenue default to 0, rate and average follow the rules above |
| Merchants.SummaryNameAndStatus | part3-backend-challenge/src/main/java/com/payment/service/MerchantServiceImpl.java:220-254 | the summary's name is the display name of its id and its status the activity rule on its last date |
| Merchants.GenerateNewMerchantId | part3-backend-challenge/src/main/java/com/payment/service/MerchantServiceImpl.java:432-438 | "MCH-" followed by at least five digits |
| Merchants.NewIdNumber | part3-backend-challenge/src/main/java/com/payment/service/MerchantServiceImpl.java:437 | the digits of a new id read back as count + 51 |
| Merchants.NewIdsDistinct | part3-backend-challenge/src/main/java/com/payment/service/MerchantServiceImpl.java:432-438 | different merchant counts give different ids |
| Merchants.NewIdDisplayName | part3-backend-challenge/src/main/java/com/payment/service/MerchantServiceImpl.java:432-438 | a new id is shown as "Merchant " and its zero-padded number |
| Merchants.QueryFor | part3-backend-challenge/src/main/java/com/payment/service/MerchantServiceImpl.java:41-48 | the search query is used exactly when the term is present and not blank, with the trimmed term |
| Merchants.PresentRows | part3-backend-challenge/src/main/java/com/payment/service/MerchantServiceImpl.java:54-61 | null rows are skipped, so there are at most as many rows as results |
| Merchants.PresentRowsExact | part3-backend-challenge/src/main/java/com/payment/service/MerchantServiceImpl.java:54-63 | the kept rows are exactly the non-null results, all of them when none is null |
| Merchants.Summaries | part3-backend-challenge/src/main/java/com/payment/service/MerchantServiceImpl.java:52-69 | one summary per non-null row, in row order |
| Merchants.ListMerchants | part3-backend-challenge/src/main/java/com/payment/service/MerchantServiceImpl.java:34-76 | the merchants are the summaries of the non-null rows of the chosen query, no more than the rows, and the pagination is built from its count, limit and offset |
| Merchants.GetMerchantById | part3-backend-challenge/src/main/java/com/payment/service/MerchantServiceImpl.java:78-102 | nothing when there is no row or the first row is null, otherwise the summary of the first row |
| MerchantProfiles.Merchant.Apply | part3-backend-challenge/src/main/java/com/payment/service/MerchantServiceImpl.java:313-373 | after the field block, the entity is the old profile with exactly the request's non-null fields overwritten |
| MerchantProfiles.Merchant.ApplyBusinessFields | part3-backend-challenge/src/main/java/com/payment/service/MerchantServiceImpl.java:314-370 | each name, business, tax, registration, classification, status and risk field takes the request's value when non-null and is kept otherwise |
| MerchantProfiles.Merchant.ApplyContactFields | part3-backend-challenge/src/main/java/com/payment/service/MerchantServiceImpl.java:326-373 | each contact, address and notes field takes the request's value when non-null and is kept otherwise |
| MerchantProfiles.UpdateMerchant | part3-backend-challenge/src/main/java/com/payment/service/MerchantServiceImpl.java:304-381 | with every entity stored under its own id: an unknown id fails with "Merchant not found: " + id; otherwise that merchant gets the merged profile, which keeps the requested id, and is returned, and every other stored merchant is unchanged |
| MerchantProfiles.MergeOverwritesPresentFields | part3-backend-challenge/src/main/java/com/payment/service/MerchantServiceImpl.java:313-373 | the id never changes; for the name, e-mail, registration date and status a non-null request value wins and a null one keeps the stored value; an empty request changes nothing |
| MerchantProfiles.MergeComposes | part3-backend-challenge/src/main/java/com/payment/service/MerchantServiceImpl.java:313-373 | two updates in turn equal one update with the later request laid over the earlier |
| MerchantProfiles.MergeIdempotent | part3-backend-challenge/src/main/java/com/payment/service/MerchantServiceImpl.java:313-373 | repeating an update changes nothing more |
| PageMetadata.CeilDiv | part3-backend-challenge/src/main/java/com/payment/dto/merchant/MerchantListResponse.java:53 | the integer ceiling: `b * (q - 1) < a <= b * q` |
| PageMetadata.NewPaginationMetadata | part3-backend-challenge/src/main/java/com/payment/dto/merchant/MerchantListResponse.java:48-56 | total, limit and offset are kept; the current page holds the offset; the page count covers the total; `hasNext` iff offset + limit < total; `hasPrevious` iff offset > 0 |
| PageMetadata.NoRowsNoPages | part3-backend-challenge/src/main/java/com/payment/dto/merchant/MerchantListResponse.java:53 | the page count is 0 exactly when there are no rows |
| PageMetadata.NextBeforeLastPage | part3-backend-challenge/src/main/java/com/payment/dto/merchant/MerchantListResponse.java:52-54 | `hasNext` implies the current page is before the last; a page starting inside the rows is never past the last |
| PageMetadata.PreviousIffNotFirstPage | part3-backend-challenge/src/main/java/com/payment/dto/merchant/MerchantListResponse.java:52-55 | on a page boundary, `hasPrevious` holds exactly when the page is not the first |
| TransactionsPagination.GetPageNumbers | part4-frontend-challenge/src/components/transactions/Pagination.tsx:26-64 | the push loops yield exactly the specified page window |
| TransactionsPagination.SmallWindowListsAll | part4-frontend-challenge/src/components/transactions/Pagination.tsx:30-34 | up to five pages, the window is exactly pages 0..totalPages-1 |
| TransactionsPagination.LargeWindowShape | part4-frontend-challenge/src/components/transactions/Pagination.tsx:35-61 | beyond five pages, 5 to 7 entries from page 0 to the last page, page numbers strictly increasing within range, every ellipsis hiding at least one page |
| TransactionsPagination.HeadWindow | part4-frontend-challenge/src/components/transactions/Pagination.tsx:37-43 | near the start, the window is well shaped |
| TransactionsPagination.TailWindow | part4-frontend-challenge/src/components/transactions/Pagination.tsx:44-50 | near the end, the window is well shaped |
| TransactionsPagination.MiddleWindow | part4-frontend-challenge/src/components/transactions/Pagination.tsx:51-60 | in the middle, the window is well shaped |
| TransactionsPagination.CurrentPageShown | part4-frontend-challenge/src/components/transactions/Pagination.tsx:30-61 | a current page in range always has its button |
| TransactionsPagination.StartItem | part4-frontend-challenge/src/components/transactions/Pagination.tsx:23 | the first row number is one past `currentPage * itemsPerPage` |
| TransactionsPagination.EndItem | part4-frontend-challenge/src/components/transactions/Pagination.tsx:24 | the last row number is the page end or the row count, whichever is smaller |
| TransactionsPagination.ShownRows | part4-frontend-challenge/src/components/transactions/Pagination.tsx:23-24 | at most a page of rows is shown, a full page when rows remain, and the end falls before the start exactly when the page starts past the rows |
| TransactionsPagination.PreviousDisabled | part4-frontend-challenge/src/components/transactions/Pagination.tsx:90 | from a non-negative page, Previous is enabled exactly when its target page `currentPage - 1` exists |
| TransactionsPagination.NextDisabled | part4-frontend-challenge/src/components/transactions/Pagination.tsx:117 | Next is enabled exactly when its target page `currentPage + 1` is below the page count |
| TransactionsPagination.ButtonsStayInRange | part4-frontend-challenge/src/components/transactions/Pagination.tsx:88-122 | in range, Previous is enabled exactly when page - 1 exists and Next exactly when page + 1 exists |
| CommonPagination.CurrentPage | part4-frontend-challenge/src/components/common/Pagination.tsx:19 | the current page is the one that holds row `offset` |
| CommonPagination.TotalPages | part4-frontend-challenge/src/components/common/Pagination.tsx:20 | the page count is the ceiling of total / limit |
| CommonPagination.GetPageNumbers | part4-frontend-challenge/src/components/common/Pagination.tsx:39-58 | the pushes yield exactly the specified page window |
| CommonPagination.SmallWindowListsAll | part4-frontend-challenge/src/components/common/Pagination.tsx:43-46 | up to five pages, the window is exactly 1..totalPages |
| CommonPagination.LargeWindowShape | part4-frontend-challenge/src/components/common/Pagination.tsx:47-55 | beyond five pages, 6 or 7 entries from 1 to totalPages, page numbers strictly increasing within range, every `-1` hiding at least one page |
| CommonPagination.HeadWindow | part4-frontend-challenge/src/components/common/Pagination.tsx:48-49 | near the start, the window is well shaped |
| CommonPagination.TailWindow | part4-frontend-challenge/src/components/common/Pagination.tsx:50-51 | near the end, the window is well shaped |
| CommonPagination.MiddleWindow | part4-frontend-challenge/src/components/common/Pagination.tsx:52-53 | in the middle, the window is well shaped |
| CommonPagination.CurrentPageShown | part4-frontend-challenge/src/components/common/Pagination.tsx:43-55 | a current page in range always appears in the window |
| CommonPagination.Render | part4-frontend-challenge/src/components/common/Pagination.tsx:60-103 | nothing is rendered exactly when there is at most one page; otherwise the pager shows the window of the current page |
| CommonPagination.HiddenIffOnePage | part4-frontend-challenge/src/components/common/Pagination.tsx:60-62 | nothing is rendered exactly when total <= limit |
| CommonPagination.InfoLineWithinRows | part4-frontend-challenge/src/components/common/Pagination.tsx:67 | "offset+1 - min(offset+limit, total)" names rows of the list only, at most a page of them, a full page when rows remain |
| CommonPagination.PreviousOffset | part4-frontend-challenge/src/components/common/Pagination.tsx:22-26 | emitted exactly when offset > 0, and then a smaller non-negative offset |
| CommonPagination.NextOffset | part4-frontend-challenge/src/components/common/Pagination.tsx:28-32 | emitted exactly when offset + limit < total, and then below total |
| CommonPagination.PageOffset | part4-frontend-challenge/src/components/common/Pagination.tsx:34-36 | the offset a page click emits lies in that page's row range, and is not negative for a page from 1 on; `PageClickLandsOnPage` shows it lands on that page |
| CommonPagination.PageClickLandsOnPage | part4-frontend-challenge/src/components/common/Pagination.tsx:34-36 | the offset a page click emits lies on that very page |
| CommonPagination.NextMovesOnePage | part4-frontend-challenge/src/components/common/Pagination.tsx:28-32 | from a page boundary, Next moves to the following page |
| CommonPagination.PreviousMovesOnePage | part4-frontend-challenge/src/components/common/Pagination.tsx:22-26 | from a page boundary, Previous moves to the page before |
| CommonPagination.ButtonsMatchHandlers | part4-frontend-challenge/src/components/common/Pagination.tsx:70-101 | each button is enabled exactly when its handler emits an offset |
| Text.LowerIdempotent | part3-backend-challenge/src/main/java/com/payment/service/AnalyticsServiceImpl.java:62 | lower-casing twice is lower-casing once, so the lower-cased mode is a fixed point |
| Text.TrimStart | part3-backend-challenge/src/main/java/com/payment/service/MerchantServiceImpl.java:41 | drops exactly the leading characters up to U+0020, leaving a suffix that starts with a visible character |
| Text.TrimEnd | part3-backend-challenge/src/main/java/com/payment/service/MerchantServiceImpl.java:41 | drops exactly the trailing characters up to U+0020, leaving a prefix that ends with a visible character |
| Calendar.NextDay | part3-backend-challenge/src/main/java/com/payment/service/RevenueServiceImpl.java:328 | the day after a date is one further on the day line, across month and year ends and in leap years |
| Calendar.PrevDay | part3-backend-challenge/src/main/java/com/payment/service/RevenueServiceImpl.java:137 | the day before a date is one back on the day line, across month and year ends |
| Calendar.DayNumberInjective | part3-backend-challenge/src/main/java/com/payment/service/AnalyticsServiceImpl.java:35 | distinct dates lie on distinct days, so keying on the day is keying on the date |
| Decimal.HalfUpDivExact | part3-backend-challenge/src/main/java/com/payment/service/AnalyticsServiceImpl.java:50 | dividing an exact multiple rounds to nothing: `HalfUpDiv(d * k, d) == k` |
| Grouping.MembersAtMost | part3-backend-challenge/src/main/java/com/payment/service/AnalyticsServiceImpl.java:33-38 | a group never holds more records than the list |
| Grouping.KeysOfPrefix | part3-backend-challenge/src/main/java/com/payment/service/AnalyticsServiceImpl.java:33-38 | first-seen order: the keys of a prefix of the records are a prefix of all the keys |
| MerchantProfiles.Merchant.constructor | part3-backend-challenge/src/main/java/com/payment/service/MerchantServiceImpl.java:309-310 | the loaded entity holds exactly the stored profile |

## Left out

- Database access: the repositories and SQL queries are not modelled. The fetched transactions are a `seq<Txn>` input, already restricted to the requested date range. The merchant rows and their count are the parameters `rowsOf` and `countOf`.
- Controllers and request validation are not modelled. The merchant controller replaces a `limit` outside 1..100 by 10 and a negative `offset` by 0; only the consequence, `limit >= 1` and `offset >= 0`, appears, as the `requires` of `ListMerchants` and `NewPaginationMetadata`.
- The wall clock is not modelled: "today" is a parameter of `ForecastRange`, `DetermineMerchantStatus` and `ToMerchantSummary`, and `ForecastRevenue` receives the records of that range.
- `Math.sqrt` on doubles: the forecast takes the square root as a parameter `sqrt`. `ForecastBounds` assumes it is non-negative on non-negative input, and `ForecastFlat` assumes `sqrt(0) == 0`.
- Floating point: `Math.round` percentages and `Math.ceil` page counts are modelled as exact integer arithmetic. The double rounding errors of the source are not reproduced.
- `toLowerCase` and `trim` are modelled on ASCII case and code points up to U+0020. Locale-dependent case mapping is not modelled.
- `LocalDate.toString` labels are kept as the dates themselves (`DateText`). ISO text rendering is injective, so grouping by the text is grouping by the date.
- `GetPeakTimes`: ties between equally busy cells go to the first cell in the map's iteration order. That order is a parameter, so which slot wins a tie depends on the `HashMap` and is not fixed by the model.
- 32-bit `int` and 64-bit `long` overflow are not modelled; for example, `offset + limit` and the 1-based row numbers of the pagers are unbounded integers.
- The `results == null` guards and the `try`/`catch` blocks are not modelled. In `listMerchants` a row whose mapping throws is logged and skipped, and in `getMerchantById` such an error is logged and yields an empty result; the model's mapping never fails, so neither path arises.
- `getRecentTransactions` is a plain repository pass-through with nothing to prove.
- `mapRowToMerchantSummary` is never called.
- `createMerchant`, `mapToMerchantResponse` and `getMerchantDetails` only copy fields and are not modelled. The persistence of `merchantRepository.update` is the in-place update of the stored entity in `UpdateMerchant`.
- The timestamps `createdAt`/`updatedAt` and `createdBy`/`updatedBy` set on an updated merchant are not modelled.
- Chart colours, border widths and other styling fields are not modelled. The React components' markup and event wiring are not modelled beyond the page window, the info line and the two buttons' enabled state; form validation is not modelled either.
- `CommonPagination`: a `limit` of 0 gives `Infinity`/`NaN` pages in JavaScript. The model requires `limit >= 1`.
- `CardDistributionPartition` proves that each card type's share lies in 0..100% and that the counts add up to the total. It does not prove that the rounded shares add up to 100% within 0.1.
- `GetRevenueByMerchant`, `GetTopPerformers`: the `HashMap` per merchant is iterated in the parameter order, so the relative order of merchants with equal revenue after the stable sort depends on that order.
