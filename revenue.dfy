/**
 * `RevenueServiceImpl`: revenue per period, the merchant ranking (also served as "top performers"),
 * the moving-average forecast and the twelve-month year-over-year comparison.
 */
module Revenue {
  import opened Wrappers
  import opened Calendar
  import opened Decimal
  import opened Records
  import opened Grouping
  import opened Sorting
  import opened Periods

  // ---- Revenue by period ----

  datatype PeriodRevenue = PeriodRevenue(period: LocalDate, revenue: int, transactionCount: nat, averageTransaction: int)

  datatype RevenueByPeriodResponse = RevenueByPeriodResponse(
    periods: seq<PeriodRevenue>, totalRevenue: int, totalTransactions: nat, groupBy: string)

  /** The revenue figures of one bucket: its revenue, its size and the half-up mean. */
  function PeriodRevenueOf(g: Group<LocalDate, Txn>): PeriodRevenue {
    var count := |g.members|;
    var revenue := Total(g.members, AmountOf);
    PeriodRevenue(g.key, revenue, count, if count > 0 then HalfUpDiv(revenue, count) else 0)
  }

  function RevenuePeriodKey(period: string): Txn -> LocalDate {
    (t: Txn) => RevenuePeriodStart(t.txnDate, period)
  }

  /** The revenue of every bucket, in first-seen bucket order. */
  function PeriodRevenues(txns: seq<Txn>, key: Txn -> LocalDate): (ps: seq<PeriodRevenue>)
    ensures |ps| == |Keys(txns, key)|
    ensures forall i :: 0 <= i < |ps| ==>
      ps[i] == PeriodRevenueOf(Group(Keys(txns, key)[i], Members(txns, key, Keys(txns, key)[i])))
  {
    var gs := GroupsOf(txns, key, Keys(txns, key));
    seq(|gs|, i requires 0 <= i < |gs| => PeriodRevenueOf(gs[i]))
  }

  function Revenues(ps: seq<PeriodRevenue>): seq<int> {
    seq(|ps|, i requires 0 <= i < |ps| => ps[i].revenue)
  }

  function Counts(ps: seq<PeriodRevenue>): seq<int> {
    seq(|ps|, i requires 0 <= i < |ps| => ps[i].transactionCount as int)
  }

  /** Buckets the records with a `LinkedHashMap` and lists one revenue figure per bucket. */
  method CollectPeriodRevenues(txns: seq<Txn>, key: Txn -> LocalDate) returns (periods: seq<PeriodRevenue>)
    ensures periods == PeriodRevenues(txns, key)
  {
    var groups := GroupByInsertion(txns, key);
    periods := [];
    for i := 0 to |groups|
      invariant |periods| == i
      invariant forall n :: 0 <= n < i ==> periods[n] == PeriodRevenueOf(groups[n])
    {
      periods := periods + [PeriodRevenueOf(groups[i])];
    }
  }

  /**
   * `getRevenueByPeriod`: the per-bucket revenues and their sums; the summed revenue is the revenue of
   * all records and the summed count is the number of records.
   */
  method GetRevenueByPeriod(txns: seq<Txn>, period: string) returns (r: RevenueByPeriodResponse)
    ensures r.periods == PeriodRevenues(txns, RevenuePeriodKey(period))
    ensures r.groupBy == period
    ensures r.totalRevenue == Sum(Revenues(r.periods)) == Total(txns, AmountOf)
    ensures r.totalTransactions == Sum(Counts(r.periods)) == |txns|
  {
    var periods := CollectPeriodRevenues(txns, RevenuePeriodKey(period));
    PeriodRevenuesPartition(txns, RevenuePeriodKey(period));
    var totalRevenue := Sum(Revenues(periods));
    var totalTransactions := Sum(Counts(periods));
    r := RevenueByPeriodResponse(periods, totalRevenue, totalTransactions, period);
  }

  /** The buckets partition the records: their revenues and counts add up to the whole. */
  lemma PeriodRevenuesPartition(txns: seq<Txn>, key: Txn -> LocalDate)
    ensures Sum(Revenues(PeriodRevenues(txns, key))) == Total(txns, AmountOf)
    ensures Sum(Counts(PeriodRevenues(txns, key))) == |txns|
  {
    var keys := Keys(txns, key);
    var ps := PeriodRevenues(txns, key);
    forall i | 0 <= i < |ps|
      ensures Counts(ps)[i] == GroupTotals(txns, key, keys, One)[i]
    {
      TotalOfOnes(Members(txns, key, keys[i]), One);
    }
    assert Counts(ps) == GroupTotals(txns, key, keys, One);
    assert Revenues(ps) == GroupTotals(txns, key, keys, AmountOf);
    KeysDistinct(txns, key);
    KeysCover(txns, key);
    PartitionTotals(txns, key, keys, One);
    PartitionTotals(txns, key, keys, AmountOf);
    TotalOfOnes(txns, One);
  }

  // ---- Revenue by merchant and top performers ----

  datatype MerchantRevenueData = MerchantRevenueData(
    merchantId: string,
    revenue: int,
    transactionCount: nat,
    averageTransaction: int,
    percentageOfTotal: int,
    rank: int)

  datatype RevenueByMerchantResponse = RevenueByMerchantResponse(
    merchants: seq<MerchantRevenueData>, totalRevenue: int, totalMerchants: nat)

  datatype TopPerformersResponse = TopPerformersResponse(
    topMerchants: seq<MerchantRevenueData>, sortedBy: string, dateRange: string)

  /** A missing or non-positive `limit` means 10. */
  function EffectiveLimit(limit: Option<int>): (n: nat)
    ensures n >= 1
    ensures limit.Some? && limit.value > 0 ==> n == limit.value
    ensures limit.None? || limit.value <= 0 ==> n == 10
  {
    if limit.None? || limit.value <= 0 then 10 else limit.value
  }

  /** The revenue figures of one merchant, before ranking (rank and share still unset). */
  function MerchantRow(txns: seq<Txn>, merchantId: string): MerchantRevenueData {
    var members := Members(txns, MerchantOf, merchantId);
    var count := |members|;
    var revenue := Total(members, AmountOf);
    MerchantRevenueData(merchantId, revenue, count, if count > 0 then HalfUpDiv(revenue, count) else 0, 0, 0)
  }

  function RevenueOf(d: MerchantRevenueData): int { d.revenue }

  /** One row per merchant, in the iteration order `order` of the `groupingBy` map. */
  function MerchantRows(txns: seq<Txn>, order: seq<string>): (rows: seq<MerchantRevenueData>)
    ensures |rows| == |order|
    ensures forall i :: 0 <= i < |order| ==> rows[i] == MerchantRow(txns, order[i])
  {
    seq(|order|, i requires 0 <= i < |order| => MerchantRow(txns, order[i]))
  }

  /** The merchants sorted by revenue, largest first, and cut to the limit. */
  function TopMerchants(txns: seq<Txn>, order: seq<string>, limit: Option<int>): seq<MerchantRevenueData> {
    Take(SortDesc(MerchantRows(txns, order), RevenueOf), EffectiveLimit(limit))
  }

  function RevenueSum(ms: seq<MerchantRevenueData>): int {
    Sum(seq(|ms|, i requires 0 <= i < |ms| => ms[i].revenue))
  }

  /** A merchant's share of `total` in hundredths of a percent, or 0 when the total is not positive. */
  function Share(revenue: int, total: int): int {
    if total > 0 then PercentBp(revenue, total) else 0
  }

  /** The final ranking: rank `i + 1` and the share of the listed merchants' revenue. */
  function Ranking(txns: seq<Txn>, order: seq<string>, limit: Option<int>): (ranked: seq<MerchantRevenueData>)
    ensures var top := TopMerchants(txns, order, limit);
      |ranked| == |top|
      && forall i :: 0 <= i < |top| ==>
           ranked[i] == top[i].(rank := i + 1, percentageOfTotal := Share(top[i].revenue, RevenueSum(top)))
  {
    var top := TopMerchants(txns, order, limit);
    var total := RevenueSum(top);
    seq(|top|, i requires 0 <= i < |top| => top[i].(rank := i + 1, percentageOfTotal := Share(top[i].revenue, total)))
  }

  /** The rank loop: `data.setRank(rank++)` and the share of each listed merchant, in place. */
  method AssignRanks(merchants: seq<MerchantRevenueData>, totalRevenue: int) returns (ranked: seq<MerchantRevenueData>)
    ensures |ranked| == |merchants|
    ensures forall i :: 0 <= i < |merchants| ==>
      ranked[i] == merchants[i].(rank := i + 1, percentageOfTotal := Share(merchants[i].revenue, totalRevenue))
  {
    ranked := merchants;
    var rank := 1;
    for i := 0 to |ranked|
      invariant |ranked| == |merchants|
      invariant rank == i + 1
      invariant forall n :: 0 <= n < i ==>
        ranked[n] == merchants[n].(rank := n + 1, percentageOfTotal := Share(merchants[n].revenue, totalRevenue))
      invariant forall n :: i <= n < |merchants| ==> ranked[n] == merchants[n]
    {
      var data := ranked[i].(rank := rank);
      rank := rank + 1;
      if totalRevenue > 0 {
        data := data.(percentageOfTotal := PercentBp(data.revenue, totalRevenue));
      } else {
        data := data.(percentageOfTotal := 0);
      }
      ranked := ranked[i := data];
    }
  }

  /** Groups by merchant, sorts, truncates, sums the listed revenue and ranks. */
  method RankMerchants(txns: seq<Txn>, order: seq<string>, limit: Option<int>)
    returns (merchants: seq<MerchantRevenueData>, totalRevenue: int)
    requires IsKeyOrder(order, txns, MerchantOf)
    ensures merchants == Ranking(txns, order, limit)
    ensures totalRevenue == RevenueSum(TopMerchants(txns, order, limit)) == RevenueSum(merchants)
  {
    var top := TopMerchants(txns, order, limit);
    totalRevenue := RevenueSum(top);
    merchants := AssignRanks(top, totalRevenue);
    assert seq(|merchants|, i requires 0 <= i < |merchants| => merchants[i].revenue)
        == seq(|top|, i requires 0 <= i < |top| => top[i].revenue);
  }

  /**
   * `getRevenueByMerchant`: the ranking, the revenue of the listed merchants only, and their number.
   */
  method GetRevenueByMerchant(txns: seq<Txn>, order: seq<string>, limit: Option<int>) returns (r: RevenueByMerchantResponse)
    requires IsKeyOrder(order, txns, MerchantOf)
    ensures r.merchants == Ranking(txns, order, limit)
    ensures r.totalRevenue == RevenueSum(r.merchants)
    ensures r.totalMerchants == |r.merchants|
  {
    var merchants, totalRevenue := RankMerchants(txns, order, limit);
    r := RevenueByMerchantResponse(merchants, totalRevenue, |merchants|);
  }

  /**
   * `getTopPerformers`: the same ranking as `getRevenueByMerchant` whatever `sortBy` says; `sortBy` is
   * only echoed back.
   */
  method GetTopPerformers(txns: seq<Txn>, order: seq<string>, startDate: LocalDate, endDate: LocalDate,
                          limit: Option<int>, sortBy: string) returns (r: TopPerformersResponse)
    requires IsKeyOrder(order, txns, MerchantOf)
    ensures r.topMerchants == Ranking(txns, order, limit)
    ensures r.sortedBy == sortBy
    ensures r.dateRange == DateRange(startDate, endDate)
  {
    var merchants, _ := RankMerchants(txns, order, limit);
    r := TopPerformersResponse(merchants, sortBy, DateRange(startDate, endDate));
  }

  /** Each sorted row is the row of a merchant of `order`, with non-negative revenue. */
  lemma SortedRowsOwn(txns: seq<Txn>, order: seq<string>)
    ensures var sorted := SortDesc(MerchantRows(txns, order), RevenueOf);
      |sorted| == |order|
      && forall i :: 0 <= i < |sorted| ==>
           sorted[i].merchantId in order && sorted[i] == MerchantRow(txns, sorted[i].merchantId)
           && sorted[i].revenue >= 0
  {
    var rows := MerchantRows(txns, order);
    var sorted := SortDesc(rows, RevenueOf);
    assert |sorted| == |multiset(sorted)| == |multiset(rows)| == |rows|;
    forall i | 0 <= i < |sorted|
      ensures sorted[i].merchantId in order && sorted[i] == MerchantRow(txns, sorted[i].merchantId)
      ensures sorted[i].revenue >= 0
    {
      assert sorted[i] in multiset(rows);
      var k :| 0 <= k < |rows| && rows[k] == sorted[i];
      TotalNonNegative(Members(txns, MerchantOf, order[k]), AmountOf);
    }
  }

  /** No merchant appears twice in `ms`. */
  predicate DistinctMerchants(ms: seq<MerchantRevenueData>) {
    forall i, j :: 0 <= i < j < |ms| ==> ms[i].merchantId != ms[j].merchantId
  }

  /** No merchant has two sorted rows. */
  lemma SortedRowsDistinct(txns: seq<Txn>, order: seq<string>)
    requires Distinct(order)
    ensures DistinctMerchants(SortDesc(MerchantRows(txns, order), RevenueOf))
  {
    var rows := MerchantRows(txns, order);
    var sorted := SortDesc(rows, RevenueOf);
    assert Distinct(rows);
    DistinctPermutation(rows, sorted);
    SortedRowsOwn(txns, order);
    forall i, j | 0 <= i < j < |sorted|
      ensures sorted[i].merchantId != sorted[j].merchantId
    {
      assert sorted[i] != sorted[j];
    }
  }

  /** The merchants kept after the cut are still sorted by revenue and still distinct. */
  lemma TopSortedDistinct(txns: seq<Txn>, order: seq<string>, limit: Option<int>)
    requires Distinct(order)
    ensures SortedDesc(TopMerchants(txns, order, limit), RevenueOf)
    ensures DistinctMerchants(TopMerchants(txns, order, limit))
  {
    var sorted := SortDesc(MerchantRows(txns, order), RevenueOf);
    SortedRowsDistinct(txns, order);
    TopOfSorted(sorted, RevenueOf, EffectiveLimit(limit));
    var top := Take(sorted, EffectiveLimit(limit));
    assert forall k :: 0 <= k < |top| ==> top[k] == sorted[k];
  }

  /** Every merchant of `order` has a sorted row. */
  lemma SortedRowsCover(txns: seq<Txn>, order: seq<string>)
    ensures forall k :: 0 <= k < |order| ==>
      exists p :: 0 <= p < |SortDesc(MerchantRows(txns, order), RevenueOf)|
               && SortDesc(MerchantRows(txns, order), RevenueOf)[p].merchantId == order[k]
  {
    var rows := MerchantRows(txns, order);
    var sorted := SortDesc(rows, RevenueOf);
    forall k | 0 <= k < |order|
      ensures exists p :: 0 <= p < |sorted| && sorted[p].merchantId == order[k]
    {
      assert rows[k] in multiset(sorted);
      var p :| 0 <= p < |sorted| && sorted[p] == rows[k];
      assert sorted[p].merchantId == MerchantRow(txns, order[k]).merchantId == order[k];
    }
    assert sorted == SortDesc(MerchantRows(txns, order), RevenueOf);
  }

  /**
   * The ranking lists at most `limit` merchants (and all of them when there are fewer), ranked 1, 2,
   * ... in list order, each one a merchant that has records.
   */
  lemma RankingShape(txns: seq<Txn>, order: seq<string>, limit: Option<int>)
    requires IsKeyOrder(order, txns, MerchantOf)
    ensures var ranked := Ranking(txns, order, limit);
      var n := EffectiveLimit(limit);
      |ranked| == (if |order| < n then |order| else n)
      && forall i :: 0 <= i < |ranked| ==> ranked[i].rank == i + 1 && ranked[i].merchantId in order
  {
    var sorted := SortDesc(MerchantRows(txns, order), RevenueOf);
    SortedRowsOwn(txns, order);
    assert Take(sorted, EffectiveLimit(limit)) <= sorted;
  }

  /** Revenue never increases down the ranking, and no merchant appears twice. */
  lemma RankingOrder(txns: seq<Txn>, order: seq<string>, limit: Option<int>)
    requires IsKeyOrder(order, txns, MerchantOf)
    ensures var ranked := Ranking(txns, order, limit);
      forall i, j :: 0 <= i < j < |ranked| ==>
        ranked[i].revenue >= ranked[j].revenue && ranked[i].merchantId != ranked[j].merchantId
  {
    var ranked := Ranking(txns, order, limit);
    var top := TopMerchants(txns, order, limit);
    TopSortedDistinct(txns, order, limit);
    forall i, j | 0 <= i < j < |ranked|
      ensures ranked[i].revenue >= ranked[j].revenue && ranked[i].merchantId != ranked[j].merchantId
    {
      assert ranked[i].revenue == top[i].revenue && ranked[j].revenue == top[j].revenue;
      assert RevenueOf(top[i]) >= RevenueOf(top[j]);
    }
  }

  /** A merchant left out of the ranking earned no more than any merchant listed. */
  lemma OmittedEarnedNoMore(txns: seq<Txn>, order: seq<string>, limit: Option<int>, m: string, i: int)
    requires IsKeyOrder(order, txns, MerchantOf)
    requires m in order
    requires forall j :: 0 <= j < |Ranking(txns, order, limit)| ==> Ranking(txns, order, limit)[j].merchantId != m
    requires 0 <= i < |Ranking(txns, order, limit)|
    ensures MerchantRow(txns, m).revenue <= Ranking(txns, order, limit)[i].revenue
  {
    var sorted := SortDesc(MerchantRows(txns, order), RevenueOf);
    var ranked := Ranking(txns, order, limit);
    var top := TopMerchants(txns, order, limit);
    SortedRowsCover(txns, order);
    var k :| 0 <= k < |order| && order[k] == m;
    var p :| 0 <= p < |sorted| && sorted[p].merchantId == order[k];
    forall j | 0 <= j < |top|
      ensures sorted[j].merchantId != m
    {
      assert ranked[j].merchantId == top[j].merchantId == sorted[j].merchantId;
    }
    SortedRowsOwn(txns, order);
    assert sorted[p] == MerchantRow(txns, m);
    TopOfSorted(sorted, RevenueOf, EffectiveLimit(limit));
    assert ranked[i].revenue == top[i].revenue == sorted[i].revenue;
  }

  /** Every share lies between 0 and 100 percent, and a sole listed merchant with revenue takes all of it. */
  lemma SharesBounded(txns: seq<Txn>, order: seq<string>, limit: Option<int>)
    requires IsKeyOrder(order, txns, MerchantOf)
    ensures var ranked := Ranking(txns, order, limit);
      (forall i :: 0 <= i < |ranked| ==> 0 <= ranked[i].percentageOfTotal <= 10000)
      && (|ranked| == 1 && ranked[0].revenue > 0 ==> ranked[0].percentageOfTotal == 10000)
  {
    var sorted := SortDesc(MerchantRows(txns, order), RevenueOf);
    var top := TopMerchants(txns, order, limit);
    SortedRowsOwn(txns, order);
    assert forall j :: 0 <= j < |top| ==> top[j] == sorted[j];
    forall i | 0 <= i < |top|
      ensures 0 <= Share(top[i].revenue, RevenueSum(top)) <= 10000
      ensures |top| == 1 && top[0].revenue > 0 ==> Share(top[0].revenue, RevenueSum(top)) == 10000
    {
      ShareWithin(top, i);
    }
  }

  /** Within any list of merchants with non-negative revenue, each share lies between 0 and 100 percent. */
  lemma ShareWithin(ms: seq<MerchantRevenueData>, i: int)
    requires forall j :: 0 <= j < |ms| ==> ms[j].revenue >= 0
    requires 0 <= i < |ms|
    ensures 0 <= Share(ms[i].revenue, RevenueSum(ms)) <= 10000
    ensures |ms| == 1 && ms[0].revenue > 0 ==> Share(ms[0].revenue, RevenueSum(ms)) == 10000
  {
    var revs := seq(|ms|, j requires 0 <= j < |ms| => ms[j].revenue);
    SummandAtMost(revs, i);
    if |ms| == 1 {
      assert revs[..0] == [];
      assert Sum(revs) == Sum(revs[..0]) + revs[0];
    }
  }

  // ---- Forecast ----

  datatype ForecastPoint = ForecastPoint(period: LocalDate, predictedRevenue: int, lowerBound: real, upperBound: real)

  datatype RevenueForecastResponse = RevenueForecastResponse(
    forecast: seq<ForecastPoint>, historicalData: seq<PeriodRevenue>, forecastMethod: string, confidence: real)

  /** The window the forecast reads: the thirty days up to "today". */
  function ForecastRange(today: LocalDate): (range: (LocalDate, LocalDate))
    ensures DayNumber(range.0) == DayNumber(today) - 30 && range.1 == today
  {
    (MinusDays(today, 30), today)
  }

  /** The revenues of the last `min(7, n)` days of the history. */
  function WindowRevenues(historical: seq<PeriodRevenue>): (w: seq<int>)
    ensures |w| == if |historical| < 7 then |historical| else 7
    ensures forall i :: 0 <= i < |w| ==> w[i] == historical[|historical| - |w| + i].revenue
  {
    var size := if |historical| < 7 then |historical| else 7;
    seq(size, i requires 0 <= i < size => historical[|historical| - size + i].revenue)
  }

  /** The sum of the squared deviations of `revs` from `avg`. */
  function SquaredDeviation(revs: seq<int>, avg: int): int {
    if revs == [] then 0
    else
      var diff := revs[|revs| - 1] - avg;
      SquaredDeviation(revs[..|revs| - 1], avg) + diff * diff
  }

  /** The variance loop of the forecast. */
  method SumSquaredDeviations(revs: seq<int>, avg: int) returns (variance: int)
    ensures variance == SquaredDeviation(revs, avg)
  {
    variance := 0;
    for i := 0 to |revs|
      invariant variance == SquaredDeviation(revs[..i], avg)
    {
      assert revs[..i + 1][..i] == revs[..i];
      var diff := revs[i] - avg;
      variance := variance + diff * diff;
    }
    assert revs[..|revs|] == revs;
  }

  /**
   * The standard deviation in cents: the squared deviations (in cents squared) are averaged and
   * rounded half-up to hundredths of a currency unit squared, as `divide(size, 2, HALF_UP)` does, and
   * the square root is taken by the supplied `sqrt`.
   */
  function StdDevCents(revs: seq<int>, avg: int, sqrt: real -> real): real
    requires |revs| > 0
  {
    var hundredths := HalfUpDiv(SquaredDeviation(revs, avg), 100 * |revs|);
    100.0 * sqrt(hundredths as real / 100.0)
  }

  function MaxReal(a: real, b: real): real { if a >= b then a else b }

  /** The predicted revenue: the half-up mean of the window. */
  function Prediction(historical: seq<PeriodRevenue>): int
    requires historical != []
  {
    var revs := WindowRevenues(historical);
    HalfUpDiv(Sum(revs), |revs|)
  }

  /** The spread of the bounds around the prediction: the standard deviation of the window. */
  function Spread(historical: seq<PeriodRevenue>, sqrt: real -> real): real
    requires historical != []
  {
    StdDevCents(WindowRevenues(historical), Prediction(historical), sqrt)
  }

  /** The forecast point `i + 1` days after the last day of history. */
  function ForecastPointAt(historical: seq<PeriodRevenue>, sqrt: real -> real, i: nat): ForecastPoint
    requires historical != []
  {
    var avg := Prediction(historical);
    var sigma := Spread(historical, sqrt);
    ForecastPoint(PlusDays(historical[|historical| - 1].period, i + 1), avg,
                  MaxReal(0.0, avg as real - sigma), avg as real + sigma)
  }

  /** The forecast of the history: `periods` points dated after the last day. */
  function ForecastPoints(historical: seq<PeriodRevenue>, periods: int, sqrt: real -> real): seq<ForecastPoint> {
    if historical == [] || periods <= 0 then []
    else seq(periods, i requires 0 <= i < periods => ForecastPointAt(historical, sqrt, i))
  }

  /** The window loop of the forecast: the revenues of the last `min(7, n)` days, oldest first. */
  method LastRevenues(historical: seq<PeriodRevenue>) returns (lastRevenues: seq<int>)
    ensures lastRevenues == WindowRevenues(historical)
  {
    var window := if |historical| < 7 then |historical| else 7;
    lastRevenues := [];
    for i := |historical| - window to |historical|
      invariant |lastRevenues| == i - (|historical| - window)
      invariant forall n :: 0 <= n < |lastRevenues| ==> lastRevenues[n] == historical[|historical| - window + n].revenue
    {
      lastRevenues := lastRevenues + [historical[i].revenue];
    }
  }

  /** `calculateMovingAverageForecast`. */
  method MovingAverageForecast(historical: seq<PeriodRevenue>, periods: int, sqrt: real -> real)
    returns (forecast: seq<ForecastPoint>)
    ensures forecast == ForecastPoints(historical, periods, sqrt)
  {
    if historical == [] {
      return [];
    }
    var lastRevenues := LastRevenues(historical);
    var avgRevenue := HalfUpDiv(Sum(lastRevenues), |lastRevenues|);
    var variance := SumSquaredDeviations(lastRevenues, avgRevenue);
    var stdDev := 100.0 * sqrt(HalfUpDiv(variance, 100 * |lastRevenues|) as real / 100.0);
    var lower := MaxReal(0.0, avgRevenue as real - stdDev);
    var upper := avgRevenue as real + stdDev;
    forecast := DatedPoints(historical[|historical| - 1].period, periods, avgRevenue, lower, upper);
    DatedPointsForecast(historical, periods, sqrt, forecast, avgRevenue, lower, upper);
  }

  /** Points dated on the days after the history, carrying its prediction and spread, are its forecast. */
  lemma DatedPointsForecast(historical: seq<PeriodRevenue>, periods: int, sqrt: real -> real,
                            forecast: seq<ForecastPoint>, predicted: int, lower: real, upper: real)
    requires historical != []
    requires predicted == Prediction(historical)
    requires lower == MaxReal(0.0, predicted as real - Spread(historical, sqrt))
    requires upper == predicted as real + Spread(historical, sqrt)
    requires |forecast| == if periods > 0 then periods else 0
    requires forall n :: 0 <= n < |forecast| ==>
      forecast[n] == ForecastPoint(PlusDays(historical[|historical| - 1].period, n + 1), predicted, lower, upper)
    ensures forecast == ForecastPoints(historical, periods, sqrt)
  {
    if periods > 0 {
      assert forall n :: 0 <= n < periods ==> forecast[n] == ForecastPointAt(historical, sqrt, n);
    }
  }

  /** The point loop of the forecast: `periods` points with the same figures, one per following day. */
  method DatedPoints(lastDate: LocalDate, periods: int, predicted: int, lower: real, upper: real)
    returns (forecast: seq<ForecastPoint>)
    ensures |forecast| == if periods > 0 then periods else 0
    ensures forall n :: 0 <= n < |forecast| ==>
      forecast[n] == ForecastPoint(PlusDays(lastDate, n + 1), predicted, lower, upper)
  {
    forecast := [];
    var i := 1;
    while i <= periods
      invariant 1 <= i <= (if periods >= 1 then periods + 1 else 1)
      invariant |forecast| == i - 1
      invariant forall n :: 0 <= n < i - 1 ==> forecast[n] == ForecastPoint(PlusDays(lastDate, n + 1), predicted, lower, upper)
      decreases periods - i
    {
      forecast := forecast + [ForecastPoint(PlusDays(lastDate, i), predicted, lower, upper)];
      i := i + 1;
    }
  }

  /** Daily buckets of the forecast history (`toLocalDate().toString()`). */
  function DailyRevenues(txns: seq<Txn>): seq<PeriodRevenue> {
    PeriodRevenues(txns, DayOf)
  }

  /**
   * `forecastRevenue`: `txns` are the records of `ForecastRange(today)`; the history is their daily
   * revenue in first-seen order and the forecast extends it.
   */
  method ForecastRevenue(txns: seq<Txn>, periods: int, sqrt: real -> real) returns (r: RevenueForecastResponse)
    ensures r.historicalData == DailyRevenues(txns)
    ensures r.forecast == ForecastPoints(r.historicalData, periods, sqrt)
    ensures r.forecastMethod == "moving_average" && r.confidence == 0.75
  {
    var historical := CollectPeriodRevenues(txns, DayOf);
    var forecast := MovingAverageForecast(historical, periods, sqrt);
    r := RevenueForecastResponse(forecast, historical, "moving_average", 0.75);
  }

  /**
   * The shape of the forecast: no points without history, otherwise `max(0, periods)` points dated on
   * the consecutive days after the last day of history, all with the same figures.
   */
  lemma ForecastShape(historical: seq<PeriodRevenue>, periods: int, sqrt: real -> real)
    ensures var f := ForecastPoints(historical, periods, sqrt);
      |f| == (if historical == [] || periods <= 0 then 0 else periods)
      && (forall i :: 0 <= i < |f| ==>
            f[i] == ForecastPointAt(historical, sqrt, i)
            && DayNumber(f[i].period) == DayNumber(historical[|historical| - 1].period) + i + 1)
      && (forall i, j :: 0 <= i < |f| && 0 <= j < |f| ==>
            f[i].predictedRevenue == f[j].predictedRevenue && f[i].lowerBound == f[j].lowerBound
            && f[i].upperBound == f[j].upperBound)
  {
  }

  /**
   * The bounds of a forecast point: with a square root that is non-negative on non-negative input and
   * a history without negative revenue, 0 <= lower <= prediction <= upper.
   */
  lemma ForecastBounds(historical: seq<PeriodRevenue>, sqrt: real -> real, i: nat)
    requires historical != []
    requires forall x :: x >= 0.0 ==> sqrt(x) >= 0.0
    requires forall j :: 0 <= j < |historical| ==> historical[j].revenue >= 0
    ensures var p := ForecastPointAt(historical, sqrt, i);
      0.0 <= p.lowerBound <= p.predictedRevenue as real <= p.upperBound
  {
    var revs := WindowRevenues(historical);
    SquaredDeviationNonNegative(revs, Prediction(historical));
    forall j | 0 <= j < |revs|
      ensures revs[j] >= 0
    {
      assert revs[j] == historical[|historical| - |revs| + j].revenue;
    }
    SumNonNegative(revs);
  }

  /**
   * A window in which every day earned the same `c` predicts exactly `c`, and with a square root of 0
   * that is 0 the bounds collapse onto the prediction.
   */
  lemma ForecastFlat(historical: seq<PeriodRevenue>, sqrt: real -> real, i: nat, c: nat)
    requires historical != []
    requires sqrt(0.0) == 0.0
    requires forall j :: 0 <= j < |WindowRevenues(historical)| ==> WindowRevenues(historical)[j] == c
    ensures var p := ForecastPointAt(historical, sqrt, i);
      p.predictedRevenue == c && p.lowerBound == p.upperBound == c as real
  {
    var revs := WindowRevenues(historical);
    FlatMean(revs, c);
    FlatSpread(revs, c, sqrt);
  }

  /** The half-up mean of a non-empty list of equal values is that value. */
  lemma FlatMean(revs: seq<int>, c: nat)
    requires |revs| > 0
    requires forall j :: 0 <= j < |revs| ==> revs[j] == c
    ensures HalfUpDiv(Sum(revs), |revs|) == c
  {
    SumConstant(revs, c);
    HalfUpDivExact(c, |revs|);
  }

  /** Equal values have no spread around their common value when the square root of 0 is 0. */
  lemma FlatSpread(revs: seq<int>, c: nat, sqrt: real -> real)
    requires |revs| > 0
    requires sqrt(0.0) == 0.0
    requires forall j :: 0 <= j < |revs| ==> revs[j] == c
    ensures StdDevCents(revs, c, sqrt) == 0.0
  {
    SquaredDeviationZero(revs, c);
    assert HalfUpDiv(SquaredDeviation(revs, c), 100 * |revs|) == 0;
  }

  lemma {:induction false} SumConstant(s: seq<int>, c: int)
    requires forall j :: 0 <= j < |s| ==> s[j] == c
    ensures Sum(s) == |s| * c
  {
    if s != [] {
      SumConstant(s[..|s| - 1], c);
    }
  }

  lemma {:induction false} SquaredDeviationNonNegative(revs: seq<int>, avg: int)
    ensures SquaredDeviation(revs, avg) >= 0
  {
    if revs != [] {
      SquaredDeviationNonNegative(revs[..|revs| - 1], avg);
    }
  }

  /** The squared deviation is zero exactly when every revenue equals the average. */
  lemma {:induction false} SquaredDeviationZero(revs: seq<int>, avg: int)
    ensures SquaredDeviation(revs, avg) == 0 <==> forall i :: 0 <= i < |revs| ==> revs[i] == avg
  {
    if revs != [] {
      var front := revs[..|revs| - 1];
      var diff := revs[|revs| - 1] - avg;
      SquaredDeviationZero(front, avg);
      SquaredDeviationNonNegative(front, avg);
      assert diff * diff >= 0;
      if diff != 0 {
        assert diff * diff > 0;
      }
    }
  }

  // ---- Growth ----

  datatype MonthlyComparison = MonthlyComparison(
    month: int, monthName: string, currentYearRevenue: int, previousYearRevenue: int, growthRate: int)

  datatype GrowthAnalysisResponse = GrowthAnalysisResponse(
    currentYear: int,
    comparisonYear: int,
    overallGrowthRate: int,
    currentYearTotal: int,
    comparisonYearTotal: int,
    monthlyComparison: seq<MonthlyComparison>)

  /** `Month.of(m).name()`. */
  function MonthName(m: int): (name: string)
    requires 1 <= m <= 12
    ensures |name| >= 3
    ensures forall i :: 0 <= i < |name| ==> 'A' <= name[i] <= 'Z'
  {
    ["JANUARY", "FEBRUARY", "MARCH", "APRIL", "MAY", "JUNE", "JULY", "AUGUST", "SEPTEMBER",
     "OCTOBER", "NOVEMBER", "DECEMBER"][m - 1]
  }

  /** Different months have different names, so every row of the comparison is labelled apart. */
  lemma MonthNamesDistinct(m1: int, m2: int)
    requires 1 <= m1 <= 12 && 1 <= m2 <= 12 && m1 != m2
    ensures MonthName(m1) != MonthName(m2)
  {
  }

  /** The revenue of the records dated in month `m` of year `y`. */
  function MonthRevenue(txns: seq<Txn>, y: int, m: int): int {
    if txns == [] then 0
    else
      var t := txns[|txns| - 1];
      MonthRevenue(txns[..|txns| - 1], y, m) + (if t.txnDate.year == y && t.txnDate.month == m then t.amount else 0)
  }

  /** The revenue of the records dated in year `y`. */
  function YearRevenue(txns: seq<Txn>, y: int): int {
    if txns == [] then 0
    else
      var t := txns[|txns| - 1];
      YearRevenue(txns[..|txns| - 1], y) + (if t.txnDate.year == y then t.amount else 0)
  }

  /** The growth from `previous` to `current` as a percentage of `previous`, or 0 when it is not positive. */
  function Growth(current: int, previous: int): (g: int)
    ensures previous > 0 && current >= previous ==> g >= 0
    ensures previous > 0 && current <= previous ==> g <= 0
    ensures previous <= 0 ==> g == 0
  {
    if previous > 0 then PercentBp(current - previous, previous) else 0
  }

  function ComparisonRow(txns: seq<Txn>, currentYear: int, comparisonYear: int, m: int): MonthlyComparison
    requires 1 <= m <= 12
  {
    var current := MonthRevenue(txns, currentYear, m);
    var previous := MonthRevenue(txns, comparisonYear, m);
    MonthlyComparison(m, MonthName(m), current, previous, Growth(current, previous))
  }

  /** `getOrDefault(year, new HashMap<>()).getOrDefault(month, ZERO)` on the nested map. */
  function Lookup(yearMonthRevenue: map<int, map<int, int>>, y: int, m: int): int {
    if y in yearMonthRevenue && m in yearMonthRevenue[y] then yearMonthRevenue[y][m] else 0
  }

  /** The monthly revenues 1..n of year `y`. */
  function MonthColumn(txns: seq<Txn>, y: int, n: nat): (col: seq<int>)
    ensures |col| == n
    ensures forall i :: 0 <= i < n ==> col[i] == MonthRevenue(txns, y, i + 1)
  {
    if n == 0 then [] else MonthColumn(txns, y, n - 1) + [MonthRevenue(txns, y, n)]
  }

  function CurrentColumn(rows: seq<MonthlyComparison>): seq<int> {
    seq(|rows|, i requires 0 <= i < |rows| => rows[i].currentYearRevenue)
  }

  function PreviousColumn(rows: seq<MonthlyComparison>): seq<int> {
    seq(|rows|, i requires 0 <= i < |rows| => rows[i].previousYearRevenue)
  }

  /**
   * `analyzeGrowth`: revenue merged into a year -> month -> revenue map, twelve comparison rows, and the
   * yearly totals as the sums of the rows; each yearly total is the revenue of that whole year.
   */
  method AnalyzeGrowth(txns: seq<Txn>, currentYear: int, comparisonYear: int) returns (r: GrowthAnalysisResponse)
    ensures r.currentYear == currentYear && r.comparisonYear == comparisonYear
    ensures |r.monthlyComparison| == 12
    ensures forall i :: 0 <= i < 12 ==> r.monthlyComparison[i] == ComparisonRow(txns, currentYear, comparisonYear, i + 1)
    ensures r.currentYearTotal == Sum(CurrentColumn(r.monthlyComparison)) == YearRevenue(txns, currentYear)
    ensures r.comparisonYearTotal == Sum(PreviousColumn(r.monthlyComparison)) == YearRevenue(txns, comparisonYear)
    ensures r.overallGrowthRate == Growth(r.currentYearTotal, r.comparisonYearTotal)
  {
    var yearMonthRevenue := MergeMonthlyRevenue(txns);
    var rows: seq<MonthlyComparison> := [];
    for month := 1 to 13
      invariant |rows| == month - 1
      invariant forall n :: 0 <= n < month - 1 ==> rows[n] == ComparisonRow(txns, currentYear, comparisonYear, n + 1)
    {
      var current := Lookup(yearMonthRevenue, currentYear, month);
      var previous := Lookup(yearMonthRevenue, comparisonYear, month);
      var growth := if previous > 0 then PercentBp(current - previous, previous) else 0;
      rows := rows + [MonthlyComparison(month, MonthName(month), current, previous, growth)];
    }
    assert CurrentColumn(rows) == MonthColumn(txns, currentYear, 12);
    assert PreviousColumn(rows) == MonthColumn(txns, comparisonYear, 12);
    YearIsTwelveMonths(txns, currentYear);
    YearIsTwelveMonths(txns, comparisonYear);
    var currentYearTotal := Sum(CurrentColumn(rows));
    var comparisonYearTotal := Sum(PreviousColumn(rows));
    var overall := if comparisonYearTotal > 0 then PercentBp(currentYearTotal - comparisonYearTotal, comparisonYearTotal) else 0;
    r := GrowthAnalysisResponse(currentYear, comparisonYear, overall, currentYearTotal, comparisonYearTotal, rows);
  }

  /** The merge loop of `analyzeGrowth`: every record's amount added under its year and month. */
  method MergeMonthlyRevenue(txns: seq<Txn>) returns (yearMonthRevenue: map<int, map<int, int>>)
    ensures forall y, m :: Lookup(yearMonthRevenue, y, m) == MonthRevenue(txns, y, m)
  {
    yearMonthRevenue := map[];
    for i := 0 to |txns|
      invariant forall y, m :: Lookup(yearMonthRevenue, y, m) == MonthRevenue(txns[..i], y, m)
    {
      assert txns[..i + 1][..i] == txns[..i];
      var date := txns[i].txnDate;
      var inner := if date.year in yearMonthRevenue then yearMonthRevenue[date.year] else map[];
      var merged := if date.month in inner then inner[date.month] + txns[i].amount else txns[i].amount;
      yearMonthRevenue := yearMonthRevenue[date.year := inner[date.month := merged]];
    }
    assert txns[..|txns|] == txns;
  }

  /** Appending a record adds its amount to the months 1..n of its year when its month is among them. */
  lemma {:induction false} ColumnStep(txns: seq<Txn>, t: Txn, y: int, n: nat)
    ensures Sum(MonthColumn(txns + [t], y, n))
         == Sum(MonthColumn(txns, y, n)) + (if t.txnDate.year == y && t.txnDate.month <= n then t.amount else 0)
  {
    var ts := txns + [t];
    assert ts[..|ts| - 1] == txns;
    if n > 0 {
      ColumnStep(txns, t, y, n - 1);
      SumConcat(MonthColumn(ts, y, n - 1), [MonthRevenue(ts, y, n)]);
      SumConcat(MonthColumn(txns, y, n - 1), [MonthRevenue(txns, y, n)]);
      assert MonthRevenue(ts, y, n)
          == MonthRevenue(txns, y, n) + (if t.txnDate.year == y && t.txnDate.month == n then t.amount else 0);
    }
  }

  /** The twelve monthly revenues of a year add up to its yearly revenue. */
  lemma {:induction false} YearIsTwelveMonths(txns: seq<Txn>, y: int)
    ensures Sum(MonthColumn(txns, y, 12)) == YearRevenue(txns, y)
  {
    if txns != [] {
      var front := txns[..|txns| - 1];
      var t := txns[|txns| - 1];
      assert front + [t] == txns;
      YearIsTwelveMonths(front, y);
      ColumnStep(front, t, y, 12);
    } else {
      EmptyColumn(y, 12);
    }
  }

  lemma {:induction false} EmptyColumn(y: int, n: nat)
    ensures Sum(MonthColumn([], y, n)) == 0
  {
    if n > 0 {
      EmptyColumn(y, n - 1);
    }
  }
}
