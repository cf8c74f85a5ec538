/**
 * `AnalyticsServiceImpl`: transaction volume per period, success-rate counters, the daily average
 * trend, the hour-by-weekday heatmap and the card-type distribution, each computed from the list of
 * transactions the repository returns for the requested date range.
 */
module Analytics {
  import opened Wrappers
  import opened Text
  import opened Calendar
  import opened Decimal
  import opened Records
  import opened Grouping
  import opened Periods

  // ---- Transaction volume ----

  datatype VolumePoint = VolumePoint(period: LocalDate, transactionCount: nat, totalAmount: int, averageAmount: int)

  datatype VolumeResponse = VolumeResponse(data: seq<VolumePoint>, groupBy: string, dateRange: string)

  /** The bucket of a record under the grouping mode. */
  function PeriodKey(groupBy: string): Txn -> LocalDate {
    (t: Txn) => PeriodStart(t.txnDate, groupBy)
  }

  /** The volume figures of one bucket: its size, the sum of its amounts and their half-up mean. */
  function VolumePointOf(g: Group<LocalDate, Txn>): VolumePoint {
    var count := |g.members|;
    var total := Total(g.members, AmountOf);
    VolumePoint(g.key, count, total, if count > 0 then HalfUpDiv(total, count) else 0)
  }

  /** The volume figures of every bucket, in first-seen bucket order. */
  function VolumePoints(txns: seq<Txn>, groupBy: string): seq<VolumePoint> {
    var key := PeriodKey(groupBy);
    var gs := GroupsOf(txns, key, Keys(txns, key));
    seq(|gs|, i requires 0 <= i < |gs| => VolumePointOf(gs[i]))
  }

  function PointCounts(ps: seq<VolumePoint>): seq<int> {
    seq(|ps|, i requires 0 <= i < |ps| => ps[i].transactionCount as int)
  }

  function PointTotals(ps: seq<VolumePoint>): seq<int> {
    seq(|ps|, i requires 0 <= i < |ps| => ps[i].totalAmount)
  }

  /** `getTransactionVolume`: buckets filled in a `LinkedHashMap`, then one figure per bucket. */
  method GetTransactionVolume(txns: seq<Txn>, startDate: LocalDate, endDate: LocalDate, groupBy: string)
    returns (r: VolumeResponse)
    ensures r.data == VolumePoints(txns, groupBy)
    ensures r.groupBy == groupBy && r.dateRange == DateRange(startDate, endDate)
  {
    var groups := GroupByInsertion(txns, PeriodKey(groupBy));
    var points: seq<VolumePoint> := [];
    ghost var target := VolumePoints(txns, groupBy);
    assert |target| == |groups| && forall n :: 0 <= n < |groups| ==> target[n] == VolumePointOf(groups[n]);
    for i := 0 to |groups|
      invariant |points| == i
      invariant forall n :: 0 <= n < i ==> points[n] == target[n]
    {
      points := points + [VolumePointOf(groups[i])];
    }
    assert points == target;
    r := VolumeResponse(points, groupBy, DateRange(startDate, endDate));
  }

  /**
   * The buckets partition the records: one bucket per distinct period in first-seen order, each
   * non-empty, the counts adding up to the number of records and the totals to the sum of all
   * amounts; each average is the total over the count rounded half-up to the cent.
   */
  lemma VolumePartition(txns: seq<Txn>, groupBy: string)
    ensures var ps := VolumePoints(txns, groupBy);
      var keys := Keys(txns, PeriodKey(groupBy));
      |ps| == |keys|
      && Distinct(keys)
      && (forall i :: 0 <= i < |ps| ==> ps[i].period == keys[i] && ps[i].transactionCount > 0)
      && Sum(PointCounts(ps)) == |txns|
      && Sum(PointTotals(ps)) == Total(txns, AmountOf)
      && (forall i :: 0 <= i < |ps| ==>
            var p := ps[i];
            2 * (p.transactionCount * p.averageAmount) - p.transactionCount <= 2 * p.totalAmount
            < 2 * (p.transactionCount * p.averageAmount) + p.transactionCount)
  {
    var key := PeriodKey(groupBy);
    var keys := Keys(txns, key);
    var ps := VolumePoints(txns, groupBy);
    KeysDistinct(txns, key);
    KeysCover(txns, key);
    forall i | 0 <= i < |ps|
      ensures ps[i].period == keys[i] && ps[i].transactionCount > 0
      ensures var p := ps[i];
        2 * (p.transactionCount * p.averageAmount) - p.transactionCount <= 2 * p.totalAmount
        < 2 * (p.transactionCount * p.averageAmount) + p.transactionCount
    {
      var g := Group(keys[i], Members(txns, key, keys[i]));
      assert ps[i] == VolumePointOf(g);
      VolumePointRounding(g);
    }
    VolumeSums(txns, groupBy);
  }

  /** A bucket's average is its total over its count, rounded half-up. */
  lemma VolumePointRounding(g: Group<LocalDate, Txn>)
    requires |g.members| > 0
    ensures var p := VolumePointOf(g);
      p.period == g.key && p.transactionCount == |g.members|
      && 2 * (p.transactionCount * p.averageAmount) - p.transactionCount <= 2 * p.totalAmount
         < 2 * (p.transactionCount * p.averageAmount) + p.transactionCount
  {
    TotalNonNegative(g.members, AmountOf);
  }

  /** The bucket counts add up to the number of records, the bucket totals to the sum of all amounts. */
  lemma VolumeSums(txns: seq<Txn>, groupBy: string)
    ensures Sum(PointCounts(VolumePoints(txns, groupBy))) == |txns|
    ensures Sum(PointTotals(VolumePoints(txns, groupBy))) == Total(txns, AmountOf)
  {
    var key := PeriodKey(groupBy);
    var keys := Keys(txns, key);
    var ps := VolumePoints(txns, groupBy);
    KeysDistinct(txns, key);
    KeysCover(txns, key);
    forall i | 0 <= i < |ps|
      ensures PointCounts(ps)[i] == GroupTotals(txns, key, keys, One)[i]
    {
      TotalOfOnes(Members(txns, key, keys[i]), One);
    }
    assert PointCounts(ps) == GroupTotals(txns, key, keys, One);
    assert PointTotals(ps) == GroupTotals(txns, key, keys, AmountOf);
    PartitionTotals(txns, key, keys, One);
    PartitionTotals(txns, key, keys, AmountOf);
    TotalOfOnes(txns, One);
  }

  // ---- Success rate ----

  datatype SuccessRateResponse = SuccessRateResponse(
    totalTransactions: nat,
    completedCount: nat,
    pendingCount: nat,
    failedCount: nat,
    reversedCount: nat,
    successRate: int,
    statusBreakdown: map<string, nat>)

  /** The number of records whose status, lower-cased, is `name`. */
  function CountStatus(txns: seq<Txn>, name: string): nat {
    if txns == [] then 0
    else CountStatus(txns[..|txns| - 1], name) + (if Lower(txns[|txns| - 1].status) == name then 1 else 0)
  }

  /** `getSuccessRate`: one pass that tallies the raw statuses and the four named outcomes. */
  method GetSuccessRate(txns: seq<Txn>) returns (r: SuccessRateResponse)
    ensures r.totalTransactions == |txns|
    ensures r.completedCount == CountStatus(txns, "completed")
    ensures r.pendingCount == CountStatus(txns, "pending")
    ensures r.failedCount == CountStatus(txns, "failed")
    ensures r.reversedCount == CountStatus(txns, "reversed")
    ensures forall s :: s in r.statusBreakdown <==> s in Keys(txns, StatusOf)
    ensures forall s :: s in r.statusBreakdown ==> r.statusBreakdown[s] == |Members(txns, StatusOf, s)|
    ensures r.successRate == if |txns| > 0 then PercentBp(r.completedCount, |txns|) else 0
    ensures 0 <= r.successRate <= 10000
  {
    var breakdown: map<string, nat> := map[];
    var completed, pending, failed, reversed := 0, 0, 0, 0;
    for i := 0 to |txns|
      invariant completed == CountStatus(txns[..i], "completed")
      invariant pending == CountStatus(txns[..i], "pending")
      invariant failed == CountStatus(txns[..i], "failed")
      invariant reversed == CountStatus(txns[..i], "reversed")
      invariant forall s :: s in breakdown <==> s in Keys(txns[..i], StatusOf)
      invariant forall s :: s in breakdown ==> breakdown[s] == |Members(txns[..i], StatusOf, s)|
    {
      assert txns[..i + 1][..i] == txns[..i];
      var status := txns[i].status;
      if status in breakdown {
        breakdown := breakdown[status := breakdown[status] + 1];
      } else {
        AbsentKeyHasNoMembers(txns[..i], StatusOf, status);
        breakdown := breakdown[status := 1];
      }
      var lower := Lower(status);
      if lower == "completed" {
        completed := completed + 1;
      } else if lower == "pending" {
        pending := pending + 1;
      } else if lower == "failed" {
        failed := failed + 1;
      } else if lower == "reversed" {
        reversed := reversed + 1;
      }
    }
    assert txns[..|txns|] == txns;
    NamedCountsBounded(txns);
    var rate := if |txns| > 0 then PercentBp(completed, |txns|) else 0;
    r := SuccessRateResponse(|txns|, completed, pending, failed, reversed, rate, breakdown);
  }

  /**
   * A record counts towards at most one of the four named outcomes, so together they never exceed
   * the number of records.
   */
  lemma {:induction false} NamedCountsBounded(txns: seq<Txn>)
    ensures CountStatus(txns, "completed") + CountStatus(txns, "pending")
          + CountStatus(txns, "failed") + CountStatus(txns, "reversed") <= |txns|
  {
    if txns != [] {
      NamedCountsBounded(txns[..|txns| - 1]);
    }
  }

  /** The counts of the status breakdown, read in first-seen order, add up to the number of records. */
  lemma BreakdownSumsToTotal(txns: seq<Txn>, breakdown: map<string, nat>)
    requires forall s :: s in breakdown <==> s in Keys(txns, StatusOf)
    requires forall s :: s in breakdown ==> breakdown[s] == |Members(txns, StatusOf, s)|
    ensures var ks := Keys(txns, StatusOf);
      Sum(seq(|ks|, i requires 0 <= i < |ks| => breakdown[ks[i]] as int)) == |txns|
  {
    var ks := Keys(txns, StatusOf);
    var counts := seq(|ks|, i requires 0 <= i < |ks| => breakdown[ks[i]] as int);
    forall i | 0 <= i < |ks|
      ensures counts[i] == GroupTotals(txns, StatusOf, ks, One)[i]
    {
      TotalOfOnes(Members(txns, StatusOf, ks[i]), One);
    }
    assert counts == GroupTotals(txns, StatusOf, ks, One);
    KeysDistinct(txns, StatusOf);
    KeysCover(txns, StatusOf);
    PartitionTotals(txns, StatusOf, ks, One);
    TotalOfOnes(txns, One);
  }

  /**
   * The named counters ignore case while the breakdown does not: `"COMPLETED"` and `"completed"` are
   * two breakdown keys but both count as completed.
   */
  lemma CaseInsensitiveCounters()
    ensures var txns := [
        Txn("MCH-00001", 100, "COMPLETED", "VISA", Date(2024, 1, 1), None),
        Txn("MCH-00001", 200, "completed", "VISA", Date(2024, 1, 1), None)];
      CountStatus(txns, "completed") == 2 && |Keys(txns, StatusOf)| == 2
  {
    var txns := [
        Txn("MCH-00001", 100, "COMPLETED", "VISA", Date(2024, 1, 1), None),
        Txn("MCH-00001", 200, "completed", "VISA", Date(2024, 1, 1), None)];
    assert txns[..1] == [txns[0]];
    assert Lower("COMPLETED") == "completed";
  }

  // ---- Trends ----

  datatype TrendPoint = TrendPoint(
    period: LocalDate, averageAmount: int, transactionCount: nat, changePercentage: Option<int>)

  datatype TrendsResponse = TrendsResponse(
    trends: seq<TrendPoint>, trendDirection: Option<string>, overallChangePercentage: Option<int>)

  /** `BigDecimal.divide` by zero throws an `ArithmeticException`. */
  datatype ArithmeticError = DivisionByZero

  /** The half-up average amount of one day's records. */
  function DayAverage(members: seq<Txn>): (avg: int)
    ensures avg >= 0
  {
    TotalNonNegative(members, AmountOf);
    if members == [] then 0 else HalfUpDiv(Total(members, AmountOf), |members|)
  }

  function DailyGroups(txns: seq<Txn>): (gs: seq<Group<LocalDate, Txn>>)
    ensures |gs| == |Keys(txns, DayOf)|
  {
    GroupsOf(txns, DayOf, Keys(txns, DayOf))
  }

  /** The average amount of each day, in first-seen day order. */
  function DailyAverages(txns: seq<Txn>): (avgs: seq<int>)
    ensures |avgs| == |DailyGroups(txns)|
    ensures forall i :: 0 <= i < |avgs| ==> avgs[i] == DayAverage(DailyGroups(txns)[i].members) && avgs[i] >= 0
  {
    var gs := DailyGroups(txns);
    seq(|gs|, i requires 0 <= i < |gs| => DayAverage(gs[i].members))
  }

  /**
   * The change from the previous average as a percentage of it: present exactly when there is a
   * previous average and it is positive, and of the sign of the move.
   */
  function Change(previous: Option<int>, avg: int): (c: Option<int>)
    ensures c.Some? <==> previous.Some? && previous.value > 0
    ensures c.Some? && avg >= previous.value ==> c.value >= 0
    ensures c.Some? && avg <= previous.value ==> c.value <= 0
  {
    if previous.Some? && previous.value > 0 then Some(PercentBp(avg - previous.value, previous.value))
    else None
  }

  /**
   * The trend points of a list of daily groups, each with the change from the average of the group
   * before it.
   */
  function PointsFrom(gs: seq<Group<LocalDate, Txn>>): (ps: seq<TrendPoint>)
    ensures |ps| == |gs|
    ensures forall i :: 0 <= i < |gs| ==>
      ps[i].period == gs[i].key && ps[i].averageAmount == DayAverage(gs[i].members)
      && ps[i].transactionCount == |gs[i].members|
  {
    if gs == [] then []
    else
      var n := |gs| - 1;
      var avg := DayAverage(gs[n].members);
      var previous := if n == 0 then None else Some(DayAverage(gs[n - 1].members));
      PointsFrom(gs[..n]) + [TrendPoint(gs[n].key, avg, |gs[n].members|, Change(previous, avg))]
  }

  /** The trend points, one per day in first-seen order. */
  function TrendPoints(txns: seq<Txn>): seq<TrendPoint> {
    PointsFrom(DailyGroups(txns))
  }

  /** The points of a prefix of the days are the prefix of the points. */
  lemma {:induction false} PointsFromPrefix(gs: seq<Group<LocalDate, Txn>>, k: int)
    requires 0 <= k <= |gs|
    ensures PointsFrom(gs[..k]) == PointsFrom(gs)[..k]
  {
    if k < |gs| {
      var n := |gs| - 1;
      assert gs[..n][..k] == gs[..k];
      PointsFromPrefix(gs[..n], k);
    } else {
      assert gs[..k] == gs;
    }
  }

  /** The change of point `i` compares its average with that of the point before it. */
  lemma PointChange(gs: seq<Group<LocalDate, Txn>>, i: int)
    requires 0 <= i < |gs|
    ensures PointsFrom(gs)[i].changePercentage
         == Change(if i == 0 then None else Some(DayAverage(gs[i - 1].members)), DayAverage(gs[i].members))
  {
    PointsFromPrefix(gs, i + 1);
    PointsFromStep(gs, i);
    assert PointsFrom(gs)[i] == PointsFrom(gs[..i + 1])[i];
  }

  /** The overall direction from the first to the last daily average. */
  function Direction(first: int, last: int): string {
    if last > first then "up" else if last < first then "down" else "stable"
  }

  /**
   * `getTransactionTrends`: the daily points built in a loop carrying the previous average, then the
   * overall direction from the first and last averages. The "up" branch divides by the first average,
   * so a first day averaging zero followed by any higher day raises the division-by-zero error.
   */
  method GetTransactionTrends(txns: seq<Txn>) returns (r: Result<TrendsResponse, ArithmeticError>)
    ensures var avgs := DailyAverages(txns);
      var n := |avgs|;
      r.Failure? <==> n >= 2 && avgs[0] == 0 && avgs[n - 1] > 0
    ensures r.Success? ==> r.value.trends == TrendPoints(txns)
    ensures r.Success? && |DailyAverages(txns)| < 2 ==>
      r.value.trendDirection == None && r.value.overallChangePercentage == None
    ensures var avgs := DailyAverages(txns);
      var n := |avgs|;
      r.Success? && n >= 2 ==>
        r.value.trendDirection == Some(Direction(avgs[0], avgs[n - 1]))
        && r.value.overallChangePercentage
           == Some(if avgs[n - 1] == avgs[0] then 0 else PercentBp(avgs[n - 1] - avgs[0], avgs[0]))
  {
    var trends := DailyTrendPoints(txns);
    ghost var avgs := DailyAverages(txns);
    var n := |trends|;
    if n > 1 {
      var first := trends[0].averageAmount;
      var last := trends[n - 1].averageAmount;
      assert first == avgs[0] && last == avgs[n - 1];
      if last > first {
        if first == 0 {
          return Failure(DivisionByZero);
        }
        r := Success(TrendsResponse(trends, Some("up"), Some(PercentBp(last - first, first))));
      } else if last < first {
        r := Success(TrendsResponse(trends, Some("down"), Some(PercentBp(last - first, first))));
      } else {
        r := Success(TrendsResponse(trends, Some("stable"), Some(0)));
      }
    } else {
      r := Success(TrendsResponse(trends, None, None));
    }
  }

  /**
   * Point `i` carries a change exactly when it is not the first and the previous day's average is
   * positive; the change is then non-negative on a rise and non-positive on a fall.
   */
  lemma TrendPointChange(txns: seq<Txn>, i: int)
    requires 0 <= i < |TrendPoints(txns)|
    ensures var p := TrendPoints(txns)[i];
      var avgs := DailyAverages(txns);
      (p.changePercentage.Some? <==> i > 0 && avgs[i - 1] > 0)
      && (p.changePercentage.Some? && avgs[i] >= avgs[i - 1] ==> p.changePercentage.value >= 0)
      && (p.changePercentage.Some? && avgs[i] <= avgs[i - 1] ==> p.changePercentage.value <= 0)
  {
    PointChange(DailyGroups(txns), i);
  }

  /** The loop of `getTransactionTrends` over the daily groups, carrying the previous average. */
  method DailyTrendPoints(txns: seq<Txn>) returns (trends: seq<TrendPoint>)
    ensures trends == TrendPoints(txns)
  {
    var groups := GroupByInsertion(txns, DayOf);
    assert groups == DailyGroups(txns);
    trends := [];
    var previous: Option<int> := None;
    for i := 0 to |groups|
      invariant trends == PointsFrom(groups[..i])
      invariant previous == if i == 0 then None else Some(DayAverage(groups[i - 1].members))
    {
      var avg := DayAverage(groups[i].members);
      var point := TrendPoint(groups[i].key, avg, |groups[i].members|, Change(previous, avg));
      PointsFromStep(groups, i);
      trends := trends + [point];
      previous := Some(avg);
    }
    assert groups[..|groups|] == groups;
  }

  /** Extending the prefix by one day appends that day's point, compared with the day before. */
  lemma PointsFromStep(gs: seq<Group<LocalDate, Txn>>, i: int)
    requires 0 <= i < |gs|
    ensures PointsFrom(gs[..i + 1]) == PointsFrom(gs[..i]) + [TrendPoint(gs[i].key, DayAverage(gs[i].members),
      |gs[i].members|, Change(if i == 0 then None else Some(DayAverage(gs[i - 1].members)), DayAverage(gs[i].members)))]
  {
    assert gs[..i + 1][..i] == gs[..i];
  }

  // ---- Peak times ----

  /** A heatmap key: UTC hour and weekday, Sunday = 0. */
  datatype Slot = Slot(hour: int, dayOfWeek: int)

  datatype HeatmapCell = HeatmapCell(hour: int, dayOfWeek: int, transactionCount: nat)

  datatype PeakTimesResponse = PeakTimesResponse(
    heatmapData: seq<HeatmapCell>,
    busiestHour: Option<int>,
    busiestDay: Option<int>,
    peakTransactionCount: Option<nat>)

  /** The heatmap slot of an instant, read in UTC. */
  function SlotOf(epochSeconds: int): (s: Slot)
    ensures 0 <= s.hour <= 23 && 0 <= s.dayOfWeek <= 6
    ensures s.dayOfWeek == UtcIsoWeekday(epochSeconds) % 7
  {
    Slot(UtcHour(epochSeconds), UtcIsoWeekday(epochSeconds) % 7)
  }

  /** The timestamps of the records that have one, in record order. */
  function Timestamps(txns: seq<Txn>): (ts: seq<int>)
    ensures |ts| <= |txns|
    ensures forall x :: x in ts <==> exists i :: 0 <= i < |txns| && txns[i].timestamp == Some(x)
  {
    if txns == [] then []
    else
      var front := Timestamps(txns[..|txns| - 1]);
      var t := txns[|txns| - 1];
      if t.timestamp.Some? then front + [t.timestamp.value] else front
  }

  function CountInstant(epochSeconds: int): int { 1 }

  /** The heatmap cells, listed in the map's iteration order `order`. */
  function Heatmap(txns: seq<Txn>, order: seq<Slot>): (cells: seq<HeatmapCell>)
    ensures |cells| == |order|
    ensures forall i :: 0 <= i < |order| ==>
      cells[i] == HeatmapCell(order[i].hour, order[i].dayOfWeek, |Members(Timestamps(txns), SlotOf, order[i])|)
  {
    var ts := Timestamps(txns);
    seq(|order|, i requires 0 <= i < |order| =>
      HeatmapCell(order[i].hour, order[i].dayOfWeek, |Members(ts, SlotOf, order[i])|))
  }

  /** `stream().max(comparing(count))`: the first cell of largest count. */
  function PeakIndex(cells: seq<HeatmapCell>): (k: nat)
    requires |cells| > 0
    ensures k < |cells|
    ensures forall i :: 0 <= i < |cells| ==> cells[i].transactionCount <= cells[k].transactionCount
    ensures forall i :: 0 <= i < k ==> cells[i].transactionCount < cells[k].transactionCount
  {
    if |cells| == 1 then 0
    else
      var k := PeakIndex(cells[..|cells| - 1]);
      if cells[|cells| - 1].transactionCount > cells[k].transactionCount then |cells| - 1 else k
  }

  /**
   * `getPeakTimes`: the timestamped records tallied per slot in a `HashMap`, listed in its iteration
   * order `order`, and the first cell of largest count reported as the peak.
   */
  method GetPeakTimes(txns: seq<Txn>, order: seq<Slot>) returns (r: PeakTimesResponse)
    requires IsKeyOrder(order, Timestamps(txns), SlotOf)
    ensures r.heatmapData == Heatmap(txns, order)
    ensures order == [] ==> r.busiestHour == None && r.busiestDay == None && r.peakTransactionCount == None
    ensures order != [] ==>
      var peak := r.heatmapData[PeakIndex(r.heatmapData)];
      r.busiestHour == Some(peak.hour) && r.busiestDay == Some(peak.dayOfWeek)
      && r.peakTransactionCount == Some(peak.transactionCount)
  {
    var counts := TallySlots(txns);
    ghost var heatmap := Heatmap(txns, order);
    var cells: seq<HeatmapCell> := [];
    for j := 0 to |order|
      invariant |cells| == j
      invariant forall n :: 0 <= n < j ==> cells[n] == heatmap[n]
    {
      assert order[j] in Keys(Timestamps(txns), SlotOf);
      cells := cells + [HeatmapCell(order[j].hour, order[j].dayOfWeek, counts[order[j]])];
    }
    assert cells == heatmap;
    if cells == [] {
      r := PeakTimesResponse(cells, None, None, None);
    } else {
      var peak := cells[PeakIndex(cells)];
      r := PeakTimesResponse(cells, Some(peak.hour), Some(peak.dayOfWeek), Some(peak.transactionCount));
    }
  }

  /** The slot counters of `getPeakTimes`: one per slot of a timestamped record, counting its records. */
  method TallySlots(txns: seq<Txn>) returns (counts: map<Slot, nat>)
    ensures Tallies(counts, Timestamps(txns), SlotOf)
  {
    counts := map[];
    for i := 0 to |txns|
      invariant Tallies(counts, Timestamps(txns[..i]), SlotOf)
    {
      ghost var ts := Timestamps(txns[..i]);
      TimestampsStep(txns, i);
      if txns[i].timestamp.Some? {
        var instant := txns[i].timestamp.value;
        var slot := SlotOf(instant);
        TalliesSnoc(counts, ts, instant, SlotOf);
        if slot in counts {
          counts := counts[slot := counts[slot] + 1];
        } else {
          counts := counts[slot := 1];
        }
      }
    }
    assert txns[..|txns|] == txns;
  }

  /** One more record adds its timestamp, if it has one. */
  lemma TimestampsStep(txns: seq<Txn>, i: int)
    requires 0 <= i < |txns|
    ensures txns[i].timestamp.Some? ==> Timestamps(txns[..i + 1]) == Timestamps(txns[..i]) + [txns[i].timestamp.value]
    ensures txns[i].timestamp.None? ==> Timestamps(txns[..i + 1]) == Timestamps(txns[..i])
  {
    assert txns[..i + 1][..i] == txns[..i];
  }

  /**
   * The cells cover exactly the timestamped records: every cell lies in the 24 x 7 grid and is
   * non-empty, and the counts add up to the number of timestamped records.
   */
  lemma HeatmapPartition(txns: seq<Txn>, order: seq<Slot>)
    requires IsKeyOrder(order, Timestamps(txns), SlotOf)
    ensures var cells := Heatmap(txns, order);
      (forall i :: 0 <= i < |cells| ==> 0 <= cells[i].hour <= 23 && 0 <= cells[i].dayOfWeek <= 6
                                         && cells[i].transactionCount > 0)
      && Sum(CellCounts(cells)) == |Timestamps(txns)|
  {
    var ts := Timestamps(txns);
    var cells := Heatmap(txns, order);
    KeyOrderGroupsNonEmpty(ts, SlotOf, order);
    forall i | 0 <= i < |cells|
      ensures 0 <= cells[i].hour <= 23 && 0 <= cells[i].dayOfWeek <= 6
      ensures CellCounts(cells)[i] == GroupTotals(ts, SlotOf, order, CountInstant)[i]
    {
      var m := Members(ts, SlotOf, order[i]);
      MembersHaveKey(ts, SlotOf, order[i]);
      assert SlotOf(m[0]) == order[i];
      TotalOfOnes(m, CountInstant);
    }
    assert CellCounts(cells) == GroupTotals(ts, SlotOf, order, CountInstant);
    GroupingTotals(ts, SlotOf, order, CountInstant);
    TotalOfOnes(ts, CountInstant);
  }

  function CellCounts(cells: seq<HeatmapCell>): seq<int> {
    seq(|cells|, i requires 0 <= i < |cells| => cells[i].transactionCount as int)
  }

  // ---- Card distribution ----

  datatype CardTypeData = CardTypeData(cardType: string, count: nat, totalAmount: int, percentage: int)

  datatype CardDistributionResponse = CardDistributionResponse(distribution: seq<CardTypeData>, totalTransactions: nat)

  /** The figures of one card type: its count and amount, and its share of all records. */
  function CardRow(txns: seq<Txn>, cardType: string): CardTypeData {
    var members := Members(txns, CardTypeOf, cardType);
    CardTypeData(cardType, |members|, Total(members, AmountOf),
      if |txns| > 0 then PercentBp(|members|, |txns|) else 0)
  }

  /**
   * `getCardDistribution`: per-card-type counters updated in place in a `HashMap`, its values listed in
   * the map's iteration order `order`, then each share set as a percentage of all records.
   */
  method GetCardDistribution(txns: seq<Txn>, order: seq<string>) returns (r: CardDistributionResponse)
    requires IsKeyOrder(order, txns, CardTypeOf)
    ensures r.totalTransactions == |txns|
    ensures |r.distribution| == |order|
    ensures forall i :: 0 <= i < |order| ==> r.distribution[i] == CardRow(txns, order[i])
  {
    var cardTypeMap, totalTransactions := TallyCards(txns);
    var distribution: seq<CardTypeData> := [];
    for j := 0 to |order|
      invariant |distribution| == j
      invariant forall n :: 0 <= n < j ==> distribution[n] == CardRow(txns, order[n]).(percentage := 0)
    {
      distribution := distribution + [cardTypeMap[order[j]]];
    }
    for j := 0 to |distribution|
      invariant |distribution| == |order|
      invariant forall n :: 0 <= n < j ==> distribution[n] == CardRow(txns, order[n])
      invariant forall n :: j <= n < |order| ==> distribution[n] == CardRow(txns, order[n]).(percentage := 0)
    {
      var data := distribution[j];
      var percentage := if totalTransactions > 0 then PercentBp(data.count, totalTransactions) else 0;
      distribution := distribution[j := data.(percentage := percentage)];
    }
    r := CardDistributionResponse(distribution, totalTransactions);
  }

  /** The per-card-type counters of `getCardDistribution`, each with its count and amount so far. */
  method TallyCards(txns: seq<Txn>) returns (cardTypeMap: map<string, CardTypeData>, totalTransactions: nat)
    ensures totalTransactions == |txns|
    ensures forall c :: c in cardTypeMap <==> c in Keys(txns, CardTypeOf)
    ensures forall c :: c in cardTypeMap ==> cardTypeMap[c] == CardRow(txns, c).(percentage := 0)
  {
    cardTypeMap := map[];
    totalTransactions := 0;
    for i := 0 to |txns|
      invariant totalTransactions == i
      invariant forall c :: c in cardTypeMap <==> c in Keys(txns[..i], CardTypeOf)
      invariant forall c :: c in cardTypeMap ==>
        var members := Members(txns[..i], CardTypeOf, c);
        cardTypeMap[c] == CardTypeData(c, |members|, Total(members, AmountOf), 0)
    {
      assert txns[..i + 1] == txns[..i] + [txns[i]];
      GroupingSnoc(txns[..i], txns[i], CardTypeOf);
      var cardType := txns[i].cardType;
      var data: CardTypeData;
      if cardType in cardTypeMap {
        data := cardTypeMap[cardType];
      } else {
        AbsentKeyHasNoMembers(txns[..i], CardTypeOf, cardType);
        data := CardTypeData(cardType, 0, 0, 0);
      }
      ghost var members := Members(txns[..i], CardTypeOf, cardType);
      assert (members + [txns[i]])[..|members|] == members;
      data := data.(count := data.count + 1, totalAmount := data.totalAmount + txns[i].amount);
      cardTypeMap := cardTypeMap[cardType := data];
      totalTransactions := totalTransactions + 1;
    }
    assert txns[..|txns|] == txns;
  }

  /**
   * The card types partition the records: the counts add up to the number of records, the amounts
   * to the sum of all amounts, and every share lies between 0 and 100 percent.
   */
  lemma CardDistributionPartition(txns: seq<Txn>, order: seq<string>)
    requires IsKeyOrder(order, txns, CardTypeOf)
    ensures var rows := seq(|order|, i requires 0 <= i < |order| => CardRow(txns, order[i]));
      Sum(seq(|rows|, i requires 0 <= i < |rows| => rows[i].count as int)) == |txns|
      && Sum(seq(|rows|, i requires 0 <= i < |rows| => rows[i].totalAmount)) == Total(txns, AmountOf)
      && (forall i :: 0 <= i < |rows| ==> 0 <= rows[i].percentage <= 10000)
  {
    var rows := seq(|order|, i requires 0 <= i < |order| => CardRow(txns, order[i]));
    var counts := seq(|rows|, i requires 0 <= i < |rows| => rows[i].count as int);
    var totals := seq(|rows|, i requires 0 <= i < |rows| => rows[i].totalAmount);
    forall i | 0 <= i < |rows|
      ensures counts[i] == GroupTotals(txns, CardTypeOf, order, One)[i]
      ensures rows[i].count <= |txns|
    {
      TotalOfOnes(Members(txns, CardTypeOf, order[i]), One);
      MembersAtMost(txns, CardTypeOf, order[i]);
    }
    assert counts == GroupTotals(txns, CardTypeOf, order, One);
    assert totals == GroupTotals(txns, CardTypeOf, order, AmountOf);
    GroupingTotals(txns, CardTypeOf, order, One);
    GroupingTotals(txns, CardTypeOf, order, AmountOf);
    TotalOfOnes(txns, One);
  }
}
