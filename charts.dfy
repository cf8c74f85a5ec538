/**
 * `ChartDataServiceImpl`: the same groupings of the records reshaped into chart data, a list of labels
 * and one or more datasets, for line, bar, pie and drill-down charts. Colours and border styles are not
 * modelled.
 */
module Charts {
  import opened Text
  import opened Calendar
  import opened Decimal
  import opened Records
  import opened Grouping
  import opened Sorting
  import Analytics

  datatype Dataset = Dataset(name: string, data: seq<int>)

  datatype ChartData = ChartData(labels: seq<string>, datasets: seq<Dataset>, chartType: string)

  // ---- Columns of a grouping ----

  /** The size of every group. */
  function Counts<K>(gs: seq<Group<K, Txn>>): (r: seq<int>)
    ensures |r| == |gs|
    ensures forall i :: 0 <= i < |gs| ==> r[i] == |gs[i].members|
  {
    seq(|gs|, i requires 0 <= i < |gs| => |gs[i].members|)
  }

  /** The summed amount of every group. */
  function Revenues<K>(gs: seq<Group<K, Txn>>): (r: seq<int>)
    ensures |r| == |gs|
    ensures forall i :: 0 <= i < |gs| ==> r[i] == Total(gs[i].members, AmountOf)
  {
    seq(|gs|, i requires 0 <= i < |gs| => Total(gs[i].members, AmountOf))
  }

  /** The keys of date groups rendered as `LocalDate.toString()`. */
  function DateLabels(gs: seq<Group<LocalDate, Txn>>): (r: seq<string>)
    ensures |r| == |gs|
    ensures forall i :: 0 <= i < |gs| ==> r[i] == DateText(gs[i].key)
  {
    seq(|gs|, i requires 0 <= i < |gs| => DateText(gs[i].key))
  }

  /** The keys of string groups. */
  function KeyLabels(gs: seq<Group<string, Txn>>): (r: seq<string>)
    ensures |r| == |gs|
    ensures forall i :: 0 <= i < |gs| ==> r[i] == gs[i].key
  {
    seq(|gs|, i requires 0 <= i < |gs| => gs[i].key)
  }

  /** The groups of any map order partition the records: the counts and the revenues add up. */
  lemma GroupsPartition<K>(xs: seq<Txn>, key: Txn -> K, order: seq<K>)
    requires IsKeyOrder(order, xs, key)
    ensures Sum(Counts(GroupsOf(xs, key, order))) == |xs|
    ensures Sum(Revenues(GroupsOf(xs, key, order))) == Total(xs, AmountOf)
  {
    CountsColumn(xs, key, order);
    RevenuesColumn(xs, key, order);
    GroupingTotals(xs, key, order, One);
    GroupingTotals(xs, key, order, AmountOf);
    TotalOfOnes(xs, One);
  }

  /** The count column of a grouping is its column of per-key totals of ones. */
  lemma CountsColumn<K>(xs: seq<Txn>, key: Txn -> K, order: seq<K>)
    ensures Counts(GroupsOf(xs, key, order)) == GroupTotals(xs, key, order, One)
  {
    var gs := GroupsOf(xs, key, order);
    forall i | 0 <= i < |gs|
      ensures Counts(gs)[i] == GroupTotals(xs, key, order, One)[i]
    {
      TotalOfOnes(gs[i].members, One);
    }
  }

  /** The revenue column of a grouping is its column of per-key amount totals. */
  lemma RevenuesColumn<K>(xs: seq<Txn>, key: Txn -> K, order: seq<K>)
    ensures Revenues(GroupsOf(xs, key, order)) == GroupTotals(xs, key, order, AmountOf)
  {
    var gs := GroupsOf(xs, key, order);
    assert forall i :: 0 <= i < |gs| ==> Revenues(gs)[i] == GroupTotals(xs, key, order, AmountOf)[i];
  }

  /** A map order of the grouping is empty exactly when there are no records. */
  lemma EmptyOrder<K>(xs: seq<Txn>, key: Txn -> K, order: seq<K>)
    requires IsKeyOrder(order, xs, key)
    ensures order == [] <==> xs == []
  {
    KeysCover(xs, key);
    if xs != [] {
      assert key(xs[0]) in Keys(xs, key);
      var j :| 0 <= j < |Keys(xs, key)| && Keys(xs, key)[j] == key(xs[0]);
      assert Keys(xs, key)[j] in order;
    }
    if order != [] {
      assert order[0] in Keys(xs, key);
    }
  }

  // ---- Line chart ----

  /** The value plotted for one bucket: its size, its half-up mean or its revenue, by metric. */
  function LineValue(members: seq<Txn>, metric: string): int {
    var m := Lower(metric);
    if m == "volume" || m == "count" then |members|
    else if m == "avgamount" || m == "average" then
      (if members == [] then 0 else HalfUpDiv(Total(members, AmountOf), |members|))
    else Total(members, AmountOf)
  }

  function LineLabel(metric: string): string {
    var m := Lower(metric);
    if m == "volume" || m == "count" then "Transaction Volume"
    else if m == "avgamount" || m == "average" then "Average Transaction Amount"
    else "Revenue"
  }

  function LineSeries(gs: seq<Group<LocalDate, Txn>>, metric: string): (r: seq<int>)
    ensures |r| == |gs|
    ensures forall i :: 0 <= i < |gs| ==> r[i] == LineValue(gs[i].members, metric)
  {
    seq(|gs|, i requires 0 <= i < |gs| => LineValue(gs[i].members, metric))
  }

  /** The line chart of the records bucketed by `groupBy`, in first-seen bucket order. */
  function LineChart(txns: seq<Txn>, metric: string, groupBy: string): ChartData {
    var key := Analytics.PeriodKey(groupBy);
    var gs := GroupsOf(txns, key, Keys(txns, key));
    ChartData(DateLabels(gs), [Dataset(LineLabel(metric), LineSeries(gs, metric))], "line")
  }

  /** `getLineChartData`. */
  method GetLineChartData(txns: seq<Txn>, metric: string, groupBy: string) returns (r: ChartData)
    ensures r == LineChart(txns, metric, groupBy)
  {
    var grouped := GroupByInsertion(txns, Analytics.PeriodKey(groupBy));
    var labels := seq(|grouped|, i requires 0 <= i < |grouped| => DateText(grouped[i].key));
    var data := seq(|grouped|, i requires 0 <= i < |grouped| => LineValue(grouped[i].members, metric));
    r := ChartData(labels, [Dataset(LineLabel(metric), data)], "line");
  }

  /**
   * The line chart has one label per distinct bucket (first-seen order) and a single dataset of the same
   * length; by metric (case-insensitive) the data are the bucket sizes, which add up to the number of
   * records, the half-up mean amounts, or the revenues, which add up to the revenue of all records.
   */
  lemma LineChartShape(txns: seq<Txn>, metric: string, groupBy: string)
    ensures var c := LineChart(txns, metric, groupBy);
      var keys := Keys(txns, Analytics.PeriodKey(groupBy));
      var m := Lower(metric);
      c.chartType == "line" && |c.datasets| == 1
      && |c.labels| == |keys| == |c.datasets[0].data|
      && Distinct(keys)
      && (forall i :: 0 <= i < |keys| ==> c.labels[i] == DateText(keys[i]))
      && ((m == "volume" || m == "count") ==>
            c.datasets[0].name == "Transaction Volume" && Sum(c.datasets[0].data) == |txns|)
      && ((m == "avgamount" || m == "average") ==>
            c.datasets[0].name == "Average Transaction Amount"
            && forall i :: 0 <= i < |keys| ==>
                 var members := Members(txns, Analytics.PeriodKey(groupBy), keys[i]);
                 |members| > 0 && c.datasets[0].data[i] == HalfUpDiv(Total(members, AmountOf), |members|))
      && (!(m == "volume" || m == "count" || m == "avgamount" || m == "average") ==>
            c.datasets[0].name == "Revenue" && Sum(c.datasets[0].data) == Total(txns, AmountOf))
  {
    var key := Analytics.PeriodKey(groupBy);
    var keys := Keys(txns, key);
    var gs := GroupsOf(txns, key, keys);
    var m := Lower(metric);
    KeysAreKeyOrder(txns, key);
    KeysCover(txns, key);
    GroupsPartition(txns, key, keys);
    if m == "volume" || m == "count" {
      assert LineSeries(gs, metric) == Counts(gs);
    } else if !(m == "avgamount" || m == "average") {
      assert LineSeries(gs, metric) == Revenues(gs);
    }
  }

  // ---- Bar chart ----

  predicate IsCardMode(mode: string) {
    Lower(mode) == "cardtype" || Lower(mode) == "card"
  }

  /** The key a bar chart groups by: card type, status, or (by default) merchant. */
  function BarKey(compareBy: string): Txn -> string {
    if IsCardMode(compareBy) then CardTypeOf
    else if Lower(compareBy) == "status" then StatusOf
    else MerchantOf
  }

  function GroupRevenue(g: Group<string, Txn>): int {
    Total(g.members, AmountOf)
  }

  /** The merchant groups sorted by revenue, largest first, cut to the first `n`. */
  function TopGroups(txns: seq<Txn>, order: seq<string>, n: nat): seq<Group<string, Txn>> {
    Take(SortDesc(GroupsOf(txns, MerchantOf, order), GroupRevenue), n)
  }

  /** The groups a bar chart shows: every card type or status, or the ten merchants with most revenue. */
  function BarGroups(txns: seq<Txn>, compareBy: string, order: seq<string>): seq<Group<string, Txn>> {
    if IsCardMode(compareBy) || Lower(compareBy) == "status" then GroupsOf(txns, BarKey(compareBy), order)
    else TopGroups(txns, order, 10)
  }

  /** The revenue dataset only when it has data, then the count dataset. */
  function BarDatasets(revenueData: seq<int>, countData: seq<int>): seq<Dataset> {
    (if revenueData != [] then [Dataset("Revenue", revenueData)] else []) + [Dataset("Transaction Count", countData)]
  }

  function BarChart(txns: seq<Txn>, compareBy: string, order: seq<string>): ChartData {
    var gs := BarGroups(txns, compareBy, order);
    var revenueData := if Lower(compareBy) == "status" then [] else Revenues(gs);
    ChartData(KeyLabels(gs), BarDatasets(revenueData, Counts(gs)), "bar")
  }

  /** `getBarChartData`; `order` is the iteration order of the `groupingBy` map of the chosen key. */
  method GetBarChartData(txns: seq<Txn>, compareBy: string, order: seq<string>) returns (r: ChartData)
    requires IsKeyOrder(order, txns, BarKey(compareBy))
    ensures r == BarChart(txns, compareBy, order)
  {
    var groups := BarGroups(txns, compareBy, order);
    var labels := KeyLabels(groups);
    var countData := Counts(groups);
    var revenueData := if Lower(compareBy) == "status" then [] else Revenues(groups);
    var datasets: seq<Dataset> := [];
    if revenueData != [] {
      datasets := datasets + [Dataset("Revenue", revenueData)];
    }
    datasets := datasets + [Dataset("Transaction Count", countData)];
    assert datasets == BarDatasets(revenueData, countData);
    r := ChartData(labels, datasets, "bar");
  }

  /**
   * By status: one label per status in map order and only the count dataset, whose counts add up to
   * the number of records.
   */
  lemma BarChartByStatus(txns: seq<Txn>, compareBy: string, order: seq<string>)
    requires Lower(compareBy) == "status"
    requires IsKeyOrder(order, txns, StatusOf)
    ensures var c := BarChart(txns, compareBy, order);
      c.chartType == "bar" && c.labels == order
      && |c.datasets| == 1 && c.datasets[0].name == "Transaction Count"
      && |c.datasets[0].data| == |order| && Sum(c.datasets[0].data) == |txns|
  {
    GroupsPartition(txns, StatusOf, order);
    assert KeyLabels(GroupsOf(txns, StatusOf, order)) == order;
  }

  /**
   * By card type: one label per card type in map order; the revenue dataset is there exactly when there
   * are records, and the revenues and counts add up to those of all the records.
   */
  lemma BarChartByCard(txns: seq<Txn>, compareBy: string, order: seq<string>)
    requires IsCardMode(compareBy)
    requires IsKeyOrder(order, txns, CardTypeOf)
    ensures var c := BarChart(txns, compareBy, order);
      var counts := c.datasets[|c.datasets| - 1];
      c.chartType == "bar" && c.labels == order
      && (|c.datasets| == 2 <==> txns != []) && (|c.datasets| == 1 <==> txns == [])
      && counts.name == "Transaction Count" && |counts.data| == |order| && Sum(counts.data) == |txns|
      && (txns != [] ==> c.datasets[0].name == "Revenue" && Sum(c.datasets[0].data) == Total(txns, AmountOf))
  {
    GroupsPartition(txns, CardTypeOf, order);
    EmptyOrder(txns, CardTypeOf, order);
    assert KeyLabels(GroupsOf(txns, CardTypeOf, order)) == order;
  }

  /**
   * The merchant groups sorted by revenue: each the complete group of a merchant of `order`, no
   * merchant twice, every merchant present.
   */
  lemma SortedGroups(txns: seq<Txn>, order: seq<string>)
    requires Distinct(order)
    ensures var sorted := SortDesc(GroupsOf(txns, MerchantOf, order), GroupRevenue);
      |sorted| == |order|
      && (forall i :: 0 <= i < |sorted| ==>
            sorted[i].key in order && sorted[i].members == Members(txns, MerchantOf, sorted[i].key))
      && (forall i, j :: 0 <= i < j < |sorted| ==> sorted[i].key != sorted[j].key)
      && (forall k :: 0 <= k < |order| ==> exists p :: 0 <= p < |sorted| && sorted[p].key == order[k])
  {
    var gs := GroupsOf(txns, MerchantOf, order);
    var sorted := SortDesc(gs, GroupRevenue);
    assert |sorted| == |multiset(sorted)| == |multiset(gs)| == |gs|;
    forall i | 0 <= i < |sorted|
      ensures sorted[i].key in order && sorted[i].members == Members(txns, MerchantOf, sorted[i].key)
    {
      assert sorted[i] in multiset(gs);
    }
    assert Distinct(gs);
    DistinctPermutation(gs, sorted);
    forall k | 0 <= k < |order|
      ensures exists p :: 0 <= p < |sorted| && sorted[p].key == order[k]
    {
      assert gs[k] in multiset(sorted);
      var p :| 0 <= p < |sorted| && sorted[p] == gs[k];
    }
  }

  /**
   * The top list holds `min(n, #merchants)` complete merchant groups, no merchant twice, with revenue
   * non-increasing down the list.
   */
  lemma TopGroupsProperties(txns: seq<Txn>, order: seq<string>, n: nat)
    requires IsKeyOrder(order, txns, MerchantOf)
    ensures var top := TopGroups(txns, order, n);
      |top| == (if |order| < n then |order| else n)
      && (forall i :: 0 <= i < |top| ==>
            top[i].key in order && top[i].members == Members(txns, MerchantOf, top[i].key))
      && (forall i, j :: 0 <= i < j < |top| ==>
            GroupRevenue(top[i]) >= GroupRevenue(top[j]) && top[i].key != top[j].key)
  {
    var sorted := SortDesc(GroupsOf(txns, MerchantOf, order), GroupRevenue);
    SortedGroups(txns, order);
    TopOfSorted(sorted, GroupRevenue, n);
    assert TopGroups(txns, order, n) <= sorted;
  }

  /** No merchant left out of the top list earned more than a merchant kept. */
  lemma TopGroupsOmitted(txns: seq<Txn>, order: seq<string>, n: nat, m: string, i: int)
    requires IsKeyOrder(order, txns, MerchantOf)
    requires m in order
    requires forall j :: 0 <= j < |TopGroups(txns, order, n)| ==> TopGroups(txns, order, n)[j].key != m
    requires 0 <= i < |TopGroups(txns, order, n)|
    ensures Total(Members(txns, MerchantOf, m), AmountOf) <= GroupRevenue(TopGroups(txns, order, n)[i])
  {
    var sorted := SortDesc(GroupsOf(txns, MerchantOf, order), GroupRevenue);
    var top := TopGroups(txns, order, n);
    SortedGroups(txns, order);
    TopOfSorted(sorted, GroupRevenue, n);
    assert top <= sorted;
    var k :| 0 <= k < |order| && order[k] == m;
    var p :| 0 <= p < |sorted| && sorted[p].key == order[k];
    assert top[i] == sorted[i];
  }

  /**
   * By merchant (any other mode): the at most ten merchants with most revenue, largest first, with the
   * revenue and count of each merchant at the index of its label; the revenue dataset is there exactly
   * when there are records.
   */
  lemma BarChartByMerchant(txns: seq<Txn>, compareBy: string, order: seq<string>)
    requires !IsCardMode(compareBy) && Lower(compareBy) != "status"
    requires IsKeyOrder(order, txns, MerchantOf)
    ensures var c := BarChart(txns, compareBy, order);
      var counts := c.datasets[|c.datasets| - 1];
      c.chartType == "bar" && |c.labels| == (if |order| < 10 then |order| else 10)
      && (|c.datasets| == 2 <==> txns != []) && (|c.datasets| == 1 <==> txns == [])
      && counts.name == "Transaction Count" && |counts.data| == |c.labels|
      && (forall i :: 0 <= i < |c.labels| ==>
            c.labels[i] in order && counts.data[i] == |Members(txns, MerchantOf, c.labels[i])|)
      && (txns != [] ==>
            c.datasets[0].name == "Revenue" && |c.datasets[0].data| == |c.labels|
            && (forall i :: 0 <= i < |c.labels| ==>
                  c.datasets[0].data[i] == Total(Members(txns, MerchantOf, c.labels[i]), AmountOf))
            && (forall i, j :: 0 <= i < j < |c.labels| ==> c.datasets[0].data[i] >= c.datasets[0].data[j]))
  {
    TopGroupsProperties(txns, order, 10);
    EmptyOrder(txns, MerchantOf, order);
  }

  // ---- Pie chart ----

  predicate IsMerchantPie(distributeBy: string) {
    !IsCardMode(distributeBy) && Lower(distributeBy) == "merchant"
  }

  /** The key a pie chart groups by: card type, merchant, or (by default) status. */
  function PieKey(distributeBy: string): Txn -> string {
    if IsCardMode(distributeBy) then CardTypeOf
    else if Lower(distributeBy) == "merchant" then MerchantOf
    else StatusOf
  }

  function PieChart(txns: seq<Txn>, distributeBy: string, order: seq<string>): ChartData {
    if IsMerchantPie(distributeBy) then
      var top := TopGroups(txns, order, 5);
      ChartData(KeyLabels(top), [Dataset("Distribution", Revenues(top))], "pie")
    else
      var gs := GroupsOf(txns, PieKey(distributeBy), order);
      ChartData(KeyLabels(gs), [Dataset("Distribution", Counts(gs))], "pie")
  }

  /** `getPieChartData`; `order` is the iteration order of the `groupingBy` map of the chosen key. */
  method GetPieChartData(txns: seq<Txn>, distributeBy: string, order: seq<string>) returns (r: ChartData)
    requires IsKeyOrder(order, txns, PieKey(distributeBy))
    ensures r == PieChart(txns, distributeBy, order)
  {
    var labels: seq<string>;
    var data: seq<int>;
    if IsCardMode(distributeBy) {
      var byCard := GroupsOf(txns, CardTypeOf, order);
      labels, data := KeyLabels(byCard), Counts(byCard);
    } else if Lower(distributeBy) == "merchant" {
      var sorted := TopGroups(txns, order, 5);
      labels, data := KeyLabels(sorted), Revenues(sorted);
    } else {
      var byStatus := GroupsOf(txns, StatusOf, order);
      labels, data := KeyLabels(byStatus), Counts(byStatus);
    }
    r := ChartData(labels, [Dataset("Distribution", data)], "pie");
  }

  /**
   * A pie chart has one "Distribution" dataset aligned with its labels. By merchant it shows at most
   * five merchants by revenue, largest first; otherwise it counts the records of every card type or
   * status, and the counts add up to the number of records.
   */
  lemma PieChartShape(txns: seq<Txn>, distributeBy: string, order: seq<string>)
    requires IsKeyOrder(order, txns, PieKey(distributeBy))
    ensures var c := PieChart(txns, distributeBy, order);
      var data := c.datasets[0].data;
      c.chartType == "pie" && |c.datasets| == 1 && c.datasets[0].name == "Distribution"
      && |data| == |c.labels|
      && (IsMerchantPie(distributeBy) ==>
            |c.labels| == (if |order| < 5 then |order| else 5)
            && (forall i :: 0 <= i < |data| ==> data[i] == Total(Members(txns, MerchantOf, c.labels[i]), AmountOf))
            && (forall i, j :: 0 <= i < j < |data| ==> data[i] >= data[j]))
      && (!IsMerchantPie(distributeBy) ==> c.labels == order && Sum(data) == |txns|)
  {
    if IsMerchantPie(distributeBy) {
      TopGroupsProperties(txns, order, 5);
    } else {
      var key := PieKey(distributeBy);
      assert KeyLabels(GroupsOf(txns, key, order)) == order;
      GroupsPartition(txns, key, order);
    }
  }

  // ---- Drill-down ----

  /**
   * The records of a drill-down: for "merchant" (any case) the records the merchant query returned;
   * for "cardtype" or "status" (any case) the records of the range whose card type or status equals
   * `categoryValue` exactly; for any other category every record of the range.
   */
  function DrillDownRecords(category: string, categoryValue: string, rangeTxns: seq<Txn>, merchantTxns: seq<Txn>): seq<Txn> {
    if EqualsIgnoreCase("merchant", category) then merchantTxns
    else if EqualsIgnoreCase("cardtype", category) then Members(rangeTxns, CardTypeOf, categoryValue)
    else if EqualsIgnoreCase("status", category) then Members(rangeTxns, StatusOf, categoryValue)
    else rangeTxns
  }

  /** The daily revenue and count lines of the drill-down records. */
  function DrillDownChart(records: seq<Txn>): ChartData {
    var gs := GroupsOf(records, DayOf, Keys(records, DayOf));
    ChartData(DateLabels(gs), [Dataset("Revenue", Revenues(gs)), Dataset("Count", Counts(gs))], "line")
  }

  /** `getDrillDownData`: `rangeTxns` is the date-range fetch, `merchantTxns` the merchant fetch. */
  method GetDrillDownData(category: string, categoryValue: string, rangeTxns: seq<Txn>, merchantTxns: seq<Txn>)
    returns (r: ChartData)
    ensures r == DrillDownChart(DrillDownRecords(category, categoryValue, rangeTxns, merchantTxns))
  {
    var transactions := DrillDownRecords(category, categoryValue, rangeTxns, merchantTxns);
    var dailyGroups := GroupByInsertion(transactions, DayOf);
    var labels := DateLabels(dailyGroups);
    var revenueData := Revenues(dailyGroups);
    var countData := Counts(dailyGroups);
    r := ChartData(labels, [Dataset("Revenue", revenueData), Dataset("Count", countData)], "line");
  }

  /**
   * The filter of the drill-down: a card-type or status drill-down keeps exactly the records whose field
   * equals the value (case-sensitively), in their order; an unknown category keeps every record.
   */
  lemma DrillDownFilter(category: string, categoryValue: string, rangeTxns: seq<Txn>, merchantTxns: seq<Txn>)
    ensures var records := DrillDownRecords(category, categoryValue, rangeTxns, merchantTxns);
      (EqualsIgnoreCase("merchant", category) ==> records == merchantTxns)
      && (!EqualsIgnoreCase("merchant", category) && EqualsIgnoreCase("cardtype", category) ==>
            (forall i :: 0 <= i < |records| ==> records[i].cardType == categoryValue)
            && (forall i :: 0 <= i < |rangeTxns| && rangeTxns[i].cardType == categoryValue ==> rangeTxns[i] in records)
            && |records| <= |rangeTxns|)
      && ((!EqualsIgnoreCase("merchant", category) && !EqualsIgnoreCase("cardtype", category)
           && EqualsIgnoreCase("status", category)) ==>
            (forall i :: 0 <= i < |records| ==> records[i].status == categoryValue)
            && (forall i :: 0 <= i < |rangeTxns| && rangeTxns[i].status == categoryValue ==> rangeTxns[i] in records)
            && |records| <= |rangeTxns|)
      && ((!EqualsIgnoreCase("merchant", category) && !EqualsIgnoreCase("cardtype", category)
           && !EqualsIgnoreCase("status", category)) ==> records == rangeTxns)
  {
    MembersHaveKey(rangeTxns, CardTypeOf, categoryValue);
    MembersComplete(rangeTxns, CardTypeOf, categoryValue);
    MembersAtMost(rangeTxns, CardTypeOf, categoryValue);
    MembersHaveKey(rangeTxns, StatusOf, categoryValue);
    MembersComplete(rangeTxns, StatusOf, categoryValue);
    MembersAtMost(rangeTxns, StatusOf, categoryValue);
  }

  /**
   * The drill-down chart: one label per distinct day in first-seen order, a "Revenue" and a "Count"
   * dataset of that length, the counts adding up to the number of records and the revenues to their
   * revenue.
   */
  lemma DrillDownShape(records: seq<Txn>)
    ensures var c := DrillDownChart(records);
      var days := Keys(records, DayOf);
      c.chartType == "line" && |c.labels| == |days|
      && (forall i :: 0 <= i < |days| ==> c.labels[i] == DateText(days[i]))
      && |c.datasets| == 2 && c.datasets[0].name == "Revenue" && c.datasets[1].name == "Count"
      && |c.datasets[0].data| == |days| && |c.datasets[1].data| == |days|
      && Sum(c.datasets[1].data) == |records| && Sum(c.datasets[0].data) == Total(records, AmountOf)
  {
    KeysAreKeyOrder(records, DayOf);
    GroupsPartition(records, DayOf, Keys(records, DayOf));
  }
}
