/**
 * The merchant service: per-merchant summaries derived from the statistics rows of the transaction
 * table, merchant display names and identifiers, the active/inactive rule, the paged merchant list and
 * the partial update of a stored merchant profile.
 */
module Merchants {
  import opened Wrappers
  import opened Calendar
  import opened Decimal
  import opened Text
  import opened PageMetadata

  // ---------------------------------------------------------------------------------------------
  // Statistics rows and summaries
  // ---------------------------------------------------------------------------------------------

  /** `MerchantStatsDTO`: one aggregated row per merchant; every column may be null. Money is in cents. */
  datatype MerchantStats = MerchantStats(
    merchantId: Option<string>,
    totalTransactions: Option<nat>,
    totalRevenue: Option<int>,
    completedCount: Option<nat>,
    failedCount: Option<nat>,
    pendingCount: Option<nat>,
    lastTransactionDate: Option<LocalDate>,
    firstTransactionDate: Option<LocalDate>)

  /** `MerchantSummary`; the success rate is in hundredths of a percent, the average in cents. */
  datatype MerchantSummary = MerchantSummary(
    merchantId: Option<string>,
    merchantName: Option<string>,
    totalTransactions: nat,
    totalRevenue: int,
    completedCount: nat,
    failedCount: nat,
    pendingCount: nat,
    successRate: int,
    lastTransactionDate: Option<LocalDate>,
    firstTransactionDate: Option<LocalDate>,
    status: string,
    averageTransactionAmount: int)

  /** The prefix of generated merchant identifiers. */
  const IdPrefix: string := "MCH-"

  /** `generateMerchantName`: "MCH-xxxxx" is shown as "Merchant xxxxx"; any other id is kept as it is. */
  function GenerateMerchantName(merchantId: Option<string>): (name: Option<string>)
    ensures merchantId.None? ==> name.None?
    ensures merchantId.Some? && StartsWith(merchantId.value, IdPrefix) ==>
              name == Some("Merchant " + merchantId.value[|IdPrefix|..])
    ensures merchantId.Some? && !StartsWith(merchantId.value, IdPrefix) ==> name == merchantId
  {
    match merchantId
    case None => None
    case Some(id) => if StartsWith(id, IdPrefix) then Some("Merchant " + id[|IdPrefix|..]) else merchantId
  }

  /** Days without a transaction after which a merchant counts as inactive. */
  const ActivityWindowDays: nat := 30

  /**
   * `determineMerchantStatus`: "active" when the last transaction is strictly after the day 30 days
   * before `today`; "inactive" otherwise, and when there was no transaction at all.
   */
  function DetermineMerchantStatus(lastTransactionDate: Option<LocalDate>, today: LocalDate): (status: string)
    ensures status == "active" || status == "inactive"
    ensures status == "active" <==>
              lastTransactionDate.Some? && DayNumber(lastTransactionDate.value) > DayNumber(today) - 30
  {
    match lastTransactionDate
    case None => "inactive"
    case Some(last) => if IsAfter(last, MinusDays(today, ActivityWindowDays)) then "active" else "inactive"
  }

  /**
   * The success rate in hundredths of a percent: completed/total rounded half-up, or 0 when there are no
   * transactions. It is 100% when every transaction completed, and within 0..100% whenever the completed
   * count does not exceed the total.
   */
  function SuccessRate(completed: nat, total: nat): (bp: int)
    ensures total == 0 ==> bp == 0
    ensures total > 0 ==> 2 * (total * bp) - total <= 2 * (completed * 10000) < 2 * (total * bp) + total
    ensures completed <= total ==> 0 <= bp <= 10000
    ensures total > 0 && completed == total ==> bp == 10000
  {
    if total > 0 then PercentBp(completed, total) else 0
  }

  /**
   * The average amount in cents: revenue/total rounded half-up to the cent when there are transactions
   * and the revenue is positive, 0 otherwise. It never exceeds the revenue.
   */
  function AverageAmount(revenue: int, total: nat): (avg: int)
    ensures total == 0 || revenue <= 0 ==> avg == 0
    ensures total > 0 && revenue > 0 ==>
              0 <= avg <= revenue && 2 * (total * avg) - total <= 2 * revenue < 2 * (total * avg) + total
  {
    if total > 0 && revenue > 0 then
      AverageAtMost(revenue, total, revenue);
      Average(revenue, total)
    else 0
  }

  /**
   * `mapDTOToMerchantSummary`: copies the row with null counts and revenue read as 0, the success rate
   * as completed/total rounded to hundredths of a percent (0 without transactions), the average as
   * revenue/total rounded half-up to cents (0 without transactions or without revenue), the display
   * name and the activity status.
   */
  function ToMerchantSummary(dto: MerchantStats, today: LocalDate): (m: MerchantSummary)
    ensures m.merchantId == dto.merchantId
    ensures m.totalTransactions == dto.totalTransactions.GetOr(0)
    ensures m.totalRevenue == dto.totalRevenue.GetOr(0)
    ensures m.completedCount == dto.completedCount.GetOr(0)
    ensures m.failedCount == dto.failedCount.GetOr(0)
    ensures m.pendingCount == dto.pendingCount.GetOr(0)
    ensures m.lastTransactionDate == dto.lastTransactionDate
    ensures m.firstTransactionDate == dto.firstTransactionDate
    ensures m.successRate == SuccessRate(m.completedCount, m.totalTransactions)
    ensures m.averageTransactionAmount == AverageAmount(m.totalRevenue, m.totalTransactions)
  {
    var total := dto.totalTransactions.GetOr(0);
    var revenue := dto.totalRevenue.GetOr(0);
    var completed := dto.completedCount.GetOr(0);
    MerchantSummary(
      dto.merchantId,
      GenerateMerchantName(dto.merchantId),
      total,
      revenue,
      completed,
      dto.failedCount.GetOr(0),
      dto.pendingCount.GetOr(0),
      SuccessRate(completed, total),
      dto.lastTransactionDate,
      dto.firstTransactionDate,
      DetermineMerchantStatus(dto.lastTransactionDate, today),
      AverageAmount(revenue, total))
  }

  /** The summary's name and status are the display name of its id and the status of its last date. */
  lemma SummaryNameAndStatus(dto: MerchantStats, today: LocalDate)
    ensures var m := ToMerchantSummary(dto, today);
      m.merchantName == GenerateMerchantName(m.merchantId) &&
      (m.status == "active" <==>
         m.lastTransactionDate.Some? && IsAfter(m.lastTransactionDate.value, MinusDays(today, 30)))
  {
  }

  // ---------------------------------------------------------------------------------------------
  // Identifiers
  // ---------------------------------------------------------------------------------------------

  /** The first number handed out: the 50 seeded merchants are MCH-00001 .. MCH-00050. */
  const FirstNewNumber: nat := 51

  /** `generateNewMerchantId`: "MCH-" and (count + 51), left-padded with zeros to five digits. */
  function GenerateNewMerchantId(count: nat): (id: string)
    ensures StartsWith(id, IdPrefix)
    ensures |id| >= |IdPrefix| + 5
    ensures forall i :: |IdPrefix| <= i < |id| ==> IsDigit(id[i])
  {
    IdPrefix + ZeroPadded(count + FirstNewNumber, 5)
  }

  /** The digits of a generated identifier read back as count + 51, so different counts give different ids. */
  lemma NewIdNumber(count: nat)
    ensures DigitsValue(GenerateNewMerchantId(count)[|IdPrefix|..]) == count + FirstNewNumber
  {
    var id := GenerateNewMerchantId(count);
    assert id[|IdPrefix|..] == ZeroPadded(count + FirstNewNumber, 5);
  }

  /** Distinct merchant counts yield distinct identifiers. */
  lemma NewIdsDistinct(c1: nat, c2: nat)
    requires c1 != c2
    ensures GenerateNewMerchantId(c1) != GenerateNewMerchantId(c2)
  {
    NewIdNumber(c1);
    NewIdNumber(c2);
  }

  /** A generated identifier is displayed as "Merchant " and its zero-padded number. */
  lemma NewIdDisplayName(count: nat)
    ensures GenerateMerchantName(Some(GenerateNewMerchantId(count))) ==
            Some("Merchant " + ZeroPadded(count + FirstNewNumber, 5))
  {
    var id := GenerateNewMerchantId(count);
    assert id[|IdPrefix|..] == ZeroPadded(count + FirstNewNumber, 5);
  }

  // ---------------------------------------------------------------------------------------------
  // Listing and lookup
  // ---------------------------------------------------------------------------------------------

  /** The two statistics queries: by a search term, or over all merchants. */
  datatype StatsQuery = SearchQuery(term: string) | AllMerchants

  /** `MerchantListResponse`. */
  datatype MerchantListResponse = MerchantListResponse(merchants: seq<MerchantSummary>, pagination: PaginationMetadata)

  /** The search path is taken only for a term that is present and not blank once trimmed. */
  function QueryFor(search: Option<string>): (q: StatsQuery)
    ensures q.SearchQuery? <==> search.Some? && exists i :: 0 <= i < |search.value| && !IsTrimmed(search.value[i])
    ensures q.SearchQuery? ==> q.term == Trim(search.value)
  {
    if search.Some? then
      TrimEmptyIffBlank(search.value);
      if Trim(search.value) != [] then SearchQuery(Trim(search.value)) else AllMerchants
    else AllMerchants
  }

  /** The non-null rows, in row order. */
  function PresentRows(rows: seq<Option<MerchantStats>>): (ds: seq<MerchantStats>)
    ensures |ds| <= |rows|
  {
    if rows == [] then []
    else
      var front := PresentRows(rows[..|rows| - 1]);
      match rows[|rows| - 1]
      case None => front
      case Some(dto) => front + [dto]
  }

  /**
   * Every kept row is a non-null row of the input, every non-null row is kept, and an input without
   * null rows is kept in full.
   */
  lemma {:induction false} PresentRowsExact(rows: seq<Option<MerchantStats>>)
    ensures forall k :: 0 <= k < |PresentRows(rows)| ==> Some(PresentRows(rows)[k]) in rows
    ensures forall j :: 0 <= j < |rows| && rows[j].Some? ==> rows[j].value in PresentRows(rows)
    ensures (forall j :: 0 <= j < |rows| ==> rows[j].Some?) ==> |PresentRows(rows)| == |rows|
  {
    if rows != [] {
      var front := rows[..|rows| - 1];
      PresentRowsExact(front);
      var ds := PresentRows(rows);
      var fs := PresentRows(front);
      assert rows == front + [rows[|rows| - 1]];
      assert fs <= ds;
      forall k | 0 <= k < |ds|
        ensures Some(ds[k]) in rows
      {
        if k < |fs| {
          assert ds[k] == fs[k];
          assert Some(fs[k]) in front;
        }
      }
      forall j | 0 <= j < |rows| && rows[j].Some?
        ensures rows[j].value in ds
      {
        if j < |front| {
          assert rows[j] == front[j];
          assert rows[j].value in fs;
        }
      }
    }
  }

  /** The summaries of the non-null rows, in row order. */
  function Summaries(rows: seq<Option<MerchantStats>>, today: LocalDate): (ms: seq<MerchantSummary>)
    ensures |ms| == |PresentRows(rows)| <= |rows|
    ensures forall k :: 0 <= k < |ms| ==> ms[k] == ToMerchantSummary(PresentRows(rows)[k], today)
  {
    var ds := PresentRows(rows);
    seq(|ds|, k requires 0 <= k < |ds| => ToMerchantSummary(ds[k], today))
  }

  /** A further row adds its summary at the end when it is non-null, and nothing when it is null. */
  lemma SummariesSnoc(rows: seq<Option<MerchantStats>>, row: Option<MerchantStats>, today: LocalDate)
    ensures Summaries(rows + [row], today) ==
            Summaries(rows, today) + (if row.Some? then [ToMerchantSummary(row.value, today)] else [])
  {
    assert (rows + [row])[..|rows|] == rows;
    var ds := PresentRows(rows);
    var ds' := PresentRows(rows + [row]);
    var a := Summaries(rows + [row], today);
    var b := Summaries(rows, today) + (if row.Some? then [ToMerchantSummary(row.value, today)] else []);
    if row.Some? {
      assert ds' == ds + [row.value];
      forall k | 0 <= k < |a|
        ensures a[k] == b[k]
      {
        if k < |ds| {
          assert ds'[k] == ds[k];
        }
      }
    } else {
      assert ds' == ds;
    }
  }

  /**
   * `listMerchants`: runs the query chosen by `search` (the rows and the row count the repository
   * returns for it are given by `rowsOf` and `countOf`), appends the summary of every non-null row and
   * describes the page with `PaginationMetadata`.
   */
  method ListMerchants(limit: int, offset: int, search: Option<string>, today: LocalDate,
                       rowsOf: (StatsQuery, int, int) -> seq<Option<MerchantStats>>,
                       countOf: StatsQuery -> int)
    returns (r: MerchantListResponse)
    requires limit >= 1 && offset >= 0
    ensures r.merchants == Summaries(rowsOf(QueryFor(search), limit, offset), today)
    ensures |r.merchants| <= |rowsOf(QueryFor(search), limit, offset)|
    ensures r.pagination == NewPaginationMetadata(countOf(QueryFor(search)), limit, offset)
  {
    var query := if search.Some? && Trim(search.value) != [] then SearchQuery(Trim(search.value)) else AllMerchants;
    assert query == QueryFor(search);
    var results := rowsOf(query, limit, offset);
    var totalCount := countOf(query);
    var merchants: seq<MerchantSummary> := [];
    var i := 0;
    while i < |results|
      invariant 0 <= i <= |results|
      invariant merchants == Summaries(results[..i], today)
    {
      assert results[..i + 1] == results[..i] + [results[i]];
      SummariesSnoc(results[..i], results[i], today);
      if results[i].Some? {
        merchants := merchants + [ToMerchantSummary(results[i].value, today)];
      }
      i := i + 1;
    }
    assert results[..|results|] == results;
    r := MerchantListResponse(merchants, NewPaginationMetadata(totalCount, limit, offset));
  }

  /** `getMerchantById`: the summary of the first statistics row, or nothing when it is missing or null. */
  function GetMerchantById(rows: seq<Option<MerchantStats>>, today: LocalDate): (m: Option<MerchantSummary>)
    ensures m.None? <==> rows == [] || rows[0].None?
    ensures m.Some? ==> m.value == ToMerchantSummary(rows[0].value, today)
  {
    if rows == [] then None
    else match rows[0]
      case None => None
      case Some(dto) => Some(ToMerchantSummary(dto, today))
  }
}
