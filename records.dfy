/**
 * The transaction record every service fetches (`TransactionMaster`), reduced to the fields the
 * services read, and the named field accessors they group and sum by.
 */
module Records {
  import opened Wrappers
  import opened Calendar

  /**
   * One row of the transaction table: merchant id, amount in cents (never negative), status and card
   * type as stored, the business date, and the optional instant of the local transaction time as
   * epoch seconds.
   */
  datatype Txn = Txn(
    merchantId: string,
    amount: nat,
    status: string,
    cardType: string,
    txnDate: LocalDate,
    timestamp: Option<int>)

  /** `startDate + " to " + endDate`, the date range echoed back in responses. */
  function DateRange(startDate: LocalDate, endDate: LocalDate): string {
    DateText(startDate) + " to " + DateText(endDate)
  }

  function AmountOf(t: Txn): int { t.amount }

  /** The weight of a record when counting records. */
  function One(t: Txn): int { 1 }

  function DayOf(t: Txn): LocalDate { t.txnDate }

  function MerchantOf(t: Txn): string { t.merchantId }

  function StatusOf(t: Txn): string { t.status }

  function CardTypeOf(t: Txn): string { t.cardType }
}
