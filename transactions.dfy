/** The transaction history of one business (src/components/Admin/BusinessTransactionsModal.tsx):
    the business's ledger rows, newest first, three totals over them and a label and sign per row. */
module Transactions {
  import opened Wrappers
  import opened Schema
  import opened Folds
  import opened Accounting

  datatype ModalTotals = ModalTotals(totalRevenue: real, totalPayouts: real, outstandingBalance: real)

  function TotalsOf(transactions: seq<LedgerEntry>): (t: ModalTotals)
    ensures t.outstandingBalance == t.totalRevenue - t.totalPayouts
  {
    var revenue := RevenueOf(transactions);
    var payouts := PayoutsOf(transactions);
    ModalTotals(revenue, payouts, revenue - payouts)
  }

  /** The modal's rows are the business's ledger rows in another order (newest first), so its
      figures agree with the business's summary on the accounting page. */
  lemma ModalAgreesWithSummary(transactions: seq<LedgerEntry>, entries: seq<LedgerEntry>, business: Business)
    requires multiset(transactions) == multiset(EntriesOf(entries, business.id))
    ensures var t, s := TotalsOf(transactions), SummaryFor(entries, business);
      && t.totalRevenue == s.totalRevenue
      && t.totalPayouts == s.totalPaidOut
      && t.outstandingBalance == s.outstandingBalance
  {
    var own := EntriesOf(entries, business.id);
    FilterPermutation(transactions, own, IsSaleRevenue);
    SumPermutation(Filter(transactions, IsSaleRevenue), Filter(own, IsSaleRevenue), EntryAmount);
    FilterPermutation(transactions, own, IsVendorPayout);
    SumPermutation(Filter(transactions, IsVendorPayout), Filter(own, IsVendorPayout), EntryAmount);
  }

  /** How a row is shown: its badge, its description and its signed amount. */
  datatype RowDisplay = RowDisplay(badge: string, description: string, sign: char)

  function Display(t: LedgerEntry, customerName: Option<string>): (d: RowDisplay)
    ensures d.badge == "Revenue" <==> t.transactionType == SaleRevenue
    ensures d.badge == "Revenue" || d.badge == "Payout"
    ensures d.sign == (if t.transactionType == SaleRevenue then '+' else '-')
  {
    if t.transactionType == SaleRevenue then
      RowDisplay("Revenue", "Order from " + (match customerName case Some(n) => if n == "" then "Customer" else n case None => "Customer"), '+')
    else
      RowDisplay("Payout", "Manual payout by admin", '-')
  }

  /** Every row that is not sale revenue is shown as a payout with a minus sign, but only
      VendorPayout rows count towards the payout total: a PlatformFee, DeliveryFee or Refund row
      is shown as a payout and counted nowhere. */
  lemma ShownPayoutsVersusCounted(transactions: seq<LedgerEntry>, name: Option<string>)
    ensures forall t :: t in transactions && t.transactionType in {PlatformFee, DeliveryFee, Refund} ==>
      Display(t, name).badge == "Payout" && Display(t, name).sign == '-'
      && t !in Filter(transactions, IsVendorPayout) && t !in Filter(transactions, IsSaleRevenue)
  {}

  /** A row counts towards the revenue total exactly when it is shown as revenue. */
  lemma RevenueRowsAreCounted(transactions: seq<LedgerEntry>, t: LedgerEntry, name: Option<string>)
    requires t in transactions
    ensures t in Filter(transactions, IsSaleRevenue) <==> Display(t, name).badge == "Revenue"
  {}
}
