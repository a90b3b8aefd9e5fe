/** The admin's accounting page (src/components/Admin/AccountingPage.tsx): one summary per
    approved business, built from the whole ledger, and the platform totals over the summaries.
    The fetched businesses (already restricted to Approved and ordered by name by the query) and
    the fetched ledger rows are the inputs. */
module Accounting {
  import opened Wrappers
  import opened Schema
  import opened Folds

  function EntryAmount(e: LedgerEntry): real {
    e.amount
  }

  predicate IsSaleRevenue(e: LedgerEntry) {
    e.transactionType == SaleRevenue
  }

  predicate IsVendorPayout(e: LedgerEntry) {
    e.transactionType == VendorPayout
  }

  /** `ledgerEntries.filter(entry => entry.business_id === business.id)`; an entry with no
      business matches none. */
  function EntriesOf(entries: seq<LedgerEntry>, businessId: string): seq<LedgerEntry> {
    Filter(entries, (e: LedgerEntry) => e.businessId == Some(businessId))
  }

  /** Sum of the SaleRevenue amounts among `entries`. */
  function RevenueOf(entries: seq<LedgerEntry>): real {
    Sum(Filter(entries, IsSaleRevenue), EntryAmount)
  }

  /** Sum of the VendorPayout amounts among `entries`. */
  function PayoutsOf(entries: seq<LedgerEntry>): real {
    Sum(Filter(entries, IsVendorPayout), EntryAmount)
  }

  datatype VendorSummary = VendorSummary(
    business: Business,
    totalRevenue: real,
    totalPaidOut: real,
    outstandingBalance: real,
    transactionCount: int)

  /** The summary of one business. */
  function SummaryFor(entries: seq<LedgerEntry>, business: Business): (s: VendorSummary)
    ensures s.business == business
    ensures s.outstandingBalance == s.totalRevenue - s.totalPaidOut
  {
    var own := EntriesOf(entries, business.id);
    var revenue := RevenueOf(own);
    var paidOut := PayoutsOf(own);
    VendorSummary(business, revenue, paidOut, revenue - paidOut, |own|)
  }

  /** `businesses.map(...)`: one summary per fetched business, in the fetched order. */
  function Summaries(businesses: seq<Business>, entries: seq<LedgerEntry>): (r: seq<VendorSummary>)
    ensures |r| == |businesses|
    ensures forall i :: 0 <= i < |businesses| ==> r[i] == SummaryFor(entries, businesses[i])
  {
    if businesses == [] then []
    else Summaries(businesses[..|businesses| - 1], entries) + [SummaryFor(entries, businesses[|businesses| - 1])]
  }

  /** How one more ledger row moves a business's summary: revenue only by a SaleRevenue row of
      that business, paid out only by a VendorPayout row of it, and the count by any row of it,
      whatever its type (PlatformFee, DeliveryFee and Refund included). */
  lemma SummarySnoc(entries: seq<LedgerEntry>, e: LedgerEntry, business: Business)
    ensures var before, after := SummaryFor(entries, business), SummaryFor(entries + [e], business);
      var own := e.businessId == Some(business.id);
      && after.totalRevenue == before.totalRevenue
           + (if own && e.transactionType == SaleRevenue then e.amount else 0.0)
      && after.totalPaidOut == before.totalPaidOut
           + (if own && e.transactionType == VendorPayout then e.amount else 0.0)
      && after.transactionCount == before.transactionCount + (if own then 1 else 0)
  {
    assert (entries + [e])[..|entries|] == entries;
    var own := EntriesOf(entries, business.id);
    if e.businessId == Some(business.id) {
      assert EntriesOf(entries + [e], business.id) == own + [e];
      assert (own + [e])[..|own|] == own;
    }
  }

  /** A business's figures depend only on its own rows: adding rows of other businesses (or of
      none) changes nothing. */
  lemma {:induction false} OtherRowsIgnored(entries: seq<LedgerEntry>, others: seq<LedgerEntry>, business: Business)
    requires forall i :: 0 <= i < |others| ==> others[i].businessId != Some(business.id)
    ensures SummaryFor(entries + others, business) == SummaryFor(entries, business)
    decreases |others|
  {
    if others != [] {
      var front := others[..|others| - 1];
      OtherRowsIgnored(entries, front, business);
      assert entries + others == (entries + front) + [others[|others| - 1]];
      SummarySnoc(entries + front, others[|others| - 1], business);
    } else {
      assert entries + others == entries;
    }
  }

  /** A ledger with nothing for the business gives it 0 revenue, 0 paid out, 0 outstanding. */
  lemma NoEntriesNoBalance(entries: seq<LedgerEntry>, business: Business)
    requires forall i :: 0 <= i < |entries| ==> entries[i].businessId != Some(business.id)
    ensures var s := SummaryFor(entries, business);
      s.totalRevenue == 0.0 && s.totalPaidOut == 0.0 && s.outstandingBalance == 0.0 && s.transactionCount == 0
  {
    OtherRowsIgnored([], entries, business);
    assert [] + entries == entries;
  }

  function SummaryRevenue(s: VendorSummary): real {
    s.totalRevenue
  }

  function SummaryPaidOut(s: VendorSummary): real {
    s.totalPaidOut
  }

  function SummaryOutstanding(s: VendorSummary): real {
    s.outstandingBalance
  }

  /** The platform totals shown above the table. */
  datatype PlatformTotals = PlatformTotals(revenue: real, outstanding: real, paidOut: real)

  function Totals(summaries: seq<VendorSummary>): PlatformTotals {
    PlatformTotals(Sum(summaries, SummaryRevenue), Sum(summaries, SummaryOutstanding), Sum(summaries, SummaryPaidOut))
  }

  /** Platform outstanding is platform revenue less platform paid out, when every summary's
      balance is its revenue less its paid out, as `SummaryFor` makes it. */
  lemma {:induction false} PlatformOutstanding(summaries: seq<VendorSummary>)
    requires forall i :: 0 <= i < |summaries| ==>
      summaries[i].outstandingBalance == summaries[i].totalRevenue - summaries[i].totalPaidOut
    ensures Totals(summaries).outstanding == Totals(summaries).revenue - Totals(summaries).paidOut
    decreases |summaries|
  {
    if summaries != [] {
      PlatformOutstanding(summaries[..|summaries| - 1]);
    }
  }

  /** The page's totals always balance. */
  lemma PageTotalsBalance(businesses: seq<Business>, entries: seq<LedgerEntry>)
    ensures var t := Totals(Summaries(businesses, entries));
      t.outstanding == t.revenue - t.paidOut
  {
    PlatformOutstanding(Summaries(businesses, entries));
  }

  /** The Log Payout button of a row. */
  predicate LogPayoutOffered(s: VendorSummary) {
    s.outstandingBalance > 0.0
  }

  /** Log Payout is offered exactly for businesses whose sales exceed what they were paid. */
  lemma LogPayoutWhenOwed(entries: seq<LedgerEntry>, business: Business)
    ensures var s := SummaryFor(entries, business);
      LogPayoutOffered(s) <==> s.totalRevenue > s.totalPaidOut
  {}
}
