/** Logging a payout to a vendor (src/components/Admin/PayoutModal.tsx): the amount is checked,
    then one VendorPayout row is appended to the ledger. The store's answer to the insert (an
    error message, or none) and the id it gives the new row are parameters. */
module Payout {
  import opened Wrappers
  import opened Text
  import opened Schema
  import opened Accounting

  /** The `accounting_ledger` table. */
  class Ledger {
    var entries: seq<LedgerEntry>

    constructor(entries: seq<LedgerEntry>)
      ensures this.entries == entries
    {
      this.entries := entries;
    }
  }

  /** `!amount || parseFloat(amount) <= 0` for what a number input can hold: the empty string
      or a number. */
  predicate AmountRejected(amount: string) {
    amount == "" || (ParseFloat(amount).Some? && ParseFloat(amount).value <= 0.0)
  }

  /** An amount that starts with a non-zero digit passes the check. */
  lemma LeadingDigitAccepted(amount: string)
    requires amount != "" && '1' <= amount[0] <= '9'
    ensures !AmountRejected(amount)
  {
    ParseFloatPositive(amount);
  }

  /** The empty amount and every negative number fail the check. */
  lemma NegativeAmountRejected(amount: string)
    requires amount == "" || (amount[0] == '-' && ParseFloat(amount).Some?)
    ensures AmountRejected(amount)
  {
    if amount != "" {
      assert !IsSpace(amount[0]);
      assert TrimStart(amount) == amount;
      var r := ParseFloat(amount);
      assert r.Some? && TrimStart(amount)[0] == '-';
    }
  }

  /** The row the modal inserts: no order, this business, a vendor payout already paid. */
  function PayoutRow(id: string, businessId: string, amount: real): (e: LedgerEntry)
    ensures e.businessId == Some(businessId) && e.orderId.None?
    ensures e.transactionType == VendorPayout && e.payoutStatus == Paid && e.amount == amount
  {
    LedgerEntry(id, None, Some(businessId), VendorPayout, amount, Paid)
  }

  /** The fallback error text, shown when the store's error has no message. */
  const PayoutFailed := "Failed to log payout"

  class PayoutModal {
    const business: Business
    const ledger: Ledger
    var amount: string
    var referenceNotes: string
    var loading: bool
    var error: string
    /** Whether `onComplete` has been called. */
    var completed: bool

    constructor(business: Business, ledger: Ledger)
      ensures this.business == business && this.ledger == ledger
      ensures amount == "" && referenceNotes == "" && !loading && error == "" && !completed
    {
      this.business := business;
      this.ledger := ledger;
      amount := "";
      referenceNotes := "";
      loading := false;
      error := "";
      completed := false;
    }

    /** `handleSubmit`: nothing is checked against the business's outstanding balance. */
    method Submit(rowId: string, insertError: Option<string>)
      requires amount == "" || ParseFloat(amount).Some?
      modifies this, ledger
      ensures amount == old(amount) && referenceNotes == old(referenceNotes)
      ensures AmountRejected(amount) ==>
        && error == "Please enter a valid payout amount"
        && ledger.entries == old(ledger.entries)
        && loading == old(loading) && completed == old(completed)
      ensures !AmountRejected(amount) ==>
        && ParseFloat(amount).Some? && ParseFloat(amount).value > 0.0
        && !loading
        && (insertError.None? ==>
              && ledger.entries == old(ledger.entries) + [PayoutRow(rowId, business.id, ParseFloat(amount).value)]
              && completed && error == "")
        && (insertError.Some? ==>
              && ledger.entries == old(ledger.entries)
              && completed == old(completed) && error == MessageOr(insertError.value, PayoutFailed))
    {
      if AmountRejected(amount) {
        error := "Please enter a valid payout amount";
        return;
      }
      var value := ParseFloat(amount).value;
      loading := true;
      error := "";
      if insertError.None? {
        ledger.entries := ledger.entries + [PayoutRow(rowId, business.id, value)];
        completed := true;
      } else {
        error := MessageOr(insertError.value, PayoutFailed);
      }
      loading := false;
    }
  }

  /** A logged payout lowers the business's outstanding balance by its amount and adds one to its
      transaction count; revenue is unchanged. */
  lemma PayoutLowersOutstanding(entries: seq<LedgerEntry>, business: Business, id: string, amount: real)
    ensures var before, after := SummaryFor(entries, business), SummaryFor(entries + [PayoutRow(id, business.id, amount)], business);
      && after.totalRevenue == before.totalRevenue
      && after.totalPaidOut == before.totalPaidOut + amount
      && after.outstandingBalance == before.outstandingBalance - amount
      && after.transactionCount == before.transactionCount + 1
  {
    SummarySnoc(entries, PayoutRow(id, business.id, amount), business);
  }

  /** Because the amount is not checked against the balance, a payout larger than what is owed
      is accepted and leaves the business with a negative balance, and Log Payout disappears. */
  lemma OverpaymentLeavesNegativeBalance(entries: seq<LedgerEntry>, business: Business, id: string, amount: real)
    requires amount > SummaryFor(entries, business).outstandingBalance
    ensures SummaryFor(entries + [PayoutRow(id, business.id, amount)], business).outstandingBalance < 0.0
    ensures !LogPayoutOffered(SummaryFor(entries + [PayoutRow(id, business.id, amount)], business))
  {
    PayoutLowersOutstanding(entries, business, id, amount);
  }

  /** A payout row for one business leaves every other business's summary as it was. */
  lemma PayoutLeavesOthersAlone(entries: seq<LedgerEntry>, business: Business, other: Business, id: string, amount: real)
    requires other.id != business.id
    ensures SummaryFor(entries + [PayoutRow(id, business.id, amount)], other) == SummaryFor(entries, other)
  {
    OtherRowsIgnored(entries, [PayoutRow(id, business.id, amount)], other);
  }
}
