/** The admin dashboard (src/components/Admin/AdminDashboard.tsx): the business lists stored
    after a fetch, the platform statistics, the search and status filter over the businesses,
    the stat cards, and the outcome of approving or rejecting a business. The replies of the
    backend queries are the inputs; the dashboard only stores what it computes from them. */
module AdminDashboard {
  import opened Wrappers
  import opened Text
  import opened Schema
  import opened Folds

  /** The owner's profile columns the business query joins in. */
  datatype OwnerProfile = OwnerProfile(fullName: Option<string>, email: Option<string>)

  /** One fetched business row with its joined owner profile (absent when the join finds none). */
  datatype BusinessRow = BusinessRow(business: Business, profile: Option<OwnerProfile>)

  predicate IsPending(b: BusinessRow) {
    b.business.approvalStatus == ApprovalStatus.Pending
  }

  predicate IsApproved(b: BusinessRow) {
    b.business.approvalStatus == Approved
  }

  predicate IsRejected(b: BusinessRow) {
    b.business.approvalStatus == Rejected
  }

  /** The two lists the dashboard keeps. */
  datatype BusinessLists = BusinessLists(all: seq<BusinessRow>, pending: seq<BusinessRow>)

  /** What the business fetch stores: on an error both lists are emptied, otherwise all rows
      (in the order the query returned them) and the pending ones among them. */
  function ListsAfterFetch(reply: Result<seq<BusinessRow>, string>): (r: BusinessLists)
    ensures reply.Failure? ==> r.all == [] && r.pending == []
    ensures reply.Success? ==> r.all == reply.value
    ensures forall b :: b in r.pending <==> b in r.all && b.business.approvalStatus == ApprovalStatus.Pending
  {
    if reply.Failure? then BusinessLists([], [])
    else BusinessLists(reply.value, Filter(reply.value, IsPending))
  }

  /** Every fetched business is counted by exactly one of the pending, approved and rejected
      figures. */
  lemma {:induction false} StatusesPartition(rows: seq<BusinessRow>)
    ensures |Filter(rows, IsPending)| + |Filter(rows, IsApproved)| + |Filter(rows, IsRejected)| == |rows|
    decreases |rows|
  {
    if rows != [] {
      StatusesPartition(rows[..|rows| - 1]);
    }
  }

  /** The outcome of one of the settled statistics queries. */
  datatype Settled<T> = Fulfilled(value: T) | QueryRejected

  /** The reply of the orders query: the exact count and the `order_total_amount` column. */
  datatype OrdersReply = OrdersReply(count: Option<int>, amounts: Option<seq<Option<real>>>)

  datatype PlatformStats = PlatformStats(totalUsers: int, totalOrders: int, totalRevenue: real, activeDrivers: int)

  /** `Number(order.order_total_amount || 0)`: a missing amount counts as 0. */
  function AmountOrZero(a: Option<real>): real {
    if a.Some? then a.value else 0.0
  }

  /** A count that is null, or a query that was rejected, leaves the figure at 0. */
  function CountOrZero(reply: Settled<Option<int>>): (n: int)
    ensures reply.Fulfilled? && reply.value.Some? ==> n == reply.value.value
    ensures reply.QueryRejected? || reply.value.None? ==> n == 0
  {
    if reply.Fulfilled? && reply.value.Some? then reply.value.value else 0
  }

  /** The statistics stored after the three settled queries. */
  function StatsAfterFetch(users: Settled<Option<int>>, orders: Settled<OrdersReply>,
                           drivers: Settled<Option<int>>): (s: PlatformStats)
    ensures s.totalUsers == CountOrZero(users) && s.activeDrivers == CountOrZero(drivers)
    ensures orders.QueryRejected? ==> s.totalOrders == 0 && s.totalRevenue == 0.0
    ensures orders.Fulfilled? ==> s.totalOrders == CountOrZero(Fulfilled(orders.value.count))
    ensures orders.Fulfilled? && orders.value.amounts.Some? ==>
      s.totalRevenue == Sum(orders.value.amounts.value, AmountOrZero)
    ensures orders.Fulfilled? && orders.value.amounts.None? ==> s.totalRevenue == 0.0
  {
    var totalOrders := if orders.Fulfilled? && orders.value.count.Some? then orders.value.count.value else 0;
    var totalRevenue := if orders.Fulfilled? && orders.value.amounts.Some?
      then Sum(orders.value.amounts.value, AmountOrZero) else 0.0;
    PlatformStats(CountOrZero(users), totalOrders, totalRevenue, CountOrZero(drivers))
  }

  /** An order whose amount is missing changes the total revenue by nothing, wherever it sits. */
  lemma MissingAmountAddsNothing(before: seq<Option<real>>, after: seq<Option<real>>)
    ensures Sum(before + [None] + after, AmountOrZero) == Sum(before + after, AmountOrZero)
  {
    SumConcat(before + [None], after, AmountOrZero);
    SumConcat(before, after, AmountOrZero);
    assert (before + [None])[..|before|] == before;
  }

  /** The revenue of orders that all carry an amount is the sum of those amounts. */
  lemma {:induction false} PresentAmountsSummed(amounts: seq<real>)
    ensures Sum(seq(|amounts|, i requires 0 <= i < |amounts| => Some(amounts[i])), AmountOrZero)
         == Sum(amounts, (a: real) => a)
    decreases |amounts|
  {
    if amounts != [] {
      var front := amounts[..|amounts| - 1];
      PresentAmountsSummed(front);
      var wrapped := seq(|amounts|, i requires 0 <= i < |amounts| => Some(amounts[i]));
      assert wrapped[..|wrapped| - 1] == seq(|front|, i requires 0 <= i < |front| => Some(front[i]));
    }
  }

  /** The status filter's choices. */
  datatype StatusFilter = AllStatuses | PendingOnly | ApprovedOnly | RejectedOnly

  /** The value the filter select holds. */
  function FilterValue(f: StatusFilter): string {
    match f
    case AllStatuses => "all"
    case PendingOnly => "pending"
    case ApprovedOnly => "approved"
    case RejectedOnly => "rejected"
  }

  /** `statusFilter === 'all' || (business.approval_status || '').toLowerCase() === statusFilter` */
  predicate MatchesStatus(b: BusinessRow, f: StatusFilter) {
    f == AllStatuses || ToLower(ApprovalName(b.business.approvalStatus)) == FilterValue(f)
  }

  /** `x || ''` on a joined column. */
  function OrEmpty(s: Option<string>): string {
    if s.Some? then s.value else ""
  }

  function OwnerName(b: BusinessRow): string {
    if b.profile.Some? then OrEmpty(b.profile.value.fullName) else ""
  }

  function OwnerEmail(b: BusinessRow): string {
    if b.profile.Some? then OrEmpty(b.profile.value.email) else ""
  }

  /** The search matches the business name, the owner's name or the owner's email. */
  predicate MatchesBusinessSearch(b: BusinessRow, term: string) {
    || MatchesSearch(b.business.businessName, term)
    || MatchesSearch(OwnerName(b), term)
    || MatchesSearch(OwnerEmail(b), term)
  }

  predicate Shown(b: BusinessRow, term: string, f: StatusFilter) {
    MatchesBusinessSearch(b, term) && MatchesStatus(b, f)
  }

  /** `filteredBusinesses`, over the debounced search term. */
  function FilteredBusinesses(all: seq<BusinessRow>, term: string, f: StatusFilter): (r: seq<BusinessRow>)
    ensures forall b :: b in r <==> b in all && MatchesBusinessSearch(b, term) && MatchesStatus(b, f)
  {
    Filter(all, (b: BusinessRow) => Shown(b, term, f))
  }

  /** Shown businesses keep the order in which they were fetched. */
  lemma ShownInFetchedOrder(all: seq<BusinessRow>, term: string, f: StatusFilter, i: int, j: int)
    requires 0 <= i < j < |all| && Shown(all[i], term, f) && Shown(all[j], term, f)
    ensures exists a, b ::
      && 0 <= a < b < |FilteredBusinesses(all, term, f)|
      && FilteredBusinesses(all, term, f)[a] == all[i]
      && FilteredBusinesses(all, term, f)[b] == all[j]
  {
    var qa, qb := FilterKeepsOrder(all, (b: BusinessRow) => Shown(b, term, f), i, j);
    assert FilteredBusinesses(all, term, f) == Filter(all, (b: BusinessRow) => Shown(b, term, f));
  }

  lemma LowerPending()
    ensures ToLower("Pending") == "pending"
  {}

  lemma LowerApproved()
    ensures ToLower("Approved") == "approved"
  {}

  lemma LowerRejected()
    ensures ToLower("Rejected") == "rejected"
  {}

  /** The status a filter other than 'all' selects. */
  function FilterStatus(f: StatusFilter): ApprovalStatus
    requires f != AllStatuses
  {
    match f
    case PendingOnly => ApprovalStatus.Pending
    case ApprovedOnly => Approved
    case RejectedOnly => Rejected
  }

  /** The lower-cased stored status equals the filter value exactly when the business has the
      status the filter names, so each of the three filters selects one status. */
  lemma StatusFilterSelectsItsStatus(b: BusinessRow, f: StatusFilter)
    requires f != AllStatuses
    ensures MatchesStatus(b, f) <==> b.business.approvalStatus == FilterStatus(f)
  {
    LowerPending();
    LowerApproved();
    LowerRejected();
    assert "pending" != "approved" && "pending" != "rejected" && "approved" != "rejected" by {
      assert "pending"[0] == 'p' && "approved"[0] == 'a' && "rejected"[0] == 'r';
    }
  }

  /** With an empty search and the 'all' filter every fetched business is listed, in order. */
  lemma EverythingShownByDefault(all: seq<BusinessRow>)
    ensures FilteredBusinesses(all, "", AllStatuses) == all
  {
    forall b | b in all ensures Shown(b, "", AllStatuses) {
      EmptySearchMatches(b.business.businessName);
    }
    FilterAll(all, (b: BusinessRow) => Shown(b, "", AllStatuses));
  }

  /** The 'pending' filter with an empty search lists the same businesses as the pending list. */
  lemma PendingFilterIsPendingList(all: seq<BusinessRow>)
    ensures forall b :: b in FilteredBusinesses(all, "", PendingOnly) <==> b in ListsAfterFetch(Success(all)).pending
  {
    forall b | b in all
      ensures Shown(b, "", PendingOnly) <==> b.business.approvalStatus == ApprovalStatus.Pending
    {
      EmptySearchMatches(b.business.businessName);
      StatusFilterSelectsItsStatus(b, PendingOnly);
    }
  }

  /** The four cards at the top of the dashboard. */
  datatype StatCards = StatCards(
    pendingApprovals: int,
    urgent: bool,
    totalBusinesses: int,
    platformUsers: int,
    totalRevenue: real)

  function Cards(lists: BusinessLists, stats: PlatformStats): (c: StatCards)
    ensures c.urgent <==> c.pendingApprovals > 5
    ensures c.pendingApprovals == |lists.pending|
    ensures c.totalBusinesses == |Filter(lists.all, IsApproved)|
    ensures c.platformUsers == stats.totalUsers && c.totalRevenue == stats.totalRevenue
  {
    StatCards(|lists.pending|, |lists.pending| > 5, |Filter(lists.all, IsApproved)|,
              stats.totalUsers, stats.totalRevenue)
  }

  /** "Total Businesses" leaves out the pending and the rejected ones: after a fetch, the pending
      card and the total businesses card together fall short of the fetched rows by exactly the
      number of rejected businesses. */
  lemma TotalBusinessesCountsApprovedOnly(rows: seq<BusinessRow>, stats: PlatformStats)
    ensures var c := Cards(ListsAfterFetch(Success(rows)), stats);
      c.pendingApprovals + c.totalBusinesses + |Filter(rows, IsRejected)| == |rows|
  {
    StatusesPartition(rows);
  }

  /** The row written to the audit log when a decision is recorded. */
  datatype AuditEntry = AuditEntry(
    userId: string,
    action: string,
    businessId: string,
    businessName: string,
    notes: Option<string>)

  /** `BUSINESS_${status.toUpperCase()}` */
  function AuditAction(status: ApprovalStatus): string {
    "BUSINESS_" + ToUpper(ApprovalName(status))
  }

  lemma UpperApproved()
    ensures ToUpper("Approved") == "APPROVED"
  {}

  lemma UpperRejected()
    ensures ToUpper("Rejected") == "REJECTED"
  {}

  /** The two actions the audit log can receive. */
  lemma AuditActions()
    ensures AuditAction(Approved) == "BUSINESS_APPROVED"
    ensures AuditAction(Rejected) == "BUSINESS_REJECTED"
  {
    UpperApproved();
    UpperRejected();
  }

  /** The first row with the given id, as `allBusinesses.find`. */
  function FindBusiness(all: seq<BusinessRow>, id: string): (r: Option<BusinessRow>)
    ensures r.Some? <==> exists i :: 0 <= i < |all| && all[i].business.id == id
    ensures r.Some? ==> r.value in all && r.value.business.id == id
  {
    if all == [] then None
    else if all[0].business.id == id then Some(all[0])
    else FindBusiness(all[1..], id)
  }

  /** What `updateBusinessStatus` leaves behind. */
  datatype StatusUpdate = StatusUpdate(
    updated: bool,
    auditRow: Option<AuditEntry>,
    auditKept: bool,
    error: Option<string>,
    closeModal: bool,
    actionLoading: Option<string>)

  /** `error?.message || 'Failed to update business status'` */
  function UpdateErrorMessage(message: Option<string>): (m: string)
    ensures m != ""
  {
    if message.Some? && message.value != "" then message.value else "Failed to update business status"
  }

  /** Approving or rejecting a business. `updateError` is the store's reply to the status update
      (`Some(message)` on an error); `auditFails` says whether the audit insert throws. An audit
      row is attempted only when the business is in the list and the admin's profile id is
      present; the empty notes are stored as null. */
  function UpdateBusinessStatus(all: seq<BusinessRow>, adminId: Option<string>, businessId: string,
                                status: ApprovalStatus, notes: Option<string>,
                                updateError: Option<Option<string>>, auditFails: bool): (u: StatusUpdate)
    requires status != ApprovalStatus.Pending
    ensures u.actionLoading == None
    ensures u.updated <==> updateError.None?
    ensures updateError.Some? ==>
      u.error == Some(UpdateErrorMessage(updateError.value)) && u.auditRow.None? && !u.closeModal
    ensures updateError.None? ==> u.error.None? && u.closeModal
    ensures u.auditRow.Some? <==>
      updateError.None? && FindBusiness(all, businessId).Some? && adminId.Some? && adminId.value != ""
    ensures u.auditRow.Some? ==>
      && u.auditRow.value.userId == adminId.value
      && u.auditRow.value.businessId == businessId
      && u.auditRow.value.businessName == FindBusiness(all, businessId).value.business.businessName
      && u.auditRow.value.action == AuditAction(status)
      && (u.auditRow.value.notes.Some? <==> notes.Some? && notes.value != "")
    ensures u.auditKept <==> u.auditRow.Some? && !auditFails
  {
    if updateError.Some? then
      StatusUpdate(false, None, false, Some(UpdateErrorMessage(updateError.value)), false, None)
    else
      var business := FindBusiness(all, businessId);
      var row := if business.Some? && adminId.Some? && adminId.value != "" then
        Some(AuditEntry(adminId.value, AuditAction(status), businessId, business.value.business.businessName,
                        if notes.Some? && notes.value != "" then notes else None))
        else None;
      StatusUpdate(true, row, row.Some? && !auditFails, None, true, None)
  }

  /** A failing audit insert is swallowed: the update still counts as done, no error is shown
      and the modal still closes. */
  lemma AuditFailureKeepsUpdate(all: seq<BusinessRow>, adminId: Option<string>, businessId: string,
                                status: ApprovalStatus, notes: Option<string>)
    requires status != ApprovalStatus.Pending
    ensures var ok := UpdateBusinessStatus(all, adminId, businessId, status, notes, None, false);
      var failed := UpdateBusinessStatus(all, adminId, businessId, status, notes, None, true);
      failed == ok.(auditKept := false) && failed.updated && failed.error.None? && failed.closeModal
  {}

  /** The store's side of the update: every business row with that id takes the new status. */
  function ApplyStatus(rows: seq<BusinessRow>, businessId: string, status: ApprovalStatus): (r: seq<BusinessRow>)
    ensures |r| == |rows|
    ensures forall i :: 0 <= i < |rows| ==>
      r[i] == if rows[i].business.id == businessId
              then rows[i].(business := rows[i].business.(approvalStatus := status)) else rows[i]
  {
    if rows == [] then []
    else
      var row := rows[|rows| - 1];
      ApplyStatus(rows[..|rows| - 1], businessId, status)
        + [if row.business.id == businessId then row.(business := row.business.(approvalStatus := status)) else row]
  }

  /** Once the decision is stored, the refreshed pending list no longer holds that business and
      keeps every other pending one. */
  lemma DecidedLeavesPending(rows: seq<BusinessRow>, businessId: string, status: ApprovalStatus)
    requires status != ApprovalStatus.Pending
    ensures var pending := ListsAfterFetch(Success(ApplyStatus(rows, businessId, status))).pending;
      && (forall b :: b in pending ==> b.business.id != businessId)
      && (forall b :: b in rows && IsPending(b) && b.business.id != businessId ==> b in pending)
  {
    var after := ApplyStatus(rows, businessId, status);
    forall b | b in rows && IsPending(b) && b.business.id != businessId
      ensures b in after
    {
      var i :| 0 <= i < |rows| && rows[i] == b;
      assert after[i] == b;
    }
    forall b | b in after && IsPending(b)
      ensures b.business.id != businessId
    {
      var i :| 0 <= i < |after| && after[i] == b;
    }
  }
}
