/** The vendor's orders tab (src/components/Vendor/OrdersTab.tsx): the three status buttons a
    vendor may press, the status update they issue, the status filter tabs and the counters
    shown above them. */
module OrdersTab {
  import opened Wrappers
  import opened Text
  import opened Schema
  import opened Folds

  /** The stages of an order's life, in the order they are reached; a cancelled order has left
      the sequence. */
  function Stage(s: OrderStatus): int {
    match s
    case Pending => 0
    case Confirmed => 1
    case Preparing => 2
    case Ready_for_Pickup => 3
    case Out_for_Delivery => 4
    case Delivered => 5
    case Cancelled => -1
  }

  /** The status the action button of an order in status `s` moves it to, if it has one. */
  function VendorNextStatus(s: OrderStatus): (t: Option<OrderStatus>)
    ensures t.Some? <==> s in {OrderStatus.Pending, Confirmed, Preparing}
    ensures t.Some? ==> Stage(t.value) == Stage(s) + 1
    ensures t.Some? ==> t.value in {Confirmed, Preparing, Ready_for_Pickup}
  {
    match s
    case Pending => Some(Confirmed)
    case Confirmed => Some(Preparing)
    case Preparing => Some(Ready_for_Pickup)
    case _ => None
  }

  /** The vendor's buttons trigger exactly three transitions and no others. */
  lemma VendorTransitionsAreTheThree(s: OrderStatus, t: OrderStatus)
    ensures VendorNextStatus(s) == Some(t) <==>
      (s, t) in {(OrderStatus.Pending, Confirmed), (Confirmed, Preparing), (Preparing, Ready_for_Pickup)}
  {}

  /** `update({ order_status }).eq('id', orderId).eq('business_id', businessId)` on the orders
      table: only a row matching both the id and the vendor is changed. */
  function UpdateOrderStatus(table: seq<Order>, orderId: string, businessId: string, status: OrderStatus): (r: seq<Order>)
    ensures |r| == |table|
    ensures forall i :: 0 <= i < |table| ==>
      r[i] == if table[i].id == orderId && table[i].businessId == businessId
              then table[i].(orderStatus := status) else table[i]
  {
    if table == [] then []
    else
      var row := table[|table| - 1];
      UpdateOrderStatus(table[..|table| - 1], orderId, businessId, status)
        + [if row.id == orderId && row.businessId == businessId then row.(orderStatus := status) else row]
  }

  /** A vendor cannot change another vendor's order, even one with the same id. */
  lemma UpdateScopedToVendor(table: seq<Order>, orderId: string, businessId: string, status: OrderStatus, i: int)
    requires 0 <= i < |table| && table[i].businessId != businessId
    ensures UpdateOrderStatus(table, orderId, businessId, status)[i] == table[i]
  {}

  /** `updateOrderStatus`: the update is sent, and the store either applies it or reports an
      error, after which the vendor is alerted and the orders are left as they were. */
  function UpdateOutcome(table: seq<Order>, orderId: string, businessId: string, status: OrderStatus,
                         storeError: Option<string>): (r: Result<seq<Order>, string>)
    ensures storeError.Some? <==> r.Failure?
    ensures r.Failure? ==> r.error == "Failed to update order status"
    ensures r.Success? ==> r.value == UpdateOrderStatus(table, orderId, businessId, status)
  {
    if storeError.Some? then Failure("Failed to update order status")
    else Success(UpdateOrderStatus(table, orderId, businessId, status))
  }

  /** Pressing the action button of the vendor's order at row `k` moves that order one stage on
      and changes no other row, when order ids are unique. */
  lemma ButtonAdvancesOneOrder(table: seq<Order>, businessId: string, k: int)
    requires 0 <= k < |table| && table[k].businessId == businessId
    requires VendorNextStatus(table[k].orderStatus).Some?
    requires forall i, j :: 0 <= i < j < |table| ==> table[i].id != table[j].id
    ensures var next := VendorNextStatus(table[k].orderStatus).value;
      var r := UpdateOrderStatus(table, table[k].id, businessId, next);
      && Stage(r[k].orderStatus) == Stage(table[k].orderStatus) + 1
      && r[k] == table[k].(orderStatus := next)
      && forall i :: 0 <= i < |table| && i != k ==> r[i] == table[i]
  {}

  /** The filter tabs; the key of each is the string the filter state holds. */
  datatype StatusFilter = AllOrders | PendingOrders | ConfirmedOrders | PreparingOrders | ReadyOrders | DeliveredOrders | CancelledOrders

  function FilterKey(f: StatusFilter): string {
    match f
    case AllOrders => "all"
    case PendingOrders => "pending"
    case ConfirmedOrders => "confirmed"
    case PreparingOrders => "preparing"
    case ReadyOrders => "ready"
    case DeliveredOrders => "delivered"
    case CancelledOrders => "cancelled"
  }

  /** `status.toLowerCase().replace('_', '')`: only the first underscore goes, which gives the
      names of `NormalizedName`. */
  function NormalizedStatus(s: OrderStatus): (r: string)
    ensures r == NormalizedName(s)
  {
    NormalizedStatusIsName(s);
    ReplaceFirst(ToLower(StatusName(s)), '_')
  }

  /** Whether the tab shows an order. */
  predicate Shows(f: StatusFilter, o: Order) {
    FilterKey(f) == "all" || NormalizedStatus(o.orderStatus) == ReplaceFirst(FilterKey(f), '_')
  }

  /** `filteredOrders`: the orders the selected tab shows, and no others. */
  function FilteredOrders(orders: seq<Order>, f: StatusFilter): (r: seq<Order>)
    ensures |r| <= |orders|
    ensures forall o :: o in r <==> o in orders && Shows(f, o)
  {
    Filter(orders, o => Shows(f, o))
  }

  /** What a status looks like to the tab filter; only the first underscore is dropped. */
  function NormalizedName(s: OrderStatus): string {
    match s
    case Pending => "pending"
    case Confirmed => "confirmed"
    case Preparing => "preparing"
    case Ready_for_Pickup => "readyfor_pickup"
    case Out_for_Delivery => "outfor_delivery"
    case Delivered => "delivered"
    case Cancelled => "cancelled"
  }

  lemma ReplaceFirstUnderscore(front: string, rest: string)
    requires '_' !in front
    ensures ReplaceFirst(front + "_" + rest, '_') == front + rest
  {
    IndexOfSeparator(front, '_', rest);
    assert (front + "_" + rest)[..|front|] == front;
    assert (front + "_" + rest)[|front| + 1..] == rest;
  }

  lemma LowerReadyForPickup()
    ensures ToLower(StatusName(Ready_for_Pickup)) == "ready" + "_" + "for_pickup"
  {
    assert ToLower("Ready_for_Pickup") == "ready" + "_" + "for_pickup";
  }

  lemma LowerOutForDelivery()
    ensures ToLower(StatusName(Out_for_Delivery)) == "out" + "_" + "for_delivery"
  {
    assert ToLower("Out_for_Delivery") == "out" + "_" + "for_delivery";
  }

  lemma NormalizedReady()
    ensures ReplaceFirst(ToLower(StatusName(Ready_for_Pickup)), '_') == NormalizedName(Ready_for_Pickup)
  {
    assert NormalizedName(Ready_for_Pickup) == "ready" + "for_pickup";
    LowerReadyForPickup();
    ReplaceFirstUnderscore("ready", "for_pickup");
  }

  lemma NormalizedOutForDelivery()
    ensures ReplaceFirst(ToLower(StatusName(Out_for_Delivery)), '_') == NormalizedName(Out_for_Delivery)
  {
    assert NormalizedName(Out_for_Delivery) == "out" + "for_delivery";
    LowerOutForDelivery();
    ReplaceFirstUnderscore("out", "for_delivery");
  }

  /** A status name without an underscore is only lower-cased. */
  lemma NormalizedPlain(s: OrderStatus, lower: string)
    requires s !in {Ready_for_Pickup, Out_for_Delivery}
    requires ToLower(StatusName(s)) == lower && lower == NormalizedName(s)
    ensures ReplaceFirst(ToLower(StatusName(s)), '_') == NormalizedName(s)
  {
    assert '_' !in NormalizedName(s);
  }

  lemma LowerPending() ensures ToLower(StatusName(OrderStatus.Pending)) == "pending" {}
  lemma LowerConfirmed() ensures ToLower(StatusName(Confirmed)) == "confirmed" {}
  lemma LowerPreparing() ensures ToLower(StatusName(Preparing)) == "preparing" {}
  lemma LowerDelivered() ensures ToLower(StatusName(Delivered)) == "delivered" {}
  lemma LowerCancelled() ensures ToLower(StatusName(Cancelled)) == "cancelled" {}

  /** `status.toLowerCase().replace('_', '')` computes `NormalizedName` for every status. */
  lemma NormalizedStatusIsName(s: OrderStatus)
    ensures ReplaceFirst(ToLower(StatusName(s)), '_') == NormalizedName(s)
  {
    match s
    case Pending => LowerPending(); NormalizedPlain(s, "pending");
    case Confirmed => LowerConfirmed(); NormalizedPlain(s, "confirmed");
    case Preparing => LowerPreparing(); NormalizedPlain(s, "preparing");
    case Ready_for_Pickup => NormalizedReady();
    case Out_for_Delivery => NormalizedOutForDelivery();
    case Delivered => LowerDelivered(); NormalizedPlain(s, "delivered");
    case Cancelled => LowerCancelled(); NormalizedPlain(s, "cancelled");
  }

  /** The status a tab other than 'all' and 'ready' is named after. */
  function TabStatus(f: StatusFilter): OrderStatus
    requires f != AllOrders && f != ReadyOrders
  {
    match f
    case PendingOrders => OrderStatus.Pending
    case ConfirmedOrders => Confirmed
    case PreparingOrders => Preparing
    case DeliveredOrders => Delivered
    case CancelledOrders => Cancelled
  }

  lemma KeyHasNoUnderscore(f: StatusFilter)
    ensures ReplaceFirst(FilterKey(f), '_') == FilterKey(f)
  {
    assert '_' !in FilterKey(f);
  }

  /** The first two letters of each normalized name, which already tell the statuses apart. */
  function Initials(s: OrderStatus): (char, char) {
    match s
    case Pending => ('p', 'e')
    case Confirmed => ('c', 'o')
    case Preparing => ('p', 'r')
    case Ready_for_Pickup => ('r', 'e')
    case Out_for_Delivery => ('o', 'u')
    case Delivered => ('d', 'e')
    case Cancelled => ('c', 'a')
  }

  lemma NamesDiffer(s: OrderStatus, t: OrderStatus)
    requires s != t
    ensures NormalizedName(s) != NormalizedName(t)
  {
    assert (NormalizedName(s)[0], NormalizedName(s)[1]) == Initials(s);
    assert (NormalizedName(t)[0], NormalizedName(t)[1]) == Initials(t);
  }

  /** Outside the 'all' tab, an order is shown when its normalized status is the tab's key. */
  lemma ShowsByName(f: StatusFilter, o: Order)
    requires f != AllOrders
    ensures Shows(f, o) <==> NormalizedName(o.orderStatus) == FilterKey(f)
  {
    NormalizedStatusIsName(o.orderStatus);
    KeyHasNoUnderscore(f);
    assert FilterKey(f) != "all";
  }

  lemma KeyIsTabStatusName(f: StatusFilter)
    requires f != AllOrders && f != ReadyOrders
    ensures NormalizedName(TabStatus(f)) == FilterKey(f)
  {}

  /** Each tab other than 'all' and 'ready' shows exactly the orders of its status. */
  lemma TabShowsItsStatus(f: StatusFilter, o: Order)
    requires f != AllOrders && f != ReadyOrders
    ensures Shows(f, o) <==> o.orderStatus == TabStatus(f)
  {
    ShowsByName(f, o);
    KeyIsTabStatusName(f);
    if o.orderStatus != TabStatus(f) {
      NamesDiffer(o.orderStatus, TabStatus(f));
    }
  }

  /** The 'ready' tab shows no order: Ready_for_Pickup loses only its first underscore, and no
      normalized name is as short as "ready". */
  lemma ReadyTabShowsNone(o: Order)
    ensures !Shows(ReadyOrders, o)
  {
    ShowsByName(ReadyOrders, o);
    assert |FilterKey(ReadyOrders)| == 5;
    assert |NormalizedName(o.orderStatus)| >= 7;
  }

  /** The 'all' tab lists every order, in order. */
  lemma AllTabShowsEverything(orders: seq<Order>)
    ensures FilteredOrders(orders, AllOrders) == orders
  {
    FilterAll(orders, o => Shows(AllOrders, o));
  }

  /** The 'ready' tab is always empty, whatever the orders. */
  lemma ReadyTabAlwaysEmpty(orders: seq<Order>)
    ensures FilteredOrders(orders, ReadyOrders) == []
  {
    var r := FilteredOrders(orders, ReadyOrders);
    if r != [] {
      assert r[0] in r;
      ReadyTabShowsNone(r[0]);
    }
  }

  /** The orders in status `s`. */
  function OfStatus(orders: seq<Order>, s: OrderStatus): seq<Order> {
    Filter(orders, (o: Order) => o.orderStatus == s)
  }

  function AmountOf(o: Order): real {
    o.orderTotalAmount
  }

  /** The counters above the tabs: `total`, `pending`, `preparing` (Confirmed or Preparing),
      `completed` (Delivered) and `revenue` (the totals of the Delivered orders). */
  datatype OrderStats = OrderStats(total: int, pending: int, preparing: int, completed: int, revenue: real)

  function Stats(orders: seq<Order>): (s: OrderStats)
    ensures s.total == |orders|
    ensures 0 <= s.pending <= s.total && 0 <= s.preparing <= s.total && 0 <= s.completed <= s.total
  {
    OrderStats(
      |orders|,
      |OfStatus(orders, OrderStatus.Pending)|,
      |Filter(orders, (o: Order) => o.orderStatus in {Confirmed, Preparing})|,
      |OfStatus(orders, Delivered)|,
      Sum(OfStatus(orders, Delivered), AmountOf))
  }

  /** How one more order moves each counter: only a Delivered order adds to revenue and to
      `completed`, and `preparing` counts Confirmed as well as Preparing orders. */
  lemma StatsSnoc(orders: seq<Order>, o: Order)
    ensures var before, after := Stats(orders), Stats(orders + [o]);
      && after.total == before.total + 1
      && after.pending == before.pending + (if o.orderStatus == OrderStatus.Pending then 1 else 0)
      && after.preparing == before.preparing + (if o.orderStatus in {Confirmed, Preparing} then 1 else 0)
      && after.completed == before.completed + (if o.orderStatus == Delivered then 1 else 0)
      && after.revenue == before.revenue + (if o.orderStatus == Delivered then o.orderTotalAmount else 0.0)
  {
    assert (orders + [o])[..|orders|] == orders;
  }

  /** No order is counted twice: the pending, preparing and completed counters together count
      at most every order. */
  lemma {:induction false} CountersWithinTotal(orders: seq<Order>)
    ensures var s := Stats(orders);
      s.pending + s.preparing + s.completed <= s.total
    decreases |orders|
  {
    if orders != [] {
      var front := orders[..|orders| - 1];
      CountersWithinTotal(front);
      StatsSnoc(front, orders[|orders| - 1]);
      assert front + [orders[|orders| - 1]] == orders;
    }
  }

  /** A status tab lists exactly the orders of its status, in order. */
  lemma {:induction false} TabListsItsStatus(orders: seq<Order>, f: StatusFilter)
    requires f != AllOrders && f != ReadyOrders
    ensures FilteredOrders(orders, f) == OfStatus(orders, TabStatus(f))
    decreases |orders|
  {
    if orders != [] {
      TabListsItsStatus(orders[..|orders| - 1], f);
      TabShowsItsStatus(f, orders[|orders| - 1]);
    }
  }

  lemma {:induction false} ConfirmedOrPreparingCount(orders: seq<Order>)
    ensures |Filter(orders, (o: Order) => o.orderStatus in {Confirmed, Preparing})|
      == |OfStatus(orders, Confirmed)| + |OfStatus(orders, Preparing)|
    decreases |orders|
  {
    if orders != [] {
      ConfirmedOrPreparingCount(orders[..|orders| - 1]);
    }
  }

  /** The 'preparing' counter counts what the 'preparing' and 'confirmed' tabs list together,
      so it exceeds what the 'preparing' tab lists by the number of Confirmed orders. */
  lemma PreparingCountVersusTab(orders: seq<Order>)
    ensures Stats(orders).preparing
      == |FilteredOrders(orders, PreparingOrders)| + |FilteredOrders(orders, ConfirmedOrders)|
  {
    ConfirmedOrPreparingCount(orders);
    TabListsItsStatus(orders, PreparingOrders);
    TabListsItsStatus(orders, ConfirmedOrders);
  }

  /** `completed` and `pending` count what the 'delivered' and 'pending' tabs list, and revenue
      adds up the totals of exactly the orders the 'delivered' tab lists. */
  lemma CountersMatchTabs(orders: seq<Order>)
    ensures Stats(orders).completed == |FilteredOrders(orders, DeliveredOrders)|
    ensures Stats(orders).pending == |FilteredOrders(orders, PendingOrders)|
    ensures Stats(orders).revenue == Sum(FilteredOrders(orders, DeliveredOrders), AmountOf)
  {
    TabListsItsStatus(orders, DeliveredOrders);
    TabListsItsStatus(orders, PendingOrders);
  }

  /** The tab buttons, in the order they are shown; the filter state also admits 'confirmed',
      but no button selects it. */
  const TabButtons: seq<StatusFilter> := [AllOrders, PendingOrders, PreparingOrders, ReadyOrders, DeliveredOrders, CancelledOrders]

  /** The count a tab button shows, as written: the 'preparing' tab shows the `preparing`
      counter, the 'ready' tab the number of Ready_for_Pickup orders. */
  function TabBadge(orders: seq<Order>, f: StatusFilter): (r: Option<int>)
    ensures r.None? <==> f !in TabButtons
  {
    match f
    case AllOrders => Some(Stats(orders).total)
    case PendingOrders => Some(Stats(orders).pending)
    case ConfirmedOrders => None
    case PreparingOrders => Some(Stats(orders).preparing)
    case ReadyOrders => Some(|OfStatus(orders, Ready_for_Pickup)|)
    case DeliveredOrders => Some(Stats(orders).completed)
    case CancelledOrders => Some(|OfStatus(orders, Cancelled)|)
  }

  /** As written, the 'ready' badge counts every Ready_for_Pickup order while the tab lists
      none. */
  lemma ReadyBadgeCountsUnlisted(orders: seq<Order>)
    ensures TabBadge(orders, ReadyOrders) == Some(|OfStatus(orders, Ready_for_Pickup)|)
    ensures |FilteredOrders(orders, ReadyOrders)| == 0
  {
    ReadyTabAlwaysEmpty(orders);
  }

  /** As written, the 'preparing' badge also counts the Confirmed orders the tab does not list. */
  lemma PreparingBadgeCountsConfirmed(orders: seq<Order>)
    ensures TabBadge(orders, PreparingOrders)
      == Some(|FilteredOrders(orders, PreparingOrders)| + |OfStatus(orders, Confirmed)|)
  {
    var preparing := Stats(orders).preparing;
    assert TabBadge(orders, PreparingOrders) == Some(preparing);
    assert preparing == |FilteredOrders(orders, PreparingOrders)| + |FilteredOrders(orders, ConfirmedOrders)| by {
      PreparingCountVersusTab(orders);
    }
    assert |FilteredOrders(orders, ConfirmedOrders)| == |OfStatus(orders, Confirmed)| by {
      TabListsItsStatus(orders, ConfirmedOrders);
    }
  }

  /** One order ready for pickup: the 'ready' badge says 1 and the tab lists nothing; one
      confirmed order: the 'preparing' badge says 1 and the tab lists nothing. */
  lemma BadgeMismatchWitness(o: Order)
    ensures o.orderStatus == Ready_for_Pickup ==>
      TabBadge([o], ReadyOrders) == Some(1) && FilteredOrders([o], ReadyOrders) == []
    ensures o.orderStatus == Confirmed ==>
      TabBadge([o], PreparingOrders) == Some(1) && FilteredOrders([o], PreparingOrders) == []
  {
    assert [o][..0] == [];
    ReadyTabAlwaysEmpty([o]);
    TabShowsItsStatus(PreparingOrders, o);
  }

  /** The statuses each tab is meant to list: the ones its badge counts. */
  function IntendedStatuses(f: StatusFilter): set<OrderStatus> {
    match f
    case AllOrders => {OrderStatus.Pending, Confirmed, Preparing, Ready_for_Pickup, Out_for_Delivery, Delivered, Cancelled}
    case PendingOrders => {OrderStatus.Pending}
    case ConfirmedOrders => {Confirmed}
    case PreparingOrders => {Confirmed, Preparing}
    case ReadyOrders => {Ready_for_Pickup}
    case DeliveredOrders => {Delivered}
    case CancelledOrders => {Cancelled}
  }

  lemma EveryStatusListedByAll(s: OrderStatus)
    ensures s in IntendedStatuses(AllOrders)
  {
    match s
    case _ =>
  }

  /** The tab filter matching statuses against the tab's own statuses instead of strings. */
  function IntendedFilteredOrders(orders: seq<Order>, f: StatusFilter): seq<Order> {
    Filter(orders, (o: Order) => o.orderStatus in IntendedStatuses(f))
  }

  lemma {:induction false} IntendedSingleStatus(orders: seq<Order>, f: StatusFilter, s: OrderStatus)
    requires IntendedStatuses(f) == {s}
    ensures IntendedFilteredOrders(orders, f) == OfStatus(orders, s)
    decreases |orders|
  {
    if orders != [] {
      IntendedSingleStatus(orders[..|orders| - 1], f, s);
    }
  }

  lemma {:induction false} IntendedPreparing(orders: seq<Order>)
    ensures IntendedFilteredOrders(orders, PreparingOrders)
      == Filter(orders, (o: Order) => o.orderStatus in {Confirmed, Preparing})
    decreases |orders|
  {
    if orders != [] {
      IntendedPreparing(orders[..|orders| - 1]);
      assert IntendedStatuses(PreparingOrders) == {Confirmed, Preparing};
    }
  }

  lemma {:induction false} IntendedAll(orders: seq<Order>)
    ensures IntendedFilteredOrders(orders, AllOrders) == orders
    decreases |orders|
  {
    if orders != [] {
      IntendedAll(orders[..|orders| - 1]);
      EveryStatusListedByAll(orders[|orders| - 1].orderStatus);
      assert orders == orders[..|orders| - 1] + [orders[|orders| - 1]];
    }
  }

  /** With the intended filter, every tab button's badge is the number of orders it lists. */
  lemma IntendedBadgesMatchLists(orders: seq<Order>, f: StatusFilter)
    requires f in TabButtons
    ensures TabBadge(orders, f) == Some(|IntendedFilteredOrders(orders, f)|)
  {
    match f
    case AllOrders => IntendedAll(orders);
    case PendingOrders => IntendedSingleStatus(orders, f, OrderStatus.Pending);
    case PreparingOrders => IntendedPreparing(orders);
    case ReadyOrders => IntendedSingleStatus(orders, f, Ready_for_Pickup);
    case DeliveredOrders => IntendedSingleStatus(orders, f, Delivered);
    case CancelledOrders => IntendedSingleStatus(orders, f, Cancelled);
  }

  /** The intended filter lists the same orders as written on every tab but 'preparing' and
      'ready'. */
  lemma {:induction false} IntendedAgreesElsewhere(orders: seq<Order>, f: StatusFilter)
    requires f !in {PreparingOrders, ReadyOrders}
    ensures IntendedFilteredOrders(orders, f) == FilteredOrders(orders, f)
    decreases |orders|
  {
    if orders != [] {
      IntendedAgreesElsewhere(orders[..|orders| - 1], f);
      var o := orders[|orders| - 1];
      if f == AllOrders {
        EveryStatusListedByAll(o.orderStatus);
      } else {
        TabShowsItsStatus(f, o);
      }
    }
  }
}
