/** What the vendor's analytics tab (src/components/Vendor/AnalyticsTab.tsx) and the admin's
    platform analytics (src/components/Admin/PlatformAnalytics.tsx) compute alike: the revenue of
    a list of fetched orders, the average order value, the growth over the previous period, and
    the way both build a `Record<string, …>` keyed by a name taken from the data.

    An order's `created_at` is kept as its UTC calendar day (`Schema.Order.createdDay`); the
    date key `toISOString().split('T')[0]` is that day written `YYYY-MM-DD`, and for such keys
    `localeCompare` orders them as the days they name, so the date sorts compare day numbers. */
module Analytics {
  import opened Wrappers
  import opened Schema
  import opened Folds
  import opened Grouping
  import opened Sorting

  /** `Number(order.order_total_amount)` */
  function OrderAmount(o: Order): real {
    o.orderTotalAmount
  }

  /** `orders.reduce((sum, order) => sum + Number(order.order_total_amount), 0)` */
  function Revenue(orders: seq<Order>): real {
    Sum(orders, OrderAmount)
  }

  /** `data?.reduce(…) || 0` on the previous period's fetch, whose error is not checked: a failed
      fetch (no data) counts as no revenue. */
  function PreviousRevenue(previousOrders: Option<seq<Order>>): (r: real)
    ensures previousOrders.None? ==> r == 0.0
    ensures previousOrders.Some? ==> r == Revenue(previousOrders.value)
  {
    match previousOrders
    case None => 0.0
    case Some(orders) => Revenue(orders)
  }

  /** `totalOrders > 0 ? totalRevenue / totalOrders : 0` */
  function AverageOrderValue(totalRevenue: real, totalOrders: int): (r: real)
    ensures totalOrders <= 0 ==> r == 0.0
    ensures totalOrders > 0 ==> r * (totalOrders as real) == totalRevenue
  {
    if totalOrders > 0 then totalRevenue / (totalOrders as real) else 0.0
  }

  /** `previousRevenue > 0 ? ((totalRevenue - previousRevenue) / previousRevenue) * 100 : 0`:
      the percentage by which the previous period's revenue grew into this period's. */
  function Growth(totalRevenue: real, previousRevenue: real): (r: real)
    ensures previousRevenue <= 0.0 ==> r == 0.0
    ensures previousRevenue > 0.0 ==> previousRevenue + previousRevenue * r / 100.0 == totalRevenue
  {
    if previousRevenue > 0.0 then (totalRevenue - previousRevenue) / previousRevenue * 100.0 else 0.0
  }

  /** Growth is positive exactly when revenue rose over a previous period that had revenue, and
      negative exactly when it fell. */
  lemma GrowthSign(totalRevenue: real, previousRevenue: real)
    ensures Growth(totalRevenue, previousRevenue) > 0.0 <==> previousRevenue > 0.0 && totalRevenue > previousRevenue
    ensures Growth(totalRevenue, previousRevenue) < 0.0 <==> previousRevenue > 0.0 && totalRevenue < previousRevenue
  {
    var r := Growth(totalRevenue, previousRevenue);
    if previousRevenue > 0.0 {
      assert previousRevenue * r / 100.0 == totalRevenue - previousRevenue;
      if r > 0.0 {
        assert previousRevenue * r > 0.0;
      } else if r < 0.0 {
        assert previousRevenue * (-r) > 0.0;
      }
    }
  }

  /** A count kept with `+= 1`. */
  function Once<T>(x: T): int {
    1
  }

  lemma {:induction false} CountIsLength<T>(xs: seq<T>)
    ensures SumInt(xs, Once) == |xs|
    decreases |xs|
  {
    if xs != [] {
      CountIsLength(xs[..|xs| - 1]);
    }
  }

  /** The property names a fresh object literal `{}` already answers through its prototype,
      `Object.prototype`: each of them reads as a function (or, for `__proto__`, an object),
      so `!record[name]` is false for it before anything was stored. */
  predicate InheritedKey(k: string) {
    k in {"constructor", "hasOwnProperty", "isPrototypeOf", "propertyIsEnumerable", "toString",
          "toLocaleString", "valueOf", "__proto__", "__defineGetter__", "__defineSetter__",
          "__lookupGetter__", "__lookupSetter__"}
  }

  /** The elements whose key the record stores as an own entry when written as
      `if (!record[k]) record[k] = init; record[k].field += …`: for an inherited key the
      initialisation is skipped and the update lands on the inherited function (or on
      `Object.prototype`), which `Object.entries` never lists. */
  function OwnKeyed<T(!new)>(xs: seq<T>, key: T -> string): (r: seq<T>)
    ensures forall x :: x in r <==> x in xs && !InheritedKey(key(x))
  {
    Filter(xs, x => !InheritedKey(key(x)))
  }

  /** Grouping the own-keyed elements gives a group for every element whose key is not
      inherited, and for no other key. */
  lemma OwnGroupedKeys<T(!new), V>(xs: seq<T>, key: T -> string, init: V, step: (V, T) -> V)
    ensures var gs := Grouped(OwnKeyed(xs, key), key, init, step);
      && (forall i :: 0 <= i < |gs| ==>
            (!InheritedKey(gs[i].key) && exists k :: 0 <= k < |xs| && key(xs[k]) == gs[i].key))
      && (forall k :: 0 <= k < |xs| && !InheritedKey(key(xs[k])) ==> HasGroup(gs, key(xs[k])))
  {
    var own := OwnKeyed(xs, key);
    var gs := Grouped(own, key, init, step);
    GroupedCoversKeys(own, key, init, step);
    forall i | 0 <= i < |gs|
      ensures !InheritedKey(gs[i].key) && exists k :: 0 <= k < |xs| && key(xs[k]) == gs[i].key
    {
      var j :| 0 <= j < |own| && key(own[j]) == gs[i].key;
      assert own[j] in own;
      var k :| 0 <= k < |xs| && xs[k] == own[j];
    }
    forall k | 0 <= k < |xs| && !InheritedKey(key(xs[k])) ensures HasGroup(gs, key(xs[k])) {
      assert xs[k] in xs;
      var j :| 0 <= j < |own| && own[j] == xs[k];
    }
  }

  /** An element under an inherited key is left out, so the record misses at least one
      element. */
  lemma {:induction false} OwnKeyedShorter<T(!new)>(xs: seq<T>, key: T -> string, i: int)
    requires 0 <= i < |xs| && InheritedKey(key(xs[i]))
    ensures |OwnKeyed(xs, key)| < |xs|
  {
    var p := x => !InheritedKey(key(x));
    FilterShorter(xs, p, i);
  }

  lemma {:induction false} FilterShorter<T(!new)>(xs: seq<T>, p: T -> bool, i: int)
    requires 0 <= i < |xs| && !p(xs[i])
    ensures |Filter(xs, p)| < |xs|
    decreases |xs|
  {
    var front := xs[..|xs| - 1];
    if i < |xs| - 1 {
      assert front[i] == xs[i];
      FilterShorter(front, p, i);
    }
  }

  /** The figures kept per group of orders: how many there are and their revenue. */
  datatype Tally = Tally(orders: int, revenue: real)

  const NoOrders := Tally(0, 0.0)

  /** The date key of an order: its UTC calendar day. */
  function OrderDay(o: Order): int {
    o.createdDay
  }

  /** `stats.orders += 1; stats.revenue += Number(order.order_total_amount)` */
  function AddOrder(d: Tally, o: Order): Tally {
    Tally(d.orders + 1, d.revenue + OrderAmount(o))
  }

  /** Folding the updates over some orders counts them and adds up their revenue. */
  lemma {:induction false} FoldTally(orders: seq<Order>)
    ensures Fold(orders, NoOrders, AddOrder) == Tally(SumInt(orders, Once), Revenue(orders))
    decreases |orders|
  {
    if orders != [] {
      FoldTally(orders[..|orders| - 1]);
    }
  }

  /** A row of a daily revenue chart. */
  datatype DailyStats = DailyStats(date: int, orders: int, revenue: real)

  /** `Object.entries(dailyStatsMap).map(([date, stats]) => ({ date, ...stats }))`; the admin's
      `revenueByDayMap` is read back the same way. */
  function DailyRows(groups: seq<Group<int, Tally>>): (r: seq<DailyStats>)
    ensures |r| == |groups|
    ensures forall i :: 0 <= i < |groups| ==>
      r[i] == DailyStats(groups[i].key, groups[i].value.orders, groups[i].value.revenue)
  {
    if groups == [] then []
    else
      var g := groups[|groups| - 1];
      DailyRows(groups[..|groups| - 1]) + [DailyStats(g.key, g.value.orders, g.value.revenue)]
  }

  function DateRank(d: DailyStats): real {
    d.date as real
  }

  function DailyOrders(d: DailyStats): int {
    d.orders
  }

  function DailyRevenue(d: DailyStats): real {
    d.revenue
  }

  /** The daily groups, before sorting. */
  function DailyGroups(orders: seq<Order>): seq<Group<int, Tally>> {
    Grouped(orders, OrderDay, NoOrders, AddOrder)
  }

  /** Rows made from groups with distinct keys have distinct days. */
  lemma DistinctDays(groups: seq<Group<int, Tally>>)
    requires forall i, j :: 0 <= i < j < |groups| ==> groups[i].key != groups[j].key
    ensures var rows := DailyRows(groups);
      forall i, j :: 0 <= i < j < |rows| ==> DateRank(rows[i]) != DateRank(rows[j])
  {}

  /** The unsorted rows carry the days in first-occurrence order, each once. */
  lemma DailyRowsDays(orders: seq<Order>)
    ensures var rows := DailyRows(DailyGroups(orders));
      && (forall i :: 0 <= i < |rows| ==> rows[i].date == Keys(orders, OrderDay)[i])
      && (forall i, j :: 0 <= i < j < |rows| ==> DateRank(rows[i]) != DateRank(rows[j]))
  {
    GroupedKeys(orders, OrderDay, NoOrders, AddOrder);
    DistinctDays(DailyGroups(orders));
  }

  /** `dailyStats`: the rows sorted by `a.date.localeCompare(b.date)`, one per day on which
      an order was placed, the days strictly ascending. */
  function DailyStatsOf(orders: seq<Order>): (r: seq<DailyStats>)
    ensures |r| == |Keys(orders, OrderDay)|
  {
    SortBy(DailyRows(DailyGroups(orders)), DateRank)
  }

  lemma DailyStatsAscending(orders: seq<Order>)
    ensures var r := DailyStatsOf(orders);
      forall i, j :: 0 <= i < j < |r| ==> r[i].date < r[j].date
  {
    var rows := DailyRows(DailyGroups(orders));
    DailyRowsDays(orders);
    SortedDays(rows);
    assert DailyStatsOf(orders) == SortBy(rows, DateRank);
  }

  lemma SortedDayRanks(rows: seq<DailyStats>)
    requires forall i, j :: 0 <= i < j < |rows| ==> DateRank(rows[i]) != DateRank(rows[j])
    ensures var r := SortBy(rows, DateRank);
      forall i, j :: 0 <= i < j < |r| ==> DateRank(r[i]) < DateRank(r[j])
  {
    SortByStrict(rows, DateRank);
  }

  /** Sorting rows with distinct days by day leaves the days strictly ascending. */
  lemma SortedDays(rows: seq<DailyStats>)
    requires forall i, j :: 0 <= i < j < |rows| ==> DateRank(rows[i]) != DateRank(rows[j])
    ensures var r := SortBy(rows, DateRank);
      forall i, j :: 0 <= i < j < |r| ==> r[i].date < r[j].date
  {
    SortedDayRanks(rows);
  }

  /** Before sorting, there is a row for a day exactly when some order was placed on it. */
  lemma DailyRowsCoverOrderDays(orders: seq<Order>, d: int)
    ensures var rows := DailyRows(DailyGroups(orders));
      (exists t :: 0 <= t < |rows| && rows[t].date == d)
      <==> exists k :: 0 <= k < |orders| && orders[k].createdDay == d
  {
    var rows := DailyRows(DailyGroups(orders));
    var ks := Keys(orders, OrderDay);
    DailyRowsDays(orders);
    KeysAreKeysOfElements(orders, OrderDay, d);
    if exists t :: 0 <= t < |rows| && rows[t].date == d {
      var t :| 0 <= t < |rows| && rows[t].date == d;
      assert ks[t] == d;
      var k :| 0 <= k < |orders| && OrderDay(orders[k]) == d;
      assert orders[k].createdDay == d;
    }
    if exists k :: 0 <= k < |orders| && orders[k].createdDay == d {
      var k :| 0 <= k < |orders| && orders[k].createdDay == d;
      assert OrderDay(orders[k]) == d;
      var t :| 0 <= t < |ks| && ks[t] == d;
      assert rows[t].date == d;
    }
  }

  /** Any reordering of the rows, such as the sorted chart, still has a row for a day exactly
      when some order was placed on it. */
  lemma ReorderedRowsCoverOrderDays(orders: seq<Order>, sorted: seq<DailyStats>, d: int)
    requires multiset(sorted) == multiset(DailyRows(DailyGroups(orders)))
    ensures (exists i :: 0 <= i < |sorted| && sorted[i].date == d)
      <==> exists k :: 0 <= k < |orders| && orders[k].createdDay == d
  {
    var rows := DailyRows(DailyGroups(orders));
    DailyRowsCoverOrderDays(orders, d);
    if exists i :: 0 <= i < |sorted| && sorted[i].date == d {
      var i :| 0 <= i < |sorted| && sorted[i].date == d;
      assert sorted[i] in multiset(rows);
      var t :| 0 <= t < |rows| && rows[t] == sorted[i];
    }
    if exists t :: 0 <= t < |rows| && rows[t].date == d {
      var t :| 0 <= t < |rows| && rows[t].date == d;
      assert rows[t] in multiset(sorted);
      var i :| 0 <= i < |sorted| && sorted[i] == rows[t];
    }
  }

  /** The chart has a row for a day exactly when some order was placed on it. */
  lemma DailyStatsDays(orders: seq<Order>, d: int)
    ensures (exists i :: 0 <= i < |DailyStatsOf(orders)| && DailyStatsOf(orders)[i].date == d)
      <==> exists k :: 0 <= k < |orders| && orders[k].createdDay == d
  {
    ReorderedRowsCoverOrderDays(orders, DailyStatsOf(orders), d);
  }

  /** Each row of the chart holds the number and the revenue of exactly the orders placed on
      its day. */
  lemma DailyStatsAreSums(orders: seq<Order>, r: DailyStats)
    requires r in DailyStatsOf(orders)
    ensures r.orders == |Members(orders, OrderDay, r.date)|
    ensures r.revenue == Revenue(Members(orders, OrderDay, r.date))
  {
    var rows := DailyRows(DailyGroups(orders));
    assert r in multiset(rows) by {
      assert r in multiset(DailyStatsOf(orders));
    }
    var t :| 0 <= t < |rows| && rows[t] == r;
    var ks := Keys(orders, OrderDay);
    GroupAt(orders, OrderDay, NoOrders, AddOrder, t);
    FoldTally(Members(orders, OrderDay, ks[t]));
    CountIsLength(Members(orders, OrderDay, ks[t]));
  }

  /** Every order is counted on exactly one day: the daily counts add up to the number of
      orders and the daily revenues to the total revenue. */
  lemma DailyStatsTotals(orders: seq<Order>)
    ensures SumInt(DailyStatsOf(orders), DailyOrders) == |orders|
    ensures Sum(DailyStatsOf(orders), DailyRevenue) == Revenue(orders)
  {
    var groups := DailyGroups(orders);
    var rows := DailyRows(groups);
    var ks := Keys(orders, OrderDay);
    forall i | 0 <= i < |rows|
      ensures DailyOrders(rows[i]) == SumInt(Members(orders, OrderDay, ks[i]), Once)
      ensures DailyRevenue(rows[i]) == Sum(Members(orders, OrderDay, ks[i]), OrderAmount)
    {
      FoldTally(Members(orders, OrderDay, ks[i]));
    }
    GroupIntTotals(rows, DailyOrders, orders, OrderDay, Once);
    GroupTotals(rows, DailyRevenue, orders, OrderDay, OrderAmount);
    CountIsLength(orders);
    SumIntPermutation(DailyStatsOf(orders), rows, DailyOrders);
    SumPermutation(DailyStatsOf(orders), rows, DailyRevenue);
  }
}
