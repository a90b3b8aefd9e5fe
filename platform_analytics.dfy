/** The admin's platform analytics (src/components/Admin/PlatformAnalytics.tsx): over the
    delivered orders of the chosen period (each with its business's name), the profiles created
    in it and the approved businesses, the totals, the average order value and the growth over
    the previous period; per business the revenue and the order count, of which the five best by
    revenue are shown; per day the new customers, vendors and drivers; and per day the orders and
    revenue. The four fetches are parameters: each of the first three either fails (nothing is
    stored) or yields its rows, the previous period's yields its orders or nothing. */
module PlatformAnalytics {
  import opened Wrappers
  import opened Schema
  import opened Folds
  import opened Grouping
  import opened Sorting
  import opened Analytics

  /** `order.business?.business_name || 'Unknown'` */
  function BusinessNameOf(o: Order): string {
    match o.businessName
    case Some(name) => if name != "" then name else "Unknown"
    case None => "Unknown"
  }

  /** `businessStats`, entry by entry in insertion order: the revenue and the order count of
      each business name. */
  function BusinessStatsOf(orders: seq<Order>): seq<Group<string, Tally>> {
    Grouped(orders, BusinessNameOf, NoOrders, AddOrder)
  }

  /** The record has one entry per business name among the orders: no name twice, none that
      no order carries, and none missing. */
  lemma BusinessStatsKeys(orders: seq<Order>)
    ensures var r := BusinessStatsOf(orders);
      && (forall i, j :: 0 <= i < j < |r| ==> r[i].key != r[j].key)
      && (forall i :: 0 <= i < |r| ==> r[i].key in Map(orders, BusinessNameOf))
      && (forall k :: 0 <= k < |orders| ==> HasGroup(r, BusinessNameOf(orders[k])))
  {
    var r := BusinessStatsOf(orders);
    GroupedKeys(orders, BusinessNameOf, NoOrders, AddOrder);
    GroupedCoversKeys(orders, BusinessNameOf, NoOrders, AddOrder);
    forall i | 0 <= i < |r| ensures r[i].key in Map(orders, BusinessNameOf) {
      var k :| 0 <= k < |orders| && BusinessNameOf(orders[k]) == r[i].key;
      assert Map(orders, BusinessNameOf)[k] == r[i].key;
    }
  }

  function EntryOrders(g: Group<string, Tally>): int {
    g.value.orders
  }

  function EntryRevenue(g: Group<string, Tally>): real {
    g.value.revenue
  }

  /** Each business's entry holds the number and the revenue of exactly the orders of that
      business name. */
  lemma BusinessStatsAreSums(orders: seq<Order>, i: int)
    requires 0 <= i < |BusinessStatsOf(orders)|
    ensures var g := BusinessStatsOf(orders)[i];
      var own := Members(orders, BusinessNameOf, g.key);
      g.value == Tally(|own|, Revenue(own))
  {
    var ks := Keys(orders, BusinessNameOf);
    GroupAt(orders, BusinessNameOf, NoOrders, AddOrder, i);
    FoldTally(Members(orders, BusinessNameOf, ks[i]));
    CountIsLength(Members(orders, BusinessNameOf, ks[i]));
  }

  /** Every order is counted under exactly one business: the per-business order counts add up
      to the number of orders and the per-business revenues to the total revenue. */
  lemma BusinessStatsTotals(orders: seq<Order>)
    ensures SumInt(BusinessStatsOf(orders), EntryOrders) == |orders|
    ensures Sum(BusinessStatsOf(orders), EntryRevenue) == Revenue(orders)
  {
    var stats := BusinessStatsOf(orders);
    var ks := Keys(orders, BusinessNameOf);
    forall i | 0 <= i < |stats|
      ensures EntryOrders(stats[i]) == SumInt(Members(orders, BusinessNameOf, ks[i]), Once)
      ensures EntryRevenue(stats[i]) == Sum(Members(orders, BusinessNameOf, ks[i]), OrderAmount)
    {
      FoldTally(Members(orders, BusinessNameOf, ks[i]));
    }
    GroupIntTotals(stats, EntryOrders, orders, BusinessNameOf, Once);
    GroupTotals(stats, EntryRevenue, orders, BusinessNameOf, OrderAmount);
    CountIsLength(orders);
  }

  /** Every order has an entry under its business's name, and an order whose business has no
      name (or an empty one) is counted under 'Unknown'. */
  lemma EveryOrderListed(orders: seq<Order>, k: int)
    requires 0 <= k < |orders|
    ensures exists i ::
      && 0 <= i < |BusinessStatsOf(orders)|
      && BusinessStatsOf(orders)[i].key == BusinessNameOf(orders[k])
      && orders[k] in Members(orders, BusinessNameOf, BusinessStatsOf(orders)[i].key)
    ensures (orders[k].businessName.None? || orders[k].businessName == Some("")) ==> BusinessNameOf(orders[k]) == "Unknown"
  {
    InExactlyOneGroup(orders, BusinessNameOf, k);
    var ks := Keys(orders, BusinessNameOf);
    var i :| 0 <= i < |ks| && ks[i] == BusinessNameOf(orders[k]);
    GroupedKeys(orders, BusinessNameOf, NoOrders, AddOrder);
    assert BusinessStatsOf(orders)[i].key == BusinessNameOf(orders[k]);
  }

  /** An entry of the top-businesses list. */
  datatype TopBusiness = TopBusiness(name: string, revenue: real, orders: int)

  /** `Object.entries(businessStats).map(([name, stats]) => ({ name, ...stats }))` */
  function BusinessEntries(stats: seq<Group<string, Tally>>): (r: seq<TopBusiness>)
    ensures |r| == |stats|
    ensures forall i :: 0 <= i < |stats| ==>
      r[i] == TopBusiness(stats[i].key, stats[i].value.revenue, stats[i].value.orders)
  {
    if stats == [] then []
    else
      var g := stats[|stats| - 1];
      BusinessEntries(stats[..|stats| - 1]) + [TopBusiness(g.key, g.value.revenue, g.value.orders)]
  }

  /** The comparator `(a, b) => b.revenue - a.revenue` sorts ascending by minus the revenue. */
  function RevenueDescending(b: TopBusiness): real {
    -b.revenue
  }

  /** `.sort((a, b) => b.revenue - a.revenue).slice(0, 5)` */
  function TopBusinesses(stats: seq<Group<string, Tally>>): (top: seq<TopBusiness>)
    ensures |top| == if |stats| < 5 then |stats| else 5
    ensures forall i, j :: 0 <= i < j < |top| ==> top[i].revenue >= top[j].revenue
    ensures multiset(top) <= multiset(BusinessEntries(stats))
  {
    TopByRank(BusinessEntries(stats), RevenueDescending, 5);
    Take(SortBy(BusinessEntries(stats), RevenueDescending), 5)
  }

  /** No business left out of the top five earned more than one that was kept. */
  lemma TopBusinessesBeatTheRest(stats: seq<Group<string, Tally>>, q: TopBusiness)
    requires q in BusinessEntries(stats) && q !in TopBusinesses(stats)
    ensures forall b :: b in TopBusinesses(stats) ==> b.revenue >= q.revenue
  {
    LeftOutRanksNoLower(BusinessEntries(stats), RevenueDescending, 5, q);
  }

  /** The two columns of a profile the page fetches: its role and its creation day. */
  datatype UserRow = UserRow(role: Role, createdDay: int)

  /** The new users of one day, by role. */
  datatype UserCounts = UserCounts(customers: int, vendors: int, drivers: int)

  const NoUsers := UserCounts(0, 0, 0)

  function UserDay(u: UserRow): int {
    u.createdDay
  }

  /** One `if … else if …` step: a customer, vendor or driver adds one to its own count; an
      admin adds to none. */
  function AddUser(c: UserCounts, u: UserRow): (r: UserCounts)
    ensures r.customers == c.customers + IsCustomer(u)
    ensures r.vendors == c.vendors + IsVendor(u)
    ensures r.drivers == c.drivers + IsDriver(u)
  {
    match u.role
    case Customer => c.(customers := c.customers + 1)
    case Vendor => c.(vendors := c.vendors + 1)
    case Driver => c.(drivers := c.drivers + 1)
    case Admin => c
  }

  function IsCustomer(u: UserRow): int {
    if u.role == Customer then 1 else 0
  }

  function IsVendor(u: UserRow): int {
    if u.role == Vendor then 1 else 0
  }

  function IsDriver(u: UserRow): int {
    if u.role == Driver then 1 else 0
  }

  function IsAdmin(u: UserRow): int {
    if u.role == Admin then 1 else 0
  }

  /** Folding the steps over some users counts each role among them. */
  lemma {:induction false} FoldUserCounts(users: seq<UserRow>)
    ensures Fold(users, NoUsers, AddUser)
      == UserCounts(SumInt(users, IsCustomer), SumInt(users, IsVendor), SumInt(users, IsDriver))
    decreases |users|
  {
    if users != [] {
      FoldUserCounts(users[..|users| - 1]);
    }
  }

  /** Every user has exactly one role. */
  lemma {:induction false} RolesPartitionUsers(users: seq<UserRow>)
    ensures SumInt(users, IsCustomer) + SumInt(users, IsVendor) + SumInt(users, IsDriver) + SumInt(users, IsAdmin) == |users|
    decreases |users|
  {
    if users != [] {
      RolesPartitionUsers(users[..|users| - 1]);
    }
  }

  /** A row of the user-growth chart. */
  datatype GrowthRow = GrowthRow(date: int, customers: int, vendors: int, drivers: int)

  /** `Object.entries(userGrowthMap).map(([date, stats]) => ({ date, ...stats }))` */
  function GrowthRows(groups: seq<Group<int, UserCounts>>): (r: seq<GrowthRow>)
    ensures |r| == |groups|
    ensures forall i :: 0 <= i < |groups| ==>
      r[i] == GrowthRow(groups[i].key, groups[i].value.customers, groups[i].value.vendors, groups[i].value.drivers)
  {
    if groups == [] then []
    else
      var g := groups[|groups| - 1];
      GrowthRows(groups[..|groups| - 1]) + [GrowthRow(g.key, g.value.customers, g.value.vendors, g.value.drivers)]
  }

  function GrowthDateRank(r: GrowthRow): real {
    r.date as real
  }

  function RowCustomers(r: GrowthRow): int {
    r.customers
  }

  function RowVendors(r: GrowthRow): int {
    r.vendors
  }

  function RowDrivers(r: GrowthRow): int {
    r.drivers
  }

  /** The per-day groups of `userGrowthMap`, before sorting. */
  function UserGroups(users: seq<UserRow>): seq<Group<int, UserCounts>> {
    Grouped(users, UserDay, NoUsers, AddUser)
  }

  /** `userGrowth`: the rows sorted by `a.date.localeCompare(b.date)`. */
  function UserGrowthOf(users: seq<UserRow>): (r: seq<GrowthRow>)
    ensures |r| == |Keys(users, UserDay)|
  {
    SortBy(GrowthRows(UserGroups(users)), GrowthDateRank)
  }

  lemma DistinctGrowthDays(groups: seq<Group<int, UserCounts>>)
    requires forall i, j :: 0 <= i < j < |groups| ==> groups[i].key != groups[j].key
    ensures var rows := GrowthRows(groups);
      forall i, j :: 0 <= i < j < |rows| ==> GrowthDateRank(rows[i]) != GrowthDateRank(rows[j])
  {}

  lemma SortedGrowthRanks(rows: seq<GrowthRow>)
    requires forall i, j :: 0 <= i < j < |rows| ==> GrowthDateRank(rows[i]) != GrowthDateRank(rows[j])
    ensures var r := SortBy(rows, GrowthDateRank);
      forall i, j :: 0 <= i < j < |r| ==> GrowthDateRank(r[i]) < GrowthDateRank(r[j])
  {
    SortByStrict(rows, GrowthDateRank);
  }

  lemma SortedGrowthDays(rows: seq<GrowthRow>)
    requires forall i, j :: 0 <= i < j < |rows| ==> GrowthDateRank(rows[i]) != GrowthDateRank(rows[j])
    ensures var r := SortBy(rows, GrowthDateRank);
      forall i, j :: 0 <= i < j < |r| ==> r[i].date < r[j].date
  {
    SortedGrowthRanks(rows);
  }

  /** The user-growth days strictly ascend. */
  lemma UserGrowthAscending(users: seq<UserRow>)
    ensures var r := UserGrowthOf(users);
      forall i, j :: 0 <= i < j < |r| ==> r[i].date < r[j].date
  {
    var rows := GrowthRows(UserGroups(users));
    GroupedKeys(users, UserDay, NoUsers, AddUser);
    DistinctGrowthDays(UserGroups(users));
    SortedGrowthDays(rows);
    assert UserGrowthOf(users) == SortBy(rows, GrowthDateRank);
  }

  /** The chart has a row for a day exactly when some user, of whatever role, was created on it:
      the record entry is opened before the role is looked at, so a day on which only admins
      signed up shows a row of zeros. */
  lemma UserGrowthDays(users: seq<UserRow>, d: int)
    ensures (exists i :: 0 <= i < |UserGrowthOf(users)| && UserGrowthOf(users)[i].date == d)
      <==> exists k :: 0 <= k < |users| && users[k].createdDay == d
  {
    var rows := GrowthRows(UserGroups(users));
    var ks := Keys(users, UserDay);
    assert (exists t :: 0 <= t < |rows| && rows[t].date == d) <==> d in ks by {
      GroupedKeys(users, UserDay, NoUsers, AddUser);
    }
    assert d in ks <==> exists k :: 0 <= k < |users| && users[k].createdDay == d by {
      KeysAreKeysOfElements(users, UserDay, d);
    }
    PermutedRanks(UserGrowthOf(users), rows, GrowthDateRank, d as real);
  }

  /** Each row of the chart counts, among exactly the users created on its day, the customers,
      the vendors and the drivers. */
  lemma UserGrowthRowsAreCounts(users: seq<UserRow>, i: int)
    requires 0 <= i < |UserGrowthOf(users)|
    ensures var r := UserGrowthOf(users)[i];
      var own := Members(users, UserDay, r.date);
      && r.customers == SumInt(own, IsCustomer)
      && r.vendors == SumInt(own, IsVendor)
      && r.drivers == SumInt(own, IsDriver)
  {
    var rows := GrowthRows(UserGroups(users));
    var r := UserGrowthOf(users)[i];
    assert r in multiset(rows) by {
      assert r in multiset(UserGrowthOf(users));
    }
    var t :| 0 <= t < |rows| && rows[t] == r;
    var ks := Keys(users, UserDay);
    GroupAt(users, UserDay, NoUsers, AddUser, t);
    FoldUserCounts(Members(users, UserDay, ks[t]));
  }

  /** Over all days, the customer, vendor and driver columns count exactly the users of that
      role; together they count every user but the admins. */
  lemma UserGrowthTotals(users: seq<UserRow>)
    ensures SumInt(UserGrowthOf(users), RowCustomers) == SumInt(users, IsCustomer)
    ensures SumInt(UserGrowthOf(users), RowVendors) == SumInt(users, IsVendor)
    ensures SumInt(UserGrowthOf(users), RowDrivers) == SumInt(users, IsDriver)
    ensures SumInt(UserGrowthOf(users), RowCustomers) + SumInt(UserGrowthOf(users), RowVendors)
      + SumInt(UserGrowthOf(users), RowDrivers) == |users| - SumInt(users, IsAdmin)
  {
    var rows := GrowthRows(UserGroups(users));
    var ks := Keys(users, UserDay);
    forall i | 0 <= i < |rows|
      ensures RowCustomers(rows[i]) == SumInt(Members(users, UserDay, ks[i]), IsCustomer)
      ensures RowVendors(rows[i]) == SumInt(Members(users, UserDay, ks[i]), IsVendor)
      ensures RowDrivers(rows[i]) == SumInt(Members(users, UserDay, ks[i]), IsDriver)
    {
      FoldUserCounts(Members(users, UserDay, ks[i]));
    }
    GroupIntTotals(rows, RowCustomers, users, UserDay, IsCustomer);
    GroupIntTotals(rows, RowVendors, users, UserDay, IsVendor);
    GroupIntTotals(rows, RowDrivers, users, UserDay, IsDriver);
    SumIntPermutation(UserGrowthOf(users), rows, RowCustomers);
    SumIntPermutation(UserGrowthOf(users), rows, RowVendors);
    SumIntPermutation(UserGrowthOf(users), rows, RowDrivers);
    RolesPartitionUsers(users);
  }

  /** What the page stores after successful fetches. */
  datatype PlatformMetrics = PlatformMetrics(
    totalRevenue: real,
    totalOrders: int,
    totalUsers: int,
    totalBusinesses: int,
    averageOrderValue: real,
    growthRate: real,
    topPerformingBusinesses: seq<TopBusiness>,
    userGrowth: seq<GrowthRow>,
    revenueByDay: seq<DailyStats>)

  /** The metrics of a period. */
  function MetricsOf(orders: seq<Order>, users: seq<UserRow>, businesses: seq<Business>,
                     previousOrders: Option<seq<Order>>): (m: PlatformMetrics)
    ensures m.totalOrders == |orders| && SumInt(m.revenueByDay, DailyOrders) == |orders|
    ensures m.totalRevenue == Revenue(orders) && Sum(m.revenueByDay, DailyRevenue) == Revenue(orders)
  {
    DailyStatsTotals(orders);
    var revenue := Revenue(orders);
    PlatformMetrics(
      revenue,
      |orders|,
      |users|,
      |businesses|,
      AverageOrderValue(revenue, |orders|),
      Growth(revenue, PreviousRevenue(previousOrders)),
      TopBusinesses(BusinessStatsOf(orders)),
      UserGrowthOf(users),
      DailyStatsOf(orders))
  }

  /** The totals, the average, the growth and the top five of the stored metrics. */
  lemma MetricsFigures(orders: seq<Order>, users: seq<UserRow>, businesses: seq<Business>,
                       previousOrders: Option<seq<Order>>)
    ensures var m := MetricsOf(orders, users, businesses, previousOrders);
      && m.totalOrders == |orders| && m.totalRevenue == Revenue(orders)
      && m.totalUsers == |users| && m.totalBusinesses == |businesses|
      && m.averageOrderValue == AverageOrderValue(m.totalRevenue, m.totalOrders)
      && m.growthRate == Growth(m.totalRevenue, PreviousRevenue(previousOrders))
      && |m.topPerformingBusinesses| == (if |BusinessStatsOf(orders)| < 5 then |BusinessStatsOf(orders)| else 5)
      && (forall i, j :: 0 <= i < j < |m.topPerformingBusinesses| ==>
            m.topPerformingBusinesses[i].revenue >= m.topPerformingBusinesses[j].revenue)
  {
    var m := MetricsOf(orders, users, businesses, previousOrders);
    assert m.topPerformingBusinesses == TopBusinesses(BusinessStatsOf(orders));
  }

  /** The two charts of the stored metrics: strictly ascending days, the growth columns
      counting every user but the admins, and the daily figures adding up to the totals. */
  lemma MetricsCharts(orders: seq<Order>, users: seq<UserRow>, businesses: seq<Business>,
                      previousOrders: Option<seq<Order>>)
    ensures var m := MetricsOf(orders, users, businesses, previousOrders);
      && (forall i, j :: 0 <= i < j < |m.userGrowth| ==> m.userGrowth[i].date < m.userGrowth[j].date)
      && SumInt(m.userGrowth, RowCustomers) + SumInt(m.userGrowth, RowVendors) + SumInt(m.userGrowth, RowDrivers)
           == |users| - SumInt(users, IsAdmin)
      && (forall i, j :: 0 <= i < j < |m.revenueByDay| ==> m.revenueByDay[i].date < m.revenueByDay[j].date)
      && SumInt(m.revenueByDay, DailyOrders) == |orders|
      && Sum(m.revenueByDay, DailyRevenue) == Revenue(orders)
  {
    var m := MetricsOf(orders, users, businesses, previousOrders);
    UserGrowthAscending(users);
    UserGrowthTotals(users);
    DailyStatsAscending(orders);
    DailyStatsTotals(orders);
    assert m.userGrowth == UserGrowthOf(users);
    assert m.revenueByDay == DailyStatsOf(orders);
  }

  /** What the page promises about the metrics it stores: every fetched user counts in the
      total, admins included, while the daily columns count every user but the admins; the top
      five businesses (all of them when there are fewer) by descending revenue; both charts by
      strictly ascending day; and the daily orders and revenue add up to the totals. */
  lemma MetricsPromises(orders: seq<Order>, users: seq<UserRow>, businesses: seq<Business>,
                        previousOrders: Option<seq<Order>>)
    ensures var m := MetricsOf(orders, users, businesses, previousOrders);
      && m.totalOrders == |orders| && m.totalRevenue == Revenue(orders)
      && m.totalUsers == |users| && m.totalBusinesses == |businesses|
      && m.averageOrderValue == AverageOrderValue(m.totalRevenue, m.totalOrders)
      && m.growthRate == Growth(m.totalRevenue, PreviousRevenue(previousOrders))
      && |m.topPerformingBusinesses| == (if |BusinessStatsOf(orders)| < 5 then |BusinessStatsOf(orders)| else 5)
      && (forall i, j :: 0 <= i < j < |m.topPerformingBusinesses| ==>
            m.topPerformingBusinesses[i].revenue >= m.topPerformingBusinesses[j].revenue)
      && (forall i, j :: 0 <= i < j < |m.userGrowth| ==> m.userGrowth[i].date < m.userGrowth[j].date)
      && SumInt(m.userGrowth, RowCustomers) + SumInt(m.userGrowth, RowVendors) + SumInt(m.userGrowth, RowDrivers)
           == m.totalUsers - SumInt(users, IsAdmin)
      && (forall i, j :: 0 <= i < j < |m.revenueByDay| ==> m.revenueByDay[i].date < m.revenueByDay[j].date)
      && SumInt(m.revenueByDay, DailyOrders) == m.totalOrders
      && Sum(m.revenueByDay, DailyRevenue) == m.totalRevenue
  {
    MetricsFigures(orders, users, businesses, previousOrders);
    MetricsCharts(orders, users, businesses, previousOrders);
  }

  /** The page's state: whether it is loading and the metrics last stored. */
  class PlatformAnalyticsPage {
    var loading: bool
    var metrics: Option<PlatformMetrics>

    constructor()
      ensures loading && metrics.None?
    {
      loading := true;
      metrics := None;
    }

    /** `fetchPlatformMetrics`: a failed fetch of the orders, the users or the businesses is
        logged and leaves the stored metrics as they were; otherwise the metrics are computed
        and stored. Either way the page stops loading. */
    method FetchPlatformMetrics(orders: Result<seq<Order>, string>, users: Result<seq<UserRow>, string>,
                                businesses: Result<seq<Business>, string>, previousOrders: Option<seq<Order>>)
      modifies this
      ensures !loading
      ensures (orders.Failure? || users.Failure? || businesses.Failure?) ==> metrics == old(metrics)
      ensures orders.Success? && users.Success? && businesses.Success? ==>
        metrics == Some(MetricsOf(orders.value, users.value, businesses.value, previousOrders))
    {
      loading := true;
      if orders.Failure? || users.Failure? || businesses.Failure? {
        loading := false;
        return;
      }
      var rows, profiles := orders.value, users.value;
      var totalRevenue := Revenue(rows);
      var totalOrders := |rows|;
      var averageOrderValue := AverageOrderValue(totalRevenue, totalOrders);
      var growthRate := Growth(totalRevenue, PreviousRevenue(previousOrders));
      var businessStats := GroupBy(rows, BusinessNameOf, NoOrders, AddOrder);
      var topPerformingBusinesses := TopBusinesses(businessStats);
      var userGrowthMap := GroupBy(profiles, UserDay, NoUsers, AddUser);
      var userGrowth := SortBy(GrowthRows(userGrowthMap), GrowthDateRank);
      var revenueByDayMap := GroupBy(rows, OrderDay, NoOrders, AddOrder);
      var revenueByDay := SortBy(DailyRows(revenueByDayMap), DateRank);
      metrics := Some(PlatformMetrics(totalRevenue, totalOrders, |profiles|, |businesses.value|,
                                      averageOrderValue, growthRate, topPerformingBusinesses, userGrowth, revenueByDay));
      loading := false;
    }
  }

  /** The record as written, `if (!businessStats[name]) businessStats[name] = {…}`, gives no
      entry to a business whose name an empty object already answers through its prototype. */
  function BusinessStatsAsWritten(orders: seq<Order>): seq<Group<string, Tally>> {
    BusinessStatsOf(OwnKeyed(orders, BusinessNameOf))
  }

  /** As written, the record has one entry per business name among the orders that an empty
      object does not inherit, and none for an inherited name. */
  lemma BusinessStatsAsWrittenKeys(orders: seq<Order>)
    ensures var r := BusinessStatsAsWritten(orders);
      && (forall i, j :: 0 <= i < j < |r| ==> r[i].key != r[j].key)
      && (forall i :: 0 <= i < |r| ==> !InheritedKey(r[i].key) && r[i].key in Map(orders, BusinessNameOf))
      && (forall k :: 0 <= k < |orders| && !InheritedKey(BusinessNameOf(orders[k])) ==>
            HasGroup(r, BusinessNameOf(orders[k])))
  {
    var r := BusinessStatsAsWritten(orders);
    GroupedKeys(OwnKeyed(orders, BusinessNameOf), BusinessNameOf, NoOrders, AddOrder);
    OwnGroupedKeys(orders, BusinessNameOf, NoOrders, AddOrder);
    forall i | 0 <= i < |r| ensures r[i].key in Map(orders, BusinessNameOf) {
      var k :| 0 <= k < |orders| && BusinessNameOf(orders[k]) == r[i].key;
      assert Map(orders, BusinessNameOf)[k] == r[i].key;
    }
  }

  /** An order of a business named, say, "toString" is counted under no business as written,
      so the per-business order counts fall short of the order total. */
  lemma InheritedBusinessNameDropped(orders: seq<Order>, k: int)
    requires 0 <= k < |orders| && InheritedKey(BusinessNameOf(orders[k]))
    ensures forall g :: g in BusinessStatsAsWritten(orders) ==> g.key != BusinessNameOf(orders[k])
    ensures SumInt(BusinessStatsAsWritten(orders), EntryOrders) < |orders|
  {
    var own := OwnKeyed(orders, BusinessNameOf);
    var name := BusinessNameOf(orders[k]);
    GroupedKeys(own, BusinessNameOf, NoOrders, AddOrder);
    forall g | g in BusinessStatsAsWritten(orders) ensures g.key != name {
      var i :| 0 <= i < |BusinessStatsAsWritten(orders)| && BusinessStatsAsWritten(orders)[i] == g;
      var key := Keys(own, BusinessNameOf)[i];
      KeysAreKeysOfElements(own, BusinessNameOf, key);
      var t :| 0 <= t < |own| && BusinessNameOf(own[t]) == key;
      assert own[t] in own;
    }
    BusinessStatsTotals(own);
    OwnKeyedShorter(orders, BusinessNameOf, k);
  }

  /** "toString" is one such name. */
  lemma ToStringIsInherited()
    ensures InheritedKey("toString")
  {}
}
