/** The vendor's analytics tab (src/components/Vendor/AnalyticsTab.tsx): over the business's
    delivered orders of the chosen period (fetched with their items and each item's product
    name), the total revenue, the order count and the average order value; per product the
    quantity sold and the revenue, of which the five best by revenue are shown; per day the
    order count and the revenue, by ascending date; and the growth over the previous period.
    The two fetches are parameters: the current one either fails (nothing is stored) or yields
    the orders, the previous one yields its orders or nothing. */
module VendorAnalytics {
  import opened Wrappers
  import opened Schema
  import opened Folds
  import opened Grouping
  import opened Sorting
  import opened Analytics

  /** `item.product?.name || 'Unknown Product'`: a missing or empty name files the item under
      'Unknown Product'. */
  function ProductName(item: OrderItem): string {
    match item.productName
    case Some(name) => if name != "" then name else "Unknown Product"
    case None => "Unknown Product"
  }

  datatype ProductStats = ProductStats(quantity: int, revenue: real)

  const NoProductStats := ProductStats(0, 0.0)

  function ItemQuantity(item: OrderItem): int {
    item.quantity
  }

  /** `Number(item.price_at_purchase) * item.quantity` */
  function ItemRevenue(item: OrderItem): real {
    item.priceAtPurchase * (item.quantity as real)
  }

  /** `stats.quantity += item.quantity; stats.revenue += price_at_purchase * quantity` */
  function AddItem(s: ProductStats, item: OrderItem): ProductStats {
    ProductStats(s.quantity + item.quantity, s.revenue + ItemRevenue(item))
  }

  /** The items of the orders, order after order, each order's items in their own order. */
  function Items(orders: seq<Order>): seq<OrderItem> {
    if orders == [] then [] else Items(orders[..|orders| - 1]) + orders[|orders| - 1].orderItems
  }

  lemma ItemsSnoc(orders: seq<Order>, o: Order)
    ensures Items(orders + [o]) == Items(orders) + o.orderItems
  {
    assert (orders + [o])[..|orders|] == orders;
  }

  /** `productStats`, entry by entry in insertion order. */
  function ProductStatsOf(orders: seq<Order>): seq<Group<string, ProductStats>> {
    Grouped(Items(orders), ProductName, NoProductStats, AddItem)
  }

  /** The record has one entry per product name among the items: no name twice, none that no
      item carries, and none missing. */
  lemma ProductStatsKeys(orders: seq<Order>)
    ensures var r := ProductStatsOf(orders);
      && (forall i, j :: 0 <= i < j < |r| ==> r[i].key != r[j].key)
      && (forall i :: 0 <= i < |r| ==> r[i].key in Map(Items(orders), ProductName))
      && (forall k :: 0 <= k < |Items(orders)| ==> HasGroup(r, ProductName(Items(orders)[k])))
  {
    var r, items := ProductStatsOf(orders), Items(orders);
    GroupedKeys(items, ProductName, NoProductStats, AddItem);
    GroupedCoversKeys(items, ProductName, NoProductStats, AddItem);
    forall i | 0 <= i < |r| ensures r[i].key in Map(items, ProductName) {
      var k :| 0 <= k < |items| && ProductName(items[k]) == r[i].key;
      assert Map(items, ProductName)[k] == r[i].key;
    }
  }

  /** The nested `forEach`: over the orders, and within each order over its items, one
      record update per item. */
  method CollectProductStats(orders: seq<Order>) returns (stats: seq<Group<string, ProductStats>>)
    ensures stats == ProductStatsOf(orders)
  {
    stats := [];
    var i := 0;
    while i < |orders|
      invariant 0 <= i <= |orders|
      invariant stats == Grouped(Items(orders[..i]), ProductName, NoProductStats, AddItem)
    {
      stats := AddAllToGroups(Items(orders[..i]), stats, orders[i].orderItems, ProductName, NoProductStats, AddItem);
      assert orders[..i + 1] == orders[..i] + [orders[i]];
      ItemsSnoc(orders[..i], orders[i]);
      i := i + 1;
    }
    assert orders[..i] == orders;
  }

  /** Folding the updates over some items gives their total quantity and total revenue. */
  lemma {:induction false} FoldProductStats(items: seq<OrderItem>)
    ensures Fold(items, NoProductStats, AddItem) == ProductStats(SumInt(items, ItemQuantity), Sum(items, ItemRevenue))
    decreases |items|
  {
    if items != [] {
      FoldProductStats(items[..|items| - 1]);
    }
  }

  /** Each product's entry holds the quantity and the revenue of exactly that product's items. */
  lemma ProductStatsAreSums(orders: seq<Order>, i: int)
    requires 0 <= i < |ProductStatsOf(orders)|
    ensures var g := ProductStatsOf(orders)[i];
      var own := Members(Items(orders), ProductName, g.key);
      g.value == ProductStats(SumInt(own, ItemQuantity), Sum(own, ItemRevenue))
  {
    FoldProductStats(Members(Items(orders), ProductName, Keys(Items(orders), ProductName)[i]));
  }

  function EntryQuantity(g: Group<string, ProductStats>): int {
    g.value.quantity
  }

  function EntryRevenue(g: Group<string, ProductStats>): real {
    g.value.revenue
  }

  /** Every item is counted under exactly one product: the entries' quantities add up to all the
      quantities sold and their revenues to all the items' revenue. */
  lemma ProductStatsTotals(orders: seq<Order>)
    ensures SumInt(ProductStatsOf(orders), EntryQuantity) == SumInt(Items(orders), ItemQuantity)
    ensures Sum(ProductStatsOf(orders), EntryRevenue) == Sum(Items(orders), ItemRevenue)
  {
    var stats := ProductStatsOf(orders);
    forall i | 0 <= i < |stats|
      ensures EntryQuantity(stats[i]) == SumInt(Members(Items(orders), ProductName, Keys(Items(orders), ProductName)[i]), ItemQuantity)
      ensures EntryRevenue(stats[i]) == Sum(Members(Items(orders), ProductName, Keys(Items(orders), ProductName)[i]), ItemRevenue)
    {
      ProductStatsAreSums(orders, i);
    }
    GroupIntTotals(stats, EntryQuantity, Items(orders), ProductName, ItemQuantity);
    GroupTotals(stats, EntryRevenue, Items(orders), ProductName, ItemRevenue);
  }

  /** Every item has an entry under its product's name, and an item whose product has no name
      (or an empty one) is counted under 'Unknown Product'. */
  lemma EveryItemListed(orders: seq<Order>, k: int)
    requires 0 <= k < |Items(orders)|
    ensures var item := Items(orders)[k];
      exists i :: 0 <= i < |ProductStatsOf(orders)| && ProductStatsOf(orders)[i].key == ProductName(item)
        && item in Members(Items(orders), ProductName, ProductStatsOf(orders)[i].key)
    ensures var item := Items(orders)[k];
      (item.productName.None? || item.productName == Some("")) ==> ProductName(item) == "Unknown Product"
  {
    var items := Items(orders);
    InExactlyOneGroup(items, ProductName, k);
    var i :| 0 <= i < |Keys(items, ProductName)| && Keys(items, ProductName)[i] == ProductName(items[k]);
    assert ProductStatsOf(orders)[i].key == ProductName(items[k]);
  }

  /** An entry of the top-products list. */
  datatype TopProduct = TopProduct(name: string, quantity: int, revenue: real)

  /** `Object.entries(productStats).map(([name, stats]) => ({ name, ...stats }))` */
  function Entries(stats: seq<Group<string, ProductStats>>): (r: seq<TopProduct>)
    ensures |r| == |stats|
    ensures forall i :: 0 <= i < |stats| ==>
      r[i] == TopProduct(stats[i].key, stats[i].value.quantity, stats[i].value.revenue)
  {
    if stats == [] then []
    else
      var g := stats[|stats| - 1];
      Entries(stats[..|stats| - 1]) + [TopProduct(g.key, g.value.quantity, g.value.revenue)]
  }

  /** The comparator `(a, b) => b.revenue - a.revenue` sorts ascending by minus the revenue. */
  function RevenueDescending(p: TopProduct): real {
    -p.revenue
  }

  /** `.sort((a, b) => b.revenue - a.revenue).slice(0, 5)` */
  function TopProducts(stats: seq<Group<string, ProductStats>>): (top: seq<TopProduct>)
    ensures |top| == if |stats| < 5 then |stats| else 5
    ensures forall i, j :: 0 <= i < j < |top| ==> top[i].revenue >= top[j].revenue
    ensures multiset(top) <= multiset(Entries(stats))
  {
    TopByRank(Entries(stats), RevenueDescending, 5);
    Take(SortBy(Entries(stats), RevenueDescending), 5)
  }

  /** No product left out of the top five earned more than one that was kept. */
  lemma TopProductsBeatTheRest(stats: seq<Group<string, ProductStats>>, q: TopProduct)
    requires q in Entries(stats) && q !in TopProducts(stats)
    ensures forall p :: p in TopProducts(stats) ==> p.revenue >= q.revenue
  {
    LeftOutRanksNoLower(Entries(stats), RevenueDescending, 5, q);
  }

  /** What the tab stores after a successful fetch. */
  datatype VendorAnalyticsData = VendorAnalyticsData(
    totalRevenue: real,
    totalOrders: int,
    averageOrderValue: real,
    topProducts: seq<TopProduct>,
    dailyStats: seq<DailyStats>,
    monthlyGrowth: real)

  /** The figures of a period. */
  function AnalyticsOf(orders: seq<Order>, previousOrders: Option<seq<Order>>): (a: VendorAnalyticsData)
    ensures a.totalOrders == |orders| && SumInt(a.dailyStats, DailyOrders) == |orders|
    ensures a.totalRevenue == Revenue(orders) && Sum(a.dailyStats, DailyRevenue) == Revenue(orders)
  {
    DailyStatsTotals(orders);
    var revenue := Revenue(orders);
    VendorAnalyticsData(
      revenue,
      |orders|,
      AverageOrderValue(revenue, |orders|),
      TopProducts(ProductStatsOf(orders)),
      DailyStatsOf(orders),
      Growth(revenue, PreviousRevenue(previousOrders)))
  }

  /** What the tab promises about the figures it stores: the order count and revenue of the
      period, the average and the growth as `AverageOrderValue` and `Growth` define them, the top
      five products (all of them when there are fewer) by descending revenue, and the days strictly ascending and adding up to
      the totals. */
  lemma AnalyticsPromises(orders: seq<Order>, previousOrders: Option<seq<Order>>)
    ensures var a := AnalyticsOf(orders, previousOrders);
      && a.totalOrders == |orders| && a.totalRevenue == Revenue(orders)
      && a.averageOrderValue == AverageOrderValue(a.totalRevenue, a.totalOrders)
      && |a.topProducts| == (if |ProductStatsOf(orders)| < 5 then |ProductStatsOf(orders)| else 5)
      && (forall i, j :: 0 <= i < j < |a.topProducts| ==> a.topProducts[i].revenue >= a.topProducts[j].revenue)
      && (forall i, j :: 0 <= i < j < |a.dailyStats| ==> a.dailyStats[i].date < a.dailyStats[j].date)
      && SumInt(a.dailyStats, DailyOrders) == a.totalOrders
      && Sum(a.dailyStats, DailyRevenue) == a.totalRevenue
      && a.monthlyGrowth == Growth(a.totalRevenue, PreviousRevenue(previousOrders))
  {
    AnalyticsFigures(orders, previousOrders);
    AnalyticsDays(orders, previousOrders);
  }

  /** The average, the growth and the top five of the stored figures. */
  lemma AnalyticsFigures(orders: seq<Order>, previousOrders: Option<seq<Order>>)
    ensures var a := AnalyticsOf(orders, previousOrders);
      && a.averageOrderValue == AverageOrderValue(a.totalRevenue, a.totalOrders)
      && |a.topProducts| == (if |ProductStatsOf(orders)| < 5 then |ProductStatsOf(orders)| else 5)
      && (forall i, j :: 0 <= i < j < |a.topProducts| ==> a.topProducts[i].revenue >= a.topProducts[j].revenue)
      && a.monthlyGrowth == Growth(a.totalRevenue, PreviousRevenue(previousOrders))
  {
    var a := AnalyticsOf(orders, previousOrders);
    assert a.topProducts == TopProducts(ProductStatsOf(orders));
  }

  /** The days of the stored chart come in strictly ascending order. */
  lemma AnalyticsDays(orders: seq<Order>, previousOrders: Option<seq<Order>>)
    ensures var a := AnalyticsOf(orders, previousOrders);
      forall i, j :: 0 <= i < j < |a.dailyStats| ==> a.dailyStats[i].date < a.dailyStats[j].date
  {
    var a := AnalyticsOf(orders, previousOrders);
    DailyStatsAscending(orders);
    assert a.dailyStats == DailyStatsOf(orders);
  }

  /** The tab's state: whether it is loading and the figures last stored. */
  class AnalyticsTab {
    var loading: bool
    var analytics: Option<VendorAnalyticsData>

    constructor()
      ensures loading && analytics.None?
    {
      loading := true;
      analytics := None;
    }

    /** `fetchAnalytics`: a failed fetch of the period's orders is logged and leaves the stored
        figures as they were; otherwise the figures are computed and stored. Either way the
        tab stops loading. */
    method FetchAnalytics(orders: Result<seq<Order>, string>, previousOrders: Option<seq<Order>>)
      modifies this
      ensures !loading
      ensures orders.Failure? ==> analytics == old(analytics)
      ensures orders.Success? ==> analytics == Some(AnalyticsOf(orders.value, previousOrders))
    {
      loading := true;
      if orders.Failure? {
        loading := false;
        return;
      }
      var rows := orders.value;
      var totalRevenue := Revenue(rows);
      var totalOrders := |rows|;
      var averageOrderValue := AverageOrderValue(totalRevenue, totalOrders);
      var productStats := CollectProductStats(rows);
      var topProducts := TopProducts(productStats);
      var dailyStatsMap := GroupBy(rows, OrderDay, NoOrders, AddOrder);
      var dailyStats := SortBy(DailyRows(dailyStatsMap), DateRank);
      var monthlyGrowth := Growth(totalRevenue, PreviousRevenue(previousOrders));
      analytics := Some(VendorAnalyticsData(totalRevenue, totalOrders, averageOrderValue, topProducts, dailyStats, monthlyGrowth));
      loading := false;
    }
  }

  /** The record as written, `if (!productStats[name]) productStats[name] = {…}`, gives no entry
      to a product whose name an empty object already answers through its prototype. */
  function ProductStatsAsWritten(orders: seq<Order>): seq<Group<string, ProductStats>> {
    Grouped(OwnKeyed(Items(orders), ProductName), ProductName, NoProductStats, AddItem)
  }

  /** As written, the record has one entry per product name among the items that an empty
      object does not inherit, and none for an inherited name. */
  lemma ProductStatsAsWrittenKeys(orders: seq<Order>)
    ensures var r := ProductStatsAsWritten(orders);
      && (forall i, j :: 0 <= i < j < |r| ==> r[i].key != r[j].key)
      && (forall i :: 0 <= i < |r| ==> !InheritedKey(r[i].key) && r[i].key in Map(Items(orders), ProductName))
      && (forall k :: 0 <= k < |Items(orders)| && !InheritedKey(ProductName(Items(orders)[k])) ==>
            HasGroup(r, ProductName(Items(orders)[k])))
  {
    var r, items := ProductStatsAsWritten(orders), Items(orders);
    GroupedKeys(OwnKeyed(items, ProductName), ProductName, NoProductStats, AddItem);
    OwnGroupedKeys(items, ProductName, NoProductStats, AddItem);
    forall i | 0 <= i < |r| ensures r[i].key in Map(items, ProductName) {
      var k :| 0 <= k < |items| && ProductName(items[k]) == r[i].key;
      assert Map(items, ProductName)[k] == r[i].key;
    }
  }

  /** An item of a product named, say, "constructor" has no entry as written, and its quantity
      is missing from the entries' total. */
  lemma InheritedProductNameDropped(orders: seq<Order>, k: int)
    requires 0 <= k < |Items(orders)| && InheritedKey(ProductName(Items(orders)[k]))
    ensures forall g :: g in ProductStatsAsWritten(orders) ==> g.key != ProductName(Items(orders)[k])
    ensures |OwnKeyed(Items(orders), ProductName)| < |Items(orders)|
  {
    var items := Items(orders);
    var own := OwnKeyed(items, ProductName);
    var name := ProductName(items[k]);
    forall g | g in ProductStatsAsWritten(orders) ensures g.key != name {
      var i :| 0 <= i < |ProductStatsAsWritten(orders)| && ProductStatsAsWritten(orders)[i] == g;
      var key := Keys(own, ProductName)[i];
      assert g.key == key;
      KeysAreKeysOfElements(own, ProductName, key);
      var t :| 0 <= t < |own| && ProductName(own[t]) == key;
      assert own[t] in own;
    }
    OwnKeyedShorter(items, ProductName, k);
  }

  /** A product named "constructor" is one such name. */
  lemma ConstructorIsInherited()
    ensures InheritedKey("constructor")
  {}
}
