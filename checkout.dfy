/** Placing an order (src/components/Customer/CheckoutPage.tsx): the cart lines are grouped per
    vendor by a reduce that pushes into a record, one order is attempted per vendor with total
    = the vendor's subtotal + the R25 delivery fee, each order's lines snapshot the product's
    price, all attempts settle independently, and the cart is then cleared whatever happened.

    The two inserts of an attempt are the parameters `insertOrder` (the new order's id, or the
    error it was rejected with) and `insertItems` (an error, or nothing on success). */
module Checkout {
  import opened Wrappers
  import opened Schema
  import opened Folds
  import opened Grouping
  import opened Cart
  import CartPage

  /** An `order_items` row before it is linked to its order. */
  datatype OrderItemDraft = OrderItemDraft(productId: string, quantity: int, priceAtPurchase: real)

  /** The order one vendor receives. */
  datatype OrderDraft = OrderDraft(businessId: string, orderTotalAmount: real, items: seq<OrderItemDraft>)

  /** The outcome `Promise.allSettled` reports for one vendor's attempt. */
  datatype Settlement = Fulfilled(orderId: string) | Rejected(reason: string)

  /** The order line copies the product id and quantity and fixes the price paid. */
  function Snapshot(item: CartItem): OrderItemDraft {
    OrderItemDraft(item.product.id, item.quantity, item.product.price)
  }

  function Snapshots(lines: seq<CartItem>): (r: seq<OrderItemDraft>)
    ensures |r| == |lines|
    ensures forall j :: 0 <= j < |lines| ==> r[j] == Snapshot(lines[j])
  {
    if lines == [] then [] else Snapshots(lines[..|lines| - 1]) + [Snapshot(lines[|lines| - 1])]
  }

  /** One vendor's order: subtotal of its lines plus the delivery fee. */
  function DraftFor(businessId: string, lines: seq<CartItem>): OrderDraft {
    OrderDraft(businessId, TotalPrice(lines) + CartPage.DeliveryFee, Snapshots(lines))
  }

  /** The orders checkout attempts: one per vendor, in order of first appearance in the cart. */
  function VendorOrders(items: seq<CartItem>): (r: seq<OrderDraft>)
    ensures |r| == |Keys(items, CartPage.VendorOf)|
  {
    var ks := Keys(items, CartPage.VendorOf);
    seq(|ks|, i requires 0 <= i < |ks| => DraftFor(ks[i], Members(items, CartPage.VendorOf, ks[i])))
  }

  /** One attempt: the order insert, then (only if it succeeded) the items insert. */
  function Settle(draft: OrderDraft, insertOrder: OrderDraft -> Result<string, string>,
                  insertItems: (string, seq<OrderItemDraft>) -> Option<string>): Settlement
  {
    match insertOrder(draft)
    case Failure(e) => Settlement.Rejected(e)
    case Success(orderId) =>
      match insertItems(orderId, draft.items)
      case Some(e) => Settlement.Rejected(e)
      case None => Fulfilled(orderId)
  }

  function SettleAll(drafts: seq<OrderDraft>, insertOrder: OrderDraft -> Result<string, string>,
                     insertItems: (string, seq<OrderItemDraft>) -> Option<string>): (r: seq<Settlement>)
    ensures |r| == |drafts|
    ensures forall i :: 0 <= i < |drafts| ==> r[i] == Settle(drafts[i], insertOrder, insertItems)
  {
    if drafts == [] then []
    else SettleAll(drafts[..|drafts| - 1], insertOrder, insertItems) + [Settle(drafts[|drafts| - 1], insertOrder, insertItems)]
  }

  function OrderTotal(d: OrderDraft): real {
    d.orderTotalAmount
  }

  function OrderSubtotal(d: OrderDraft): real {
    d.orderTotalAmount - CartPage.DeliveryFee
  }

  function DraftLineValue(line: OrderItemDraft): real {
    line.priceAtPurchase * line.quantity as real
  }

  /** The checkout screen's state: the cart it reads and clears, the loading flag, and the
      settled outcomes it hands to the confirmation page. */
  class CheckoutPage {
    const cart: ShoppingCart
    var loading: bool
    var confirmation: seq<Settlement>

    constructor(cart: ShoppingCart)
      ensures this.cart == cart && !loading && confirmation == []
    {
      this.cart := cart;
      loading := false;
      confirmation := [];
    }

    /** `handlePlaceOrder` */
    method PlaceOrder(insertOrder: OrderDraft -> Result<string, string>,
                      insertItems: (string, seq<OrderItemDraft>) -> Option<string>)
      returns (settled: seq<Settlement>)
      modifies this, cart
      ensures settled == SettleAll(VendorOrders(old(cart.items)), insertOrder, insertItems)
      ensures confirmation == settled
      ensures cart.items == []
      ensures !loading
    {
      loading := true;
      var items := cart.items;
      var groups: seq<Group<string, seq<CartItem>>> := GroupBy(items, CartPage.VendorOf, [], Append);
      CollectedGroups(items, CartPage.VendorOf);
      ghost var drafts := VendorOrders(items);
      settled := [];
      var i := 0;
      while i < |groups|
        invariant 0 <= i <= |groups|
        invariant settled == SettleAll(drafts[..i], insertOrder, insertItems)
      {
        var subtotal := TotalPrice(groups[i].value);
        var draft := OrderDraft(groups[i].key, subtotal + CartPage.DeliveryFee, Snapshots(groups[i].value));
        assert draft == drafts[i];
        var outcome := Settle(draft, insertOrder, insertItems);
        assert drafts[..i + 1] == drafts[..i] + [draft];
        settled := settled + [outcome];
        i := i + 1;
      }
      assert drafts[..i] == drafts;
      cart.ClearCart();
      confirmation := settled;
      loading := false;
    }
  }

  /** Each vendor in the cart gets exactly one order, and no vendor gets two. */
  lemma OneOrderPerVendor(items: seq<CartItem>, i: int)
    requires 0 <= i < |items|
    ensures exists j :: 0 <= j < |VendorOrders(items)| && VendorOrders(items)[j].businessId == items[i].product.businessId
    ensures forall a, b :: 0 <= a < b < |VendorOrders(items)| ==> VendorOrders(items)[a].businessId != VendorOrders(items)[b].businessId
  {
    InExactlyOneGroup(items, CartPage.VendorOf, i);
    var ks := Keys(items, CartPage.VendorOf);
    var j :| 0 <= j < |ks| && ks[j] == CartPage.VendorOf(items[i]);
    assert VendorOrders(items)[j].businessId == items[i].product.businessId;
  }

  lemma {:induction false} SnapshotsValue(lines: seq<CartItem>)
    ensures Sum(Snapshots(lines), DraftLineValue) == TotalPrice(lines)
    decreases |lines|
  {
    if lines != [] {
      SnapshotsValue(lines[..|lines| - 1]);
      assert Snapshots(lines)[..|lines| - 1] == Snapshots(lines[..|lines| - 1]);
    }
  }

  /** An order's total is the value of its lines at the prices they were bought at, plus the
      delivery fee; each line carries the product, quantity and current price of its cart line. */
  lemma OrderTotalIsLinesPlusFee(items: seq<CartItem>, j: int)
    requires 0 <= j < |VendorOrders(items)|
    ensures var d := VendorOrders(items)[j];
      var lines := Members(items, CartPage.VendorOf, d.businessId);
      && d.orderTotalAmount == Sum(d.items, DraftLineValue) + 25.0
      && |d.items| == |lines|
      && forall t :: 0 <= t < |lines| ==>
           d.items[t] == OrderItemDraft(lines[t].product.id, lines[t].quantity, lines[t].product.price)
  {
    var k := Keys(items, CartPage.VendorOf)[j];
    SnapshotsValue(Members(items, CartPage.VendorOf, k));
  }

  lemma {:induction false} SumLessFee(ds: seq<OrderDraft>)
    ensures Sum(ds, OrderTotal) == Sum(ds, OrderSubtotal) + 25.0 * |ds| as real
    decreases |ds|
  {
    if ds != [] {
      SumLessFee(ds[..|ds| - 1]);
    }
  }

  /** What checkout charges in all: the cart's price plus one delivery fee per vendor. */
  lemma CheckoutCharges(items: seq<CartItem>)
    ensures Sum(VendorOrders(items), OrderTotal)
      == TotalPrice(items) + 25.0 * |Keys(items, CartPage.VendorOf)| as real
  {
    var ds := VendorOrders(items);
    var ks := Keys(items, CartPage.VendorOf);
    forall i | 0 <= i < |ds|
      ensures OrderSubtotal(ds[i]) == Sum(Members(items, CartPage.VendorOf, ks[i]), LinePrice)
    {}
    GroupTotals(ds, OrderSubtotal, items, CartPage.VendorOf, LinePrice);
    SumLessFee(ds);
  }

  /** The total the cart page shows, with one fee, as it is written. */
  function DisplayedTotal(items: seq<CartItem>): (t: real)
    ensures |Keys(items, CartPage.VendorOf)| == 1 ==> t == Sum(VendorOrders(items), OrderTotal)
  {
    CheckoutCharges(items);
    TotalPrice(items) + CartPage.DeliveryFee
  }

  /** The total the cart page would show if it charged the fee the way checkout does. */
  function ChargedTotal(items: seq<CartItem>): (t: real)
    ensures t == Sum(VendorOrders(items), OrderTotal)
  {
    CheckoutCharges(items);
    TotalPrice(items) + CartPage.DeliveryFee * |Keys(items, CartPage.VendorOf)| as real
  }

  /** With lines from more than one vendor, the cart page understates the amount checkout
      charges by R25 for every vendor after the first. */
  lemma DisplayedTotalUnderstatesCharge(items: seq<CartItem>)
    requires |Keys(items, CartPage.VendorOf)| >= 2
    ensures Sum(VendorOrders(items), OrderTotal) - DisplayedTotal(items)
      == 25.0 * (|Keys(items, CartPage.VendorOf)| - 1) as real
    ensures DisplayedTotal(items) < Sum(VendorOrders(items), OrderTotal)
  {
    CheckoutCharges(items);
  }

  /** The corrected total agrees with what checkout charges, for every cart. */
  lemma ChargedTotalMatchesCheckout(items: seq<CartItem>)
    ensures ChargedTotal(items) == Sum(VendorOrders(items), OrderTotal)
    ensures |Keys(items, CartPage.VendorOf)| == 1 ==> ChargedTotal(items) == DisplayedTotal(items)
  {
    CheckoutCharges(items);
  }
}
