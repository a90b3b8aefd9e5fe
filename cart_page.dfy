/** The cart page (src/components/Customer/CartPage.tsx): an empty cart shows the empty state;
    otherwise the lines are grouped per vendor by a reduce that pushes each line into its
    vendor's section, and the order summary shows the subtotal, one delivery fee of R25.00 and
    their sum. The minus, plus and bin buttons call the cart's mutators. */
module CartPage {
  import opened Wrappers
  import opened Schema
  import opened Folds
  import opened Grouping
  import opened Cart

  /** The delivery fee the summary adds to the subtotal. */
  const DeliveryFee: real := 25.0

  /** The vendor a cart line belongs to: its product's `business_id`. */
  function VendorOf(item: CartItem): string {
    item.product.businessId
  }

  /** One vendor's section of the page: the business joined to the first line filed under it,
      and the lines themselves. */
  datatype VendorSection = VendorSection(businessId: string, business: Option<Business>, items: seq<CartItem>)

  datatype CartView =
    | EmptyCart
    | CartSummary(sections: seq<VendorSection>, totalItems: int, subtotal: real, deliveryFee: real, total: real)

  function SectionOf(items: seq<CartItem>, businessId: string): VendorSection
    requires businessId in Keys(items, VendorOf)
  {
    ListedKeyHasMembers(items, VendorOf, businessId);
    var lines := Members(items, VendorOf, businessId);
    VendorSection(businessId, lines[0].product.business, lines)
  }

  /** The sections the reduce produces, one per vendor in order of first appearance. */
  function Sections(items: seq<CartItem>): (r: seq<VendorSection>)
    ensures |r| == |Keys(items, VendorOf)|
  {
    var ks := Keys(items, VendorOf);
    seq(|ks|, i requires 0 <= i < |ks| => SectionOf(items, ks[i]))
  }

  /** Renders the page for the current lines. */
  method RenderCart(items: seq<CartItem>) returns (view: CartView)
    ensures items == [] ==> view == EmptyCart
    ensures items != [] ==>
      view == CartSummary(Sections(items), TotalItems(items), TotalPrice(items), DeliveryFee, TotalPrice(items) + DeliveryFee)
  {
    if |items| == 0 {
      return EmptyCart;
    }
    var groups: seq<Group<string, seq<CartItem>>> := GroupBy(items, VendorOf, [], Append);
    CollectedGroups(items, VendorOf);
    var sections: seq<VendorSection> := [];
    var i := 0;
    while i < |groups|
      invariant 0 <= i <= |groups|
      invariant sections == Sections(items)[..i]
    {
      var lines := groups[i].value;
      ListedKeyHasMembers(items, VendorOf, groups[i].key);
      sections := sections + [VendorSection(groups[i].key, lines[0].product.business, lines)];
      i := i + 1;
    }
    view := CartSummary(sections, TotalItems(items), TotalPrice(items), DeliveryFee, TotalPrice(items) + DeliveryFee);
  }

  /** Every line appears in the section of its own vendor and in no other. */
  lemma SectionsPartitionCart(items: seq<CartItem>, i: int)
    requires 0 <= i < |items|
    ensures exists j :: 0 <= j < |Sections(items)| && Sections(items)[j].businessId == VendorOf(items[i])
    ensures forall j :: 0 <= j < |Sections(items)| ==>
      (items[i] in Sections(items)[j].items <==> Sections(items)[j].businessId == VendorOf(items[i]))
  {
    InExactlyOneGroup(items, VendorOf, i);
    var ks := Keys(items, VendorOf);
    var j :| 0 <= j < |ks| && ks[j] == VendorOf(items[i]);
    assert Sections(items)[j].businessId == VendorOf(items[i]);
  }

  /** A section holds exactly its vendor's lines, each once, in cart order. */
  lemma SectionKeepsCartOrder(items: seq<CartItem>, j: int)
    requires 0 <= j < |Sections(items)|
    ensures var section := Sections(items)[j];
      exists idx :: (Embeds(idx, section.items, items)
        && forall i :: 0 <= i < |items| ==> (i in idx <==> VendorOf(items[i]) == section.businessId))
  {
    var k := Keys(items, VendorOf)[j];
    MembersKeepInputOrder(items, VendorOf, k);
    var idx := MemberPositions(items, VendorOf, k);
    assert Embeds(idx, Sections(items)[j].items, items);
  }

  /** The minus button at quantity 1 asks for quantity 0, which removes the line. */
  lemma MinusAtOneRemoves(items: seq<CartItem>, k: int)
    requires 0 <= k < |items| && items[k].quantity == 1
    ensures var r := Updated(items, items[k].product.id, items[k].quantity - 1);
      r == Removed(items, items[k].product.id) && !HasProduct(r, items[k].product.id)
  {
    UpdateNonPositiveRemoves(items, items[k].product.id, 0);
  }

  /** The plus button raises a line's quantity by one and leaves every other line alone. */
  lemma PlusAddsOne(items: seq<CartItem>, k: int)
    requires UniqueIds(items) && 0 <= k < |items| && items[k].quantity >= 0
    ensures var r := Updated(items, items[k].product.id, items[k].quantity + 1);
      && |r| == |items|
      && r[k] == items[k].(quantity := items[k].quantity + 1)
      && (forall j :: 0 <= j < |items| && j != k ==> r[j] == items[j])
      && TotalItems(r) == TotalItems(items) + 1
  {
    UpdatePositive(items, items[k].product.id, items[k].quantity + 1);
    UpdatePositiveTotals(items, items[k].product.id, items[k].quantity + 1, k);
  }
}
