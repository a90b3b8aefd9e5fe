/** The shopping cart hook (src/hooks/useCart.ts): a list of (product, quantity) lines kept in
    component state. The four mutators replace the list through the state setter; the three
    getters are a find and two reduces over it.

    Each mutator is a method of `ShoppingCart` whose new list is given by a function of the old
    one (`Added`, `Removed`, `Updated`); what the hook promises is proved about those functions. */
module Cart {
  import opened Schema
  import opened Folds

  datatype CartItem = CartItem(product: Product, quantity: int)

  predicate HasProduct(items: seq<CartItem>, id: string) {
    exists i :: 0 <= i < |items| && items[i].product.id == id
  }

  /** No two lines of the cart are for the same product. */
  predicate UniqueIds(items: seq<CartItem>) {
    forall i, j :: 0 <= i < j < |items| ==> items[i].product.id != items[j].product.id
  }

  /** `items.map(item => item.product.id === id ? { ...item, quantity: item.quantity + q } : item)` */
  function Bumped(items: seq<CartItem>, id: string, q: int): (r: seq<CartItem>)
    ensures |r| == |items|
    ensures forall i :: 0 <= i < |items| ==>
      r[i] == if items[i].product.id == id then items[i].(quantity := items[i].quantity + q) else items[i]
  {
    if items == [] then []
    else
      var last := items[|items| - 1];
      Bumped(items[..|items| - 1], id, q) + [if last.product.id == id then last.(quantity := last.quantity + q) else last]
  }

  /** `items.map(item => item.product.id === id ? { ...item, quantity: q } : item)` */
  function Requantified(items: seq<CartItem>, id: string, q: int): (r: seq<CartItem>)
    ensures |r| == |items|
    ensures forall i :: 0 <= i < |items| ==>
      r[i] == if items[i].product.id == id then items[i].(quantity := q) else items[i]
  {
    if items == [] then []
    else
      var last := items[|items| - 1];
      Requantified(items[..|items| - 1], id, q) + [if last.product.id == id then last.(quantity := q) else last]
  }

  /** `addToCart(product, quantity)`: merge into the existing line for the product, or append a
      new line. */
  function Added(items: seq<CartItem>, product: Product, quantity: int): seq<CartItem> {
    if HasProduct(items, product.id) then Bumped(items, product.id, quantity)
    else items + [CartItem(product, quantity)]
  }

  /** `removeFromCart(id)` */
  function Removed(items: seq<CartItem>, id: string): seq<CartItem> {
    Filter(items, (item: CartItem) => item.product.id != id)
  }

  /** `updateQuantity(id, quantity)`: a quantity of zero or less removes the line. */
  function Updated(items: seq<CartItem>, id: string, quantity: int): seq<CartItem> {
    if quantity <= 0 then Removed(items, id) else Requantified(items, id, quantity)
  }

  /** `getItemQuantity(id)`: the quantity of the first line for the product, 0 when there is none. */
  function ItemQuantity(items: seq<CartItem>, id: string): (q: int)
    ensures !HasProduct(items, id) ==> q == 0
    ensures HasProduct(items, id) ==>
      exists i :: 0 <= i < |items| && items[i].product.id == id && q == items[i].quantity
        && forall j :: 0 <= j < i ==> items[j].product.id != id
  {
    if items == [] then 0
    else if items[0].product.id == id then
      items[0].quantity
    else
      var q := ItemQuantity(items[1..], id);
      assert HasProduct(items, id) ==> HasProduct(items[1..], id) by {
        if HasProduct(items, id) {
          var i :| 0 <= i < |items| && items[i].product.id == id;
          assert items[1..][i - 1] == items[i];
        }
      }
      assert HasProduct(items[1..], id) ==> HasProduct(items, id) by {
        if HasProduct(items[1..], id) {
          var i :| 0 <= i < |items[1..]| && items[1..][i].product.id == id;
          assert items[i + 1] == items[1..][i];
        }
      }
      if HasProduct(items[1..], id) then
        var i :| 0 <= i < |items[1..]| && items[1..][i].product.id == id && q == items[1..][i].quantity
          && forall j :: 0 <= j < i ==> items[1..][j].product.id != id;
        assert items[i + 1] == items[1..][i];
        assert forall j :: 1 <= j < i + 1 ==> items[j] == items[1..][j - 1];
        q
      else
        q
  }

  function LineQuantity(item: CartItem): int {
    item.quantity
  }

  function LinePrice(item: CartItem): real {
    item.product.price * item.quantity as real
  }

  /** `getTotalItems()` */
  function TotalItems(items: seq<CartItem>): (n: int)
    ensures (forall k :: 0 <= k < |items| ==> items[k].quantity >= 1) ==> n >= |items|
  {
    SumIntAtLeastCount(items, LineQuantity);
    SumInt(items, LineQuantity)
  }

  /** `getTotalPrice()` */
  function TotalPrice(items: seq<CartItem>): (p: real)
    ensures (forall k :: 0 <= k < |items| ==> items[k].quantity >= 0 && items[k].product.price >= 0.0) ==> p >= 0.0
  {
    SumNonNegative(items, LinePrice);
    Sum(items, LinePrice)
  }

  lemma {:induction false} RequantifiedAbsent(items: seq<CartItem>, id: string, q: int)
    requires !HasProduct(items, id)
    ensures Requantified(items, id, q) == items
  {}

  lemma LinePriceBump(item: CartItem, q: int)
    ensures LinePrice(item.(quantity := item.quantity + q)) == LinePrice(item) + item.product.price * q as real
  {
    var p := item.product.price;
    assert p * (item.quantity + q) as real == p * item.quantity as real + p * q as real;
  }

  lemma LinePriceShift(item: CartItem, q: int)
    ensures LinePrice(item.(quantity := q)) == LinePrice(item) + item.product.price * (q - item.quantity) as real
  {
    var p := item.product.price;
    assert p * q as real == p * item.quantity as real + p * (q - item.quantity) as real;
  }

  /** In a cart without repeated products, the line for a product is the only one with its id. */
  lemma OnlyLineOf(items: seq<CartItem>, id: string, k: int)
    requires UniqueIds(items)
    requires 0 <= k < |items| && items[k].product.id == id
    ensures forall i :: 0 <= i < |items| && i != k ==> items[i].product.id != id
  {
    forall i | 0 <= i < |items| && i != k ensures items[i].product.id != id {
      if i < k {
        assert items[i].product.id != items[k].product.id;
      } else {
        assert items[k].product.id != items[i].product.id;
      }
    }
  }

  /** Raising the quantity of the one line for a product moves the totals by that line alone. */
  lemma BumpedTotals(items: seq<CartItem>, id: string, q: int, k: int)
    requires UniqueIds(items)
    requires 0 <= k < |items| && items[k].product.id == id
    ensures TotalItems(Bumped(items, id, q)) == TotalItems(items) + q
    ensures TotalPrice(Bumped(items, id, q)) == TotalPrice(items) + items[k].product.price * q as real
  {
    var r := Bumped(items, id, q);
    OnlyLineOf(items, id, k);
    forall i | 0 <= i < |items| && i != k ensures r[i] == items[i] {
      assert items[i].product.id != id;
    }
    assert r[k] == items[k].(quantity := items[k].quantity + q);
    SumIntReplaceOne(items, r, k, LineQuantity);
    SumReplaceOne(items, r, k, LinePrice);
    var before, after, delta := LinePrice(items[k]), LinePrice(r[k]), items[k].product.price * q as real;
    assert after == before + delta by {
      LinePriceBump(items[k], q);
    }
    assert Sum(r, LinePrice) == Sum(items, LinePrice) - before + after;
  }

  /** Setting the quantity of the one line for a product moves the totals by that line alone. */
  lemma RequantifiedTotals(items: seq<CartItem>, id: string, q: int, k: int)
    requires UniqueIds(items)
    requires 0 <= k < |items| && items[k].product.id == id
    ensures TotalItems(Requantified(items, id, q)) == TotalItems(items) - items[k].quantity + q
    ensures TotalPrice(Requantified(items, id, q))
      == TotalPrice(items) + items[k].product.price * (q - items[k].quantity) as real
  {
    var r := Requantified(items, id, q);
    OnlyLineOf(items, id, k);
    forall i | 0 <= i < |items| && i != k ensures r[i] == items[i] {
      assert items[i].product.id != id;
    }
    assert r[k] == items[k].(quantity := q);
    SumIntReplaceOne(items, r, k, LineQuantity);
    SumReplaceOne(items, r, k, LinePrice);
    var before, after, delta := LinePrice(items[k]), LinePrice(r[k]), items[k].product.price * (q - items[k].quantity) as real;
    assert after == before + delta by {
      LinePriceShift(items[k], q);
    }
    assert Sum(r, LinePrice) == Sum(items, LinePrice) - before + after;
  }

  /** Adding a product that already has a line raises that line's quantity by the added amount
      and keeps its stored product (and so its stored price); the length and every other line
      stay as they were, and both totals grow accordingly. */
  lemma AddExisting(items: seq<CartItem>, product: Product, quantity: int, k: int)
    requires UniqueIds(items)
    requires 0 <= k < |items| && items[k].product.id == product.id
    ensures var r := Added(items, product, quantity);
      && |r| == |items|
      && r[k] == CartItem(items[k].product, items[k].quantity + quantity)
      && (forall i :: 0 <= i < |items| && i != k ==> r[i] == items[i])
      && ItemQuantity(r, product.id) == ItemQuantity(items, product.id) + quantity
      && TotalItems(r) == TotalItems(items) + quantity
      && TotalPrice(r) == TotalPrice(items) + items[k].product.price * quantity as real
  {
    var r := Added(items, product, quantity);
    assert HasProduct(items, product.id);
    BumpedTotals(items, product.id, quantity, k);
    assert HasProduct(r, product.id) by {
      assert r[k].product.id == product.id;
    }
  }

  /** Adding a product with no line appends exactly one line at the end. */
  lemma AddNew(items: seq<CartItem>, product: Product, quantity: int)
    requires !HasProduct(items, product.id)
    ensures var r := Added(items, product, quantity);
      && r == items + [CartItem(product, quantity)]
      && ItemQuantity(r, product.id) == quantity
      && TotalItems(r) == TotalItems(items) + quantity
      && TotalPrice(r) == TotalPrice(items) + product.price * quantity as real
  {
    var r := Added(items, product, quantity);
    assert r[..|items|] == items;
    assert HasProduct(r, product.id) by {
      assert r[|items|].product.id == product.id;
    }
  }

  /** Removing a product drops every line for it and keeps every other line, in order. */
  lemma RemoveDropsProduct(items: seq<CartItem>, id: string)
    ensures var r := Removed(items, id);
      && !HasProduct(r, id)
      && ItemQuantity(r, id) == 0
      && (forall item :: item in items && item.product.id != id ==> item in r)
      && (forall item :: item in r ==> item in items)
      && (!HasProduct(items, id) ==> r == items)
  {
    var r := Removed(items, id);
    forall i | 0 <= i < |r| ensures r[i].product.id != id {
      assert r[i] in r;
    }
    if !HasProduct(items, id) {
      forall item | item in items ensures item.product.id != id {
        var i :| 0 <= i < |items| && items[i] == item;
      }
      FilterAll(items, (item: CartItem) => item.product.id != id);
    }
  }

  /** Removing the one line of a present product shortens the cart by one and takes that line's
      amounts off both totals. */
  lemma {:induction false} RemoveTotals(items: seq<CartItem>, id: string, k: int)
    requires UniqueIds(items)
    requires 0 <= k < |items| && items[k].product.id == id
    ensures |Removed(items, id)| == |items| - 1
    ensures TotalItems(Removed(items, id)) == TotalItems(items) - items[k].quantity
    ensures TotalPrice(Removed(items, id)) == TotalPrice(items) - LinePrice(items[k])
    decreases |items|
  {
    var n := |items|;
    var front, last := items[..n - 1], items[n - 1];
    assert items == front + [last];
    if k == n - 1 {
      assert !HasProduct(front, id);
      RemoveDropsProduct(front, id);
      assert Removed(items, id) == Removed(front, id);
    } else {
      RemoveTotals(front, id, k);
      assert Removed(items, id) == Removed(front, id) + [last];
      SumConcat(Removed(front, id), [last], LinePrice);
      SumIntConcat(Removed(front, id), [last], LineQuantity);
    }
  }

  /** `updateQuantity` with a quantity of zero or less is `removeFromCart`. */
  lemma UpdateNonPositiveRemoves(items: seq<CartItem>, id: string, quantity: int)
    requires quantity <= 0
    ensures Updated(items, id, quantity) == Removed(items, id)
    ensures !HasProduct(Updated(items, id, quantity), id)
  {
    RemoveDropsProduct(items, id);
  }

  /** `updateQuantity` with a positive quantity sets the quantity of the product's line and
      touches nothing else; for a product with no line it changes nothing. */
  lemma UpdatePositive(items: seq<CartItem>, id: string, quantity: int)
    requires quantity > 0
    ensures var r := Updated(items, id, quantity);
      && |r| == |items|
      && (forall i :: 0 <= i < |items| ==> r[i].product == items[i].product)
      && (forall i :: 0 <= i < |items| ==>
            r[i].quantity == if items[i].product.id == id then quantity else items[i].quantity)
      && (HasProduct(items, id) ==> ItemQuantity(r, id) == quantity)
      && (!HasProduct(items, id) ==> r == items)
  {
    var r := Updated(items, id, quantity);
    if HasProduct(items, id) {
      var i :| 0 <= i < |items| && items[i].product.id == id;
      assert HasProduct(r, id) by { assert r[i].product.id == id; }
    } else {
      RequantifiedAbsent(items, id, quantity);
    }
  }

  /** The line counts and amounts before and after a positive `updateQuantity`. */
  lemma UpdatePositiveTotals(items: seq<CartItem>, id: string, quantity: int, k: int)
    requires quantity > 0 && UniqueIds(items)
    requires 0 <= k < |items| && items[k].product.id == id
    ensures TotalItems(Updated(items, id, quantity)) == TotalItems(items) - items[k].quantity + quantity
    ensures TotalPrice(Updated(items, id, quantity))
      == TotalPrice(items) + items[k].product.price * (quantity - items[k].quantity) as real
  {
    RequantifiedTotals(items, id, quantity, k);
  }

  /** An empty cart has no items and costs nothing, and no product has a quantity in it. */
  lemma ClearedTotals(id: string)
    ensures TotalItems([]) == 0 && TotalPrice([]) == 0.0 && ItemQuantity([], id) == 0
  {}

  /** All four mutators keep product ids unique. */
  lemma AddedKeepsIdsUnique(items: seq<CartItem>, product: Product, quantity: int)
    requires UniqueIds(items)
    ensures UniqueIds(Added(items, product, quantity))
  {
    if !HasProduct(items, product.id) {
      var r := Added(items, product, quantity);
      forall i, j | 0 <= i < j < |r| ensures r[i].product.id != r[j].product.id {
        if j == |items| {
          assert r[i] == items[i];
        }
      }
    }
  }

  lemma {:induction false} RemovedKeepsIdsUnique(items: seq<CartItem>, id: string)
    requires UniqueIds(items)
    ensures UniqueIds(Removed(items, id))
    decreases |items|
  {
    if items != [] {
      var n := |items|;
      var front, last := items[..n - 1], items[n - 1];
      RemovedKeepsIdsUnique(front, id);
      var rf := Removed(front, id);
      var r := Removed(items, id);
      if last.product.id != id {
        assert r == rf + [last];
        forall i | 0 <= i < |rf| ensures rf[i].product.id != last.product.id {
          assert rf[i] in rf;
          var j :| 0 <= j < |front| && front[j] == rf[i];
        }
      }
    }
  }

  lemma UpdatedKeepsIdsUnique(items: seq<CartItem>, id: string, quantity: int)
    requires UniqueIds(items)
    ensures UniqueIds(Updated(items, id, quantity))
  {
    if quantity <= 0 {
      RemovedKeepsIdsUnique(items, id);
    }
  }

  /** The cart state of one page. */
  class ShoppingCart {
    var items: seq<CartItem>

    constructor()
      ensures items == []
    {
      items := [];
    }

    method AddToCart(product: Product, quantity: int := 1)
      modifies this
      ensures items == Added(old(items), product, quantity)
      ensures UniqueIds(old(items)) ==> UniqueIds(items)
    {
      if UniqueIds(items) {
        AddedKeepsIdsUnique(items, product, quantity);
      }
      items := Added(items, product, quantity);
    }

    method RemoveFromCart(productId: string)
      modifies this
      ensures items == Removed(old(items), productId)
      ensures UniqueIds(old(items)) ==> UniqueIds(items)
    {
      if UniqueIds(items) {
        RemovedKeepsIdsUnique(items, productId);
      }
      items := Removed(items, productId);
    }

    method UpdateQuantity(productId: string, quantity: int)
      modifies this
      ensures items == Updated(old(items), productId, quantity)
      ensures UniqueIds(old(items)) ==> UniqueIds(items)
    {
      if quantity <= 0 {
        RemoveFromCart(productId);
        return;
      }
      if UniqueIds(items) {
        UpdatedKeepsIdsUnique(items, productId, quantity);
      }
      items := Requantified(items, productId, quantity);
    }

    method ClearCart()
      modifies this
      ensures items == []
    {
      items := [];
    }
  }
}
