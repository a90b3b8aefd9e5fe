/** A vendor's shop page as the customer sees it (src/components/Customer/BusinessPage.tsx): the
    category tabs derived from the products, the category filter, and the per-product cart
    control, which adds the product or steps its quantity through the cart. */
module BusinessPage {
  import opened Wrappers
  import opened Schema
  import opened Folds
  import opened Cart

  /** `p.category?.name`, with a missing category read as the empty name that
      `filter(Boolean)` drops alike. */
  function CategoryLabel(p: Product): string {
    if p.category.Some? then p.category.value.name else ""
  }

  predicate NonEmpty(s: string) {
    s != ""
  }

  /** Whether some product is in a category named `c`. */
  predicate SomeProductIn(products: seq<Product>, c: string) {
    exists k :: 0 <= k < |products| && products[k].category.Some? && products[k].category.value.name == c
  }

  /** `[...new Set(products.map(p => p.category?.name).filter(Boolean))]`: each non-empty
      category name of the products once, in the order of first appearance. */
  function Categories(products: seq<Product>): (r: seq<string>)
    ensures forall i, j :: 0 <= i < j < |r| ==> r[i] != r[j]
    ensures forall c :: c in r <==> c != "" && SomeProductIn(products, c)
  {
    var labels := Map(products, CategoryLabel);
    assert forall c :: c != "" ==> (c in labels <==> SomeProductIn(products, c)) by {
      forall c | c != "" && c in labels ensures SomeProductIn(products, c) {
        var k :| 0 <= k < |labels| && labels[k] == c;
      }
      forall c | c != "" && SomeProductIn(products, c) ensures c in labels {
        var k :| 0 <= k < |products| && products[k].category.Some? && products[k].category.value.name == c;
        assert labels[k] == c;
      }
    }
    Distinct(Filter(labels, NonEmpty))
  }

  /** The tabs follow the order in which the categories first occur in the product list. */
  lemma CategoriesInFirstSeenOrder(products: seq<Product>, i: int, j: int)
    requires 0 <= i < j < |products|
    requires CategoryLabel(products[i]) != "" && CategoryLabel(products[j]) != ""
    requires CategoryLabel(products[i]) != CategoryLabel(products[j])
    requires forall k :: 0 <= k < i ==> CategoryLabel(products[k]) != CategoryLabel(products[i])
    requires forall k :: 0 <= k < j ==> CategoryLabel(products[k]) != CategoryLabel(products[j])
    ensures exists a, b ::
      && 0 <= a < b < |Categories(products)|
      && Categories(products)[a] == CategoryLabel(products[i])
      && Categories(products)[b] == CategoryLabel(products[j])
  {
    var labels := Map(products, CategoryLabel);
    assert forall k :: 0 <= k < i ==> labels[k] != labels[i];
    assert forall k :: 0 <= k < j ==> labels[k] != labels[j];
    FilteredDistinctOrder(labels, NonEmpty, i, j);
    assert Categories(products) == Distinct(Filter(labels, NonEmpty));
  }

  /** `selectedCategory ? products.filter(p => p.category?.name === selectedCategory) : products` */
  function FilteredProducts(products: seq<Product>, selected: string): (r: seq<Product>)
    ensures selected == "" ==> r == products
    ensures selected != "" ==> forall p :: p in r <==> p in products && CategoryLabel(p) == selected
  {
    if selected == "" then products else Filter(products, (p: Product) => CategoryLabel(p) == selected)
  }

  /** The products of the chosen category are listed in the order of the product list. */
  lemma CategoryKeepsProductOrder(products: seq<Product>, selected: string, i: int, j: int)
    requires selected != "" && 0 <= i < j < |products|
    requires CategoryLabel(products[i]) == selected && CategoryLabel(products[j]) == selected
    ensures exists a, b ::
      && 0 <= a < b < |FilteredProducts(products, selected)|
      && FilteredProducts(products, selected)[a] == products[i]
      && FilteredProducts(products, selected)[b] == products[j]
  {
    var qa, qb := FilterKeepsOrder(products, (p: Product) => CategoryLabel(p) == selected, i, j);
    assert FilteredProducts(products, selected) == Filter(products, (p: Product) => CategoryLabel(p) == selected);
  }

  /** Choosing a listed category shows at least one product, and only products of it. */
  lemma ListedCategoryIsNonEmpty(products: seq<Product>, c: string)
    requires c in Categories(products)
    ensures FilteredProducts(products, c) != []
  {
    var k :| 0 <= k < |products| && products[k].category.Some? && products[k].category.value.name == c;
    assert products[k] in FilteredProducts(products, c);
  }

  /** The control under each product card. */
  datatype CartControl = AddToCartButton | Stepper(minus: int, plus: int)

  /** Quantity 0 offers "Add to Cart"; any other quantity offers minus and plus buttons asking
      for one less and one more. */
  function ControlFor(quantity: int): (c: CartControl)
    ensures c.AddToCartButton? <==> quantity == 0
    ensures c.Stepper? ==> c.minus == quantity - 1 && c.plus == quantity + 1
  {
    if quantity == 0 then AddToCartButton else Stepper(quantity - 1, quantity + 1)
  }

  /** A product not yet in the cart shows "Add to Cart", which appends one line with quantity 1. */
  lemma AddButtonAddsOne(items: seq<CartItem>, product: Product)
    requires !HasProduct(items, product.id)
    ensures ControlFor(ItemQuantity(items, product.id)) == AddToCartButton
    ensures Added(items, product, 1) == items + [CartItem(product, 1)]
  {}

  /** At quantity 1 the minus button asks for quantity 0, and the product leaves the cart. */
  lemma MinusAtOneRemoves(items: seq<CartItem>, product: Product)
    requires UniqueIds(items) && HasProduct(items, product.id) && ItemQuantity(items, product.id) == 1
    ensures var c := ControlFor(ItemQuantity(items, product.id));
      c.Stepper? && !HasProduct(Updated(items, product.id, c.minus), product.id)
  {
    UpdateNonPositiveRemoves(items, product.id, 0);
  }
}
