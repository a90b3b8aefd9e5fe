/** The vendor dashboard (src/components/Vendor/VendorDashboard.tsx): loading the vendor's
    business and products, the delete and availability actions on a product, the product
    counters and the search and availability filter over the product list. Query and update
    replies are inputs; the store's side of an update is the function it applies to the
    products table. */
module VendorDashboard {
  import opened Wrappers
  import opened Text
  import opened Schema
  import opened Folds

  /** The PostgREST code `.single()` reports when no row matches. */
  const NoRowsCode := "PGRST116"

  /** The business state after `fetchBusinessData`, and whose products are then fetched. */
  datatype BusinessFetch = BusinessFetch(business: Option<Business>, fetchProductsOf: Option<string>, failed: bool)

  /** `data` and `errorCode` are the reply of the single-row business query. A "no rows" error is
      not a failure: the business is whatever came back (nothing) and the set-up view follows.
      Any other error is thrown before `setBusiness`, so the stored business stays `current`. */
  function FetchBusiness(current: Option<Business>, data: Option<Business>, errorCode: Option<string>): (r: BusinessFetch)
    ensures r.failed <==> errorCode.Some? && errorCode.value != NoRowsCode
    ensures r.failed ==> r.business == current && r.fetchProductsOf.None?
    ensures !r.failed ==> r.business == data
    ensures r.fetchProductsOf.Some? <==> !r.failed && data.Some?
    ensures r.fetchProductsOf.Some? ==> r.fetchProductsOf.value == data.value.id
  {
    if errorCode.Some? && errorCode.value != NoRowsCode then BusinessFetch(current, None, true)
    else BusinessFetch(data, if data.Some? then Some(data.value.id) else None, false)
  }

  /** A vendor without a business row sees the set-up view and no error. */
  lemma NoRowsMeansNoBusiness(current: Option<Business>)
    ensures var r := FetchBusiness(current, None, Some(NoRowsCode));
      !r.failed && r.business.None? && r.fetchProductsOf.None?
  {}

  /** `fetchProducts`: an error is logged and the list is kept; otherwise the rows replace it
      (`productsData || []`). */
  function ProductsAfterFetch(current: seq<Product>, reply: Result<Option<seq<Product>>, string>): (r: seq<Product>)
    ensures reply.Failure? ==> r == current
    ensures reply.Success? && reply.value.Some? ==> r == reply.value.value
    ensures reply.Success? && reply.value.None? ==> r == []
  {
    if reply.Failure? then current
    else if reply.value.Some? then reply.value.value
    else []
  }

  /** Which of the three views renders. */
  datatype View = Spinner | SetUpBusiness | Dashboard

  function ViewOf(loading: bool, business: Option<Business>): (v: View)
    ensures v == Spinner <==> loading
    ensures v == SetUpBusiness <==> !loading && business.None?
  {
    if loading then Spinner else if business.None? then SetUpBusiness else Dashboard
  }

  /** The user's answer to the confirmation dialog, the store's reply to the delete, and what
      the dashboard does next. */
  datatype ActionOutcome = ActionOutcome(requested: bool, alert: Option<string>, refetch: bool)

  const DeleteFailed := "Failed to delete product. Please try again."
  const ToggleFailed := "Failed to update product availability. Please try again."

  /** `handleDeleteProduct`: without confirmation nothing is sent; a failed delete alerts; a
      successful one re-fetches the products when the business is known. */
  function DeleteProduct(confirmed: bool, deleteFails: bool, business: Option<Business>): (o: ActionOutcome)
    ensures o.requested <==> confirmed
    ensures o.alert.Some? <==> confirmed && deleteFails
    ensures o.alert.Some? ==> o.alert.value == DeleteFailed
    ensures o.refetch <==> confirmed && !deleteFails && business.Some?
  {
    if !confirmed then ActionOutcome(false, None, false)
    else if deleteFails then ActionOutcome(true, Some(DeleteFailed), false)
    else ActionOutcome(true, None, business.Some?)
  }

  /** The store's side of `delete().eq('id', id)`: every row with that id goes, the rest stay
      in order. */
  function DeleteRows(rows: seq<Product>, id: string): (r: seq<Product>)
    ensures forall p :: p in r <==> p in rows && p.id != id
  {
    Filter(rows, (p: Product) => p.id != id)
  }

  /** Deleting a product keeps the remaining rows in their order. */
  lemma DeleteKeepsOrder(rows: seq<Product>, id: string, i: int, j: int)
    requires 0 <= i < j < |rows| && rows[i].id != id && rows[j].id != id
    ensures exists a, b ::
      && 0 <= a < b < |DeleteRows(rows, id)|
      && DeleteRows(rows, id)[a] == rows[i]
      && DeleteRows(rows, id)[b] == rows[j]
  {
    var qa, qb := FilterKeepsOrder(rows, (p: Product) => p.id != id, i, j);
    assert DeleteRows(rows, id) == Filter(rows, (p: Product) => p.id != id);
  }

  /** `handleToggleAvailability` sends the negation of the availability the card shows. */
  function ToggleRequest(product: Product): (r: (string, bool))
    ensures r.0 == product.id && r.1 != product.isAvailable
  {
    (product.id, !product.isAvailable)
  }

  function ToggleAvailability(updateFails: bool, business: Option<Business>): (o: ActionOutcome)
    ensures o.requested
    ensures o.alert.Some? <==> updateFails
    ensures o.alert.Some? ==> o.alert.value == ToggleFailed
    ensures o.refetch <==> !updateFails && business.Some?
  {
    if updateFails then ActionOutcome(true, Some(ToggleFailed), false)
    else ActionOutcome(true, None, business.Some?)
  }

  /** The store's side of `update({ is_available }).eq('id', id)`. */
  function SetAvailability(rows: seq<Product>, id: string, available: bool): (r: seq<Product>)
    ensures |r| == |rows|
    ensures forall i :: 0 <= i < |rows| ==>
      r[i] == if rows[i].id == id then rows[i].(isAvailable := available) else rows[i]
  {
    if rows == [] then []
    else
      var row := rows[|rows| - 1];
      SetAvailability(rows[..|rows| - 1], id, available)
        + [if row.id == id then row.(isAvailable := available) else row]
  }

  /** Toggling a product and then toggling the refreshed row once more restores the table, when
      product ids are unique. */
  lemma ToggleTwiceRestores(rows: seq<Product>, k: int)
    requires 0 <= k < |rows|
    requires forall i, j :: 0 <= i < j < |rows| ==> rows[i].id != rows[j].id
    ensures var first := ToggleRequest(rows[k]);
      var once := SetAvailability(rows, first.0, first.1);
      var second := ToggleRequest(once[k]);
      SetAvailability(once, second.0, second.1) == rows
  {
    var id, b := rows[k].id, !rows[k].isAvailable;
    var once := SetAvailability(rows, id, b);
    var twice := SetAvailability(once, id, !b);
    forall i | 0 <= i < |rows| ensures twice[i] == rows[i] {
      if i == k {
        Restored(rows[k], b);
      } else {
        assert rows[i].id != id;
      }
    }
    assert twice == rows;
  }

  /** Setting the availability and then setting it back gives the same product. */
  lemma Restored(p: Product, b: bool)
    ensures p.(isAvailable := b).(isAvailable := p.isAvailable) == p
  {}

  predicate IsAvailable(p: Product) {
    p.isAvailable
  }

  /** "Total Products" and "Available Products". */
  datatype ProductCounts = ProductCounts(total: int, available: int)

  function Counts(products: seq<Product>): (c: ProductCounts)
    ensures c.total == |products|
    ensures 0 <= c.available <= c.total
    ensures c.available == |Filter(products, IsAvailable)|
  {
    ProductCounts(|products|, |Filter(products, IsAvailable)|)
  }

  /** The "Available Products" figure counts product by product: nothing for an empty list,
      and one more for each further product exactly when it is available. */
  lemma {:induction false} AvailableCountSteps(products: seq<Product>, p: Product)
    ensures Counts([]).available == 0
    ensures Counts(products + [p]).available == Counts(products).available + (if p.isAvailable then 1 else 0)
  {
    FilterConcat(products, [p], IsAvailable);
    assert Filter([p], IsAvailable) == (if p.isAvailable then [p] else []) by {
      assert [p][..0] == [];
    }
  }

  /** The availability choices of the filter select. */
  datatype AvailabilityFilter = AnyAvailability | AvailableOnly | UnavailableOnly

  predicate MatchesAvailability(p: Product, f: AvailabilityFilter) {
    || f == AnyAvailability
    || (f == AvailableOnly && p.isAvailable)
    || (f == UnavailableOnly && !p.isAvailable)
  }

  /** The name matches, or the description is present and matches (`description?.` is
      `undefined`, so falsy, when there is none). */
  predicate MatchesProductSearch(p: Product, term: string) {
    MatchesSearch(p.name, term) || (p.description.Some? && MatchesSearch(p.description.value, term))
  }

  predicate Listed(p: Product, term: string, f: AvailabilityFilter) {
    MatchesProductSearch(p, term) && MatchesAvailability(p, f)
  }

  /** `filteredProducts` */
  function FilteredProducts(products: seq<Product>, term: string, f: AvailabilityFilter): (r: seq<Product>)
    ensures forall p :: p in r <==> p in products && MatchesProductSearch(p, term) && MatchesAvailability(p, f)
  {
    Filter(products, (p: Product) => Listed(p, term, f))
  }

  /** Listed products keep the order of the vendor's product list. */
  lemma ListedInProductOrder(products: seq<Product>, term: string, f: AvailabilityFilter, i: int, j: int)
    requires 0 <= i < j < |products| && Listed(products[i], term, f) && Listed(products[j], term, f)
    ensures exists a, b ::
      && 0 <= a < b < |FilteredProducts(products, term, f)|
      && FilteredProducts(products, term, f)[a] == products[i]
      && FilteredProducts(products, term, f)[b] == products[j]
  {
    var qa, qb := FilterKeepsOrder(products, (p: Product) => Listed(p, term, f), i, j);
    assert FilteredProducts(products, term, f) == Filter(products, (p: Product) => Listed(p, term, f));
  }

  /** For one search, the 'available' and 'unavailable' lists split the 'all' list between
      them: each listed product is in exactly one, and their lengths add up. */
  lemma {:induction false} AvailabilityPartitions(products: seq<Product>, term: string)
    ensures |FilteredProducts(products, term, AvailableOnly)| + |FilteredProducts(products, term, UnavailableOnly)|
         == |FilteredProducts(products, term, AnyAvailability)|
    ensures forall p :: p in FilteredProducts(products, term, AnyAvailability) <==>
      p in FilteredProducts(products, term, AvailableOnly) || p in FilteredProducts(products, term, UnavailableOnly)
    ensures forall p :: !(p in FilteredProducts(products, term, AvailableOnly) && p in FilteredProducts(products, term, UnavailableOnly))
    decreases |products|
  {
    if products != [] {
      AvailabilityPartitions(products[..|products| - 1], term);
    }
  }

  /** With an empty search the 'available' filter lists exactly as many products as the
      "Available Products" card counts, and the 'all' filter lists them all, in order. */
  lemma EmptySearchAgreesWithCounts(products: seq<Product>)
    ensures |FilteredProducts(products, "", AvailableOnly)| == Counts(products).available
    ensures FilteredProducts(products, "", AnyAvailability) == products
  {
    forall p | p in products ensures MatchesProductSearch(p, "") {
      EmptySearchMatches(p.name);
    }
    SameFilter(products, (p: Product) => Listed(p, "", AvailableOnly), IsAvailable);
    FilterAll(products, (p: Product) => Listed(p, "", AnyAvailability));
  }
}
