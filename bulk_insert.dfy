/** The upload half of the bulk upload modal (src/components/Vendor/BulkUploadModal.tsx,
    `handlePreview` and `handleUpload`): the previewed products' category names are collected,
    each is looked up or created, and one product row per previewed product is inserted.

    The category table is reached through two parameters: `existing` gives the id of the
    category already stored under a name, if any, and `create` inserts one and gives its new id
    or the store's error message. The product insert's outcome is a parameter too. */
module BulkInsert {
  import opened Wrappers
  import opened Text
  import opened BulkUpload
  import opened Folds

  /** Whether some product has category `c`. */
  predicate HasCategory(products: seq<ProductRow>, c: string) {
    exists k :: 0 <= k < |products| && products[k].category == c
  }

  function RowCategory(p: ProductRow): string {
    p.category
  }

  predicate NonEmpty(s: string) {
    s != ""
  }

  /** `[...new Set(previewData.map(p => p.category).filter(Boolean))]`: the non-empty category
      names, each once, in the order they first appear. */
  function CategoryNames(products: seq<ProductRow>): (r: seq<string>)
    ensures forall i, j :: 0 <= i < j < |r| ==> r[i] != r[j]
    ensures forall c :: c in r <==> c != "" && HasCategory(products, c)
  {
    var named := Map(products, RowCategory);
    assert forall c :: c in named <==> HasCategory(products, c) by {
      forall c | c in named ensures HasCategory(products, c) {
        var k :| 0 <= k < |named| && named[k] == c;
      }
    }
    Distinct(Filter(named, NonEmpty))
  }

  /** The id the upload gives one category name: the stored category's, or a new one's. */
  function IdFor(name: string, existing: string -> Option<string>, create: string -> Result<string, string>): Result<string, string> {
    match existing(name)
    case Some(id) => Success(id)
    case None => create(name)
  }

  /** The `categoryMap` the loop builds, or the error of the first creation that fails. */
  function CategoryIds(names: seq<string>, existing: string -> Option<string>, create: string -> Result<string, string>): Result<map<string, string>, string> {
    if names == [] then Success(map[])
    else
      var last := names[|names| - 1];
      match CategoryIds(names[..|names| - 1], existing, create)
      case Failure(e) => Failure(e)
      case Success(m) =>
        match IdFor(last, existing, create)
        case Failure(e) => Failure(e)
        case Success(id) => Success(m[last := id])
  }

  /** A successful map has exactly the names as keys, each mapped to its stored or new id. */
  lemma {:induction false} CategoryIdsSound(names: seq<string>, existing: string -> Option<string>, create: string -> Result<string, string>)
    requires CategoryIds(names, existing, create).Success?
    ensures var m := CategoryIds(names, existing, create).value;
      && m.Keys == set n | n in names
      && forall n :: n in names ==> n in m && IdFor(n, existing, create) == Success(m[n])
  {
    if names != [] {
      var front, last := names[..|names| - 1], names[|names| - 1];
      CategoryIdsSound(front, existing, create);
      assert names == front + [last];
      var before := CategoryIds(front, existing, create).value;
      var id := IdFor(last, existing, create).value;
      var m := CategoryIds(names, existing, create).value;
      assert m == before[last := id];
      assert m.Keys == before.Keys + {last};
      assert (set n | n in names) == (set n | n in front) + {last};
    }
  }

  /** A creation that fails stops the loop: the result is that failure, whatever follows. */
  lemma {:induction false} FailureStops(names: seq<string>, k: nat, existing: string -> Option<string>, create: string -> Result<string, string>)
    requires k <= |names| && CategoryIds(names[..k], existing, create).Failure?
    ensures CategoryIds(names, existing, create) == CategoryIds(names[..k], existing, create)
    decreases |names| - k
  {
    if k < |names| {
      assert names[..k + 1][..k] == names[..k];
      FailureStops(names, k + 1, existing, create);
    } else {
      assert names[..k] == names;
    }
  }

  /** The `for (const categoryName of categoryNames)` loop. */
  method BuildCategoryMap(names: seq<string>, existing: string -> Option<string>, create: string -> Result<string, string>)
    returns (result: Result<map<string, string>, string>)
    ensures result == CategoryIds(names, existing, create)
  {
    var categoryMap: map<string, string> := map[];
    var i := 0;
    while i < |names|
      invariant 0 <= i <= |names|
      invariant CategoryIds(names[..i], existing, create) == Success(categoryMap)
    {
      assert names[..i + 1][..i] == names[..i];
      var name := names[i];
      match existing(name) {
        case Some(id) =>
          categoryMap := categoryMap[name := id];
        case None =>
          var created := create(name);
          if created.Failure? {
            FailureStops(names, i + 1, existing, create);
            return Failure(created.error);
          }
          categoryMap := categoryMap[name := created.value];
      }
      i := i + 1;
    }
    assert names[..i] == names;
    return Success(categoryMap);
  }

  /** The row inserted for one product; the empty string becomes null. */
  datatype ProductInsert = ProductInsert(
    businessId: string,
    name: string,
    description: Option<string>,
    price: real,
    categoryId: Option<string>,
    imageUrl: Option<string>,
    isAvailable: bool)

  /** `product.category ? categoryMap[product.category] : null`; a name missing from the map
      reads as `undefined`, which the insert stores as null. */
  function CategoryIdOf(category: string, categoryMap: map<string, string>): (r: Option<string>)
    ensures r.Some? <==> category != "" && category in categoryMap
    ensures r.Some? ==> r.value == categoryMap[category]
  {
    if category != "" && category in categoryMap then Some(categoryMap[category]) else None
  }

  /** `previewData.map(product => ({ ... }))` */
  function ProductsToInsert(products: seq<ProductRow>, businessId: string, categoryMap: map<string, string>): (r: seq<ProductInsert>)
    ensures |r| == |products|
    ensures forall k :: 0 <= k < |products| ==>
      var p, q := products[k], r[k];
      && q.businessId == businessId && q.name == p.name && q.price == p.price && q.isAvailable == p.isAvailable
      && q.description == OrNull(p.description) && q.imageUrl == OrNull(p.imageUrl)
      && q.categoryId == CategoryIdOf(p.category, categoryMap)
  {
    seq(|products|, k requires 0 <= k < |products| =>
      var p := products[k];
      ProductInsert(businessId, p.name, OrNull(p.description), p.price,
        CategoryIdOf(p.category, categoryMap), OrNull(p.imageUrl), p.isAvailable))
  }

  /** Every product that has a category contributes its name to the names to resolve. */
  lemma NamesCoverProducts(products: seq<ProductRow>)
    ensures forall k :: 0 <= k < |products| && products[k].category != "" ==>
      products[k].category in CategoryNames(products)
  {
    forall k | 0 <= k < |products| && products[k].category != ""
      ensures products[k].category in CategoryNames(products)
    {
      assert HasCategory(products, products[k].category);
    }
  }

  /** After the categories are resolved, every product that has a category is inserted with
      the id stored or created for its name, and every product without one with null. */
  lemma InsertedCategoryIds(products: seq<ProductRow>, businessId: string, existing: string -> Option<string>, create: string -> Result<string, string>)
    requires CategoryIds(CategoryNames(products), existing, create).Success?
    ensures var rows := ProductsToInsert(products, businessId, CategoryIds(CategoryNames(products), existing, create).value);
      forall k :: 0 <= k < |products| ==>
        if products[k].category == "" then rows[k].categoryId.None?
        else rows[k].categoryId.Some? && IdFor(products[k].category, existing, create) == Success(rows[k].categoryId.value)
  {
    var names := CategoryNames(products);
    assert forall k :: 0 <= k < |products| && products[k].category != "" ==> products[k].category in names by {
      NamesCoverProducts(products);
    }
    assert forall n :: n in names ==> var m := CategoryIds(names, existing, create).value;
      n in m && IdFor(n, existing, create) == Success(m[n]) by {
      CategoryIdsSound(names, existing, create);
    }
  }

  /** The upload's fallback error text, shown when the store's error has no message. */
  const UploadFailed := "Failed to upload products"

  /** The green notice: none yet, `Parsed N products successfully`, or
      `Successfully uploaded N products!`. */
  datatype Notice = NoNotice | Parsed(count: nat) | Uploaded(count: nat)

  /** The `products` table. */
  class ProductTable {
    var rows: seq<ProductInsert>

    constructor(rows: seq<ProductInsert>)
      ensures this.rows == rows
    {
      this.rows := rows;
    }
  }

  class BulkUploadModal {
    const businessId: string
    const table: ProductTable
    var csvData: string
    var loading: bool
    var error: string
    var success: Notice
    var previewData: seq<ProductRow>
    /** Whether `onComplete` has been scheduled. */
    var completed: bool

    constructor(businessId: string, table: ProductTable)
      ensures this.businessId == businessId && this.table == table
      ensures csvData == "" && !loading && error == "" && success == NoNotice && previewData == [] && !completed
    {
      this.businessId := businessId;
      this.table := table;
      csvData := "";
      loading := false;
      error := "";
      success := NoNotice;
      previewData := [];
      completed := false;
    }

    /** `handlePreview`: a header error empties the preview and leaves the notice as it was. */
    method Preview()
      modifies this
      ensures csvData == old(csvData) && loading == old(loading) && completed == old(completed)
      ensures ParseCsv(csvData).Success? ==>
        previewData == ParseCsv(csvData).value && error == "" && success == Parsed(|previewData|)
      ensures ParseCsv(csvData).Failure? ==>
        previewData == [] && error == ParseCsv(csvData).error && success == old(success)
    {
      error := "";
      var parsed := ParseCsvData(csvData);
      match parsed {
        case Success(products) =>
          previewData := products;
          success := Parsed(|products|);
        case Failure(message) =>
          error := message;
          previewData := [];
      }
    }

    /** `handleUpload`: nothing to upload is an error; otherwise the categories are resolved in
        turn, a failing creation or a failing insert ends the upload with its message, and only
        a full success inserts the rows. */
    method Upload(existing: string -> Option<string>, create: string -> Result<string, string>, insertError: Option<string>)
      modifies this, table
      ensures csvData == old(csvData) && previewData == old(previewData)
      ensures old(previewData) == [] ==>
        && error == "No valid products to upload" && table.rows == old(table.rows)
        && loading == old(loading) && success == old(success) && completed == old(completed)
      ensures old(previewData) != [] ==>
        var ids := CategoryIds(CategoryNames(previewData), existing, create);
        && !loading
        && (ids.Failure? ==>
              table.rows == old(table.rows) && error == MessageOr(ids.error, UploadFailed)
              && success == old(success) && completed == old(completed))
        && (ids.Success? && insertError.Some? ==>
              table.rows == old(table.rows) && error == MessageOr(insertError.value, UploadFailed)
              && success == old(success) && completed == old(completed))
        && (ids.Success? && insertError.None? ==>
              table.rows == old(table.rows) + ProductsToInsert(previewData, businessId, ids.value)
              && error == "" && success == Uploaded(|previewData|) && completed)
    {
      if |previewData| == 0 {
        error := "No valid products to upload";
        return;
      }
      loading := true;
      error := "";
      var names := CategoryNames(previewData);
      var categoryMap := BuildCategoryMap(names, existing, create);
      match categoryMap {
        case Failure(message) =>
          error := MessageOr(message, UploadFailed);
        case Success(m) =>
          var rows := ProductsToInsert(previewData, businessId, m);
          if insertError.Some? {
            error := MessageOr(insertError.value, UploadFailed);
          } else {
            table.rows := table.rows + rows;
            success := Uploaded(|rows|);
            completed := true;
          }
      }
      loading := false;
    }
  }
}
