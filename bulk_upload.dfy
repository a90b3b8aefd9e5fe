/** Bulk product upload (src/components/Vendor/BulkUploadModal.tsx): the pasted CSV text is
    parsed line by line into product rows, the preview keeps them, and the upload creates the
    missing categories and inserts one product per row.

    The parser splits on every comma and every newline; quotes are only deleted, so a quoted
    value that contains a comma shifts the columns and its row is skipped. */
module BulkUpload {
  import opened Wrappers
  import opened Text
  import opened Folds

  /** A parsed product, as `parseCsvData` builds it. */
  datatype ProductRow = ProductRow(
    name: string,
    description: string,
    price: real,
    category: string,
    imageUrl: string,
    isAvailable: bool)

  const RequiredHeaders: seq<string> := ["name", "description", "price", "category", "image_url", "is_available"]

  const MissingHeadersMessage: string :=
    "CSV must contain columns: name, description, price, category, image_url, is_available"

  /** `v.replace(/"/g, '').trim()` */
  function Clean(v: string): (r: string)
    ensures '"' !in r
    ensures r == [] || (!IsSpace(r[0]) && !IsSpace(r[|r| - 1]))
  {
    Trim(RemoveAll(v, '"'))
  }

  /** `line.split(',').map(clean)` */
  function Cells(line: string): (r: seq<string>)
    ensures |r| == |Split(line, ',')|
    ensures forall j :: 0 <= j < |r| ==> r[j] == Clean(Split(line, ',')[j])
  {
    var parts := Split(line, ',');
    seq(|parts|, j requires 0 <= j < |parts| => Clean(parts[j]))
  }

  /** `expectedHeaders.every(e => headers.some(h => h.toLowerCase() === e))` */
  predicate HasAllHeaders(headers: seq<string>) {
    forall e :: e in RequiredHeaders ==> exists h :: h in headers && ToLower(h) == e
  }

  /** The last column whose lower-cased header is `key`: later columns overwrite earlier ones. */
  function LastColumn(headers: seq<string>, key: string): (r: Option<nat>)
    ensures r.Some? ==> r.value < |headers| && ToLower(headers[r.value]) == key
    ensures r.Some? ==> forall t :: r.value < t < |headers| ==> ToLower(headers[t]) != key
    ensures r.None? ==> forall t :: 0 <= t < |headers| ==> ToLower(headers[t]) != key
  {
    if headers == [] then None
    else if ToLower(headers[|headers| - 1]) == key then Some(|headers| - 1)
    else LastColumn(headers[..|headers| - 1], key)
  }

  function Field(headers: seq<string>, values: seq<string>, key: string): Option<string>
    requires |values| == |headers|
  {
    match LastColumn(headers, key)
    case Some(j) => Some(values[j])
    case None => None
  }

  /** An empty product object. */
  const BlankRow := ProductRow("", "", 0.0, "", "", false)

  /** The product one data line fills in: starting from the blank product, every column is
      stored in turn under its lower-cased header. */
  function RowFrom(headers: seq<string>, values: seq<string>): ProductRow
    requires |values| == |headers|
  {
    if headers == [] then BlankRow
    else
      var n := |headers|;
      Assign(RowFrom(headers[..n - 1], values[..n - 1]), ToLower(headers[n - 1]), values[n - 1])
  }

  /** The same product described field by field: each field holds the value of the last column
      with its header, coerced, and a column whose header is not one of the six is ignored. */
  function RowByFields(headers: seq<string>, values: seq<string>): ProductRow
    requires |values| == |headers|
  {
    ProductRow(
      Field(headers, values, "name").GetOr(""),
      Field(headers, values, "description").GetOr(""),
      match Field(headers, values, "price") case Some(v) => ParseFloatOrZero(v) case None => 0.0,
      Field(headers, values, "category").GetOr(""),
      Field(headers, values, "image_url").GetOr(""),
      match Field(headers, values, "is_available") case Some(v) => ToLower(v) == "true" case None => false)
  }

  /** `product.name && product.price > 0` */
  predicate Keep(p: ProductRow) {
    p.name != "" && p.price > 0.0
  }

  /** The product a data line yields: none when its column count differs from the header's,
      or when the product it fills has no name or no positive price. */
  function LineProducts(headers: seq<string>, line: string): seq<ProductRow> {
    var values := Cells(line);
    if |values| == |headers| && Keep(RowFrom(headers, values)) then [RowFrom(headers, values)] else []
  }

  /** The products the data lines `rows` yield, in order. */
  function KeptRows(headers: seq<string>, rows: seq<string>): seq<ProductRow> {
    if rows == [] then []
    else KeptRows(headers, rows[..|rows| - 1]) + LineProducts(headers, rows[|rows| - 1])
  }

  /** `parseCsvData`: an error when a required header is missing. */
  function ParseCsv(csv: string): (r: Result<seq<ProductRow>, string>)
    ensures r.Failure? ==> r.error == MissingHeadersMessage
    ensures r.Success? ==> (forall p :: p in r.value ==> Keep(p)) && |r.value| < |Split(Trim(csv), '\n')|
  {
    ParseLinesValid(Split(Trim(csv), '\n'));
    ParseLines(Split(Trim(csv), '\n'))
  }

  /** `ParseCsv`'s promises, for the lines the input is split into. */
  lemma ParseLinesValid(lines: seq<string>)
    requires |lines| >= 1
    ensures var r := ParseLines(lines);
      && (r.Failure? ==> r.error == MissingHeadersMessage)
      && (r.Success? ==> (forall p :: p in r.value ==> Keep(p)) && |r.value| < |lines|)
  {
    if |lines| >= 2 && HasAllHeaders(Cells(lines[0])) {
      KeptRowsValid(Cells(lines[0]), lines[1..]);
    }
  }

  /** `parseCsvData` after the input is trimmed and split into lines: no products without a
      data line, an error when the header line lacks a required header. */
  function ParseLines(lines: seq<string>): Result<seq<ProductRow>, string> {
    if |lines| < 2 then Success([])
    else
      var headers := Cells(lines[0]);
      if !HasAllHeaders(headers) then Failure(MissingHeadersMessage)
      else Success(KeptRows(headers, lines[1..]))
  }

  /** One step of the `headers.forEach`: the value of a column is stored under its lower-cased
      header, price and availability coerced. */
  function Assign(product: ProductRow, key: string, value: string): ProductRow {
    if key == "price" then product.(price := ParseFloatOrZero(value))
    else if key == "is_available" then product.(isAvailable := ToLower(value) == "true")
    else if key == "name" then product.(name := value)
    else if key == "description" then product.(description := value)
    else if key == "category" then product.(category := value)
    else if key == "image_url" then product.(imageUrl := value)
    else product
  }

  lemma FieldSnoc(headers: seq<string>, values: seq<string>, h: string, v: string, key: string)
    requires |values| == |headers|
    ensures Field(headers + [h], values + [v], key)
      == if ToLower(h) == key then Some(v) else Field(headers, values, key)
  {
    assert (headers + [h])[..|headers|] == headers;
  }

  lemma RequiredKeysDiffer()
    ensures "price" != "is_available" && "price" != "name" && "price" != "description"
    ensures "price" != "category" && "price" != "image_url"
    ensures "is_available" != "name" && "is_available" != "description"
    ensures "is_available" != "category" && "is_available" != "image_url"
    ensures "name" != "description" && "name" != "category" && "name" != "image_url"
    ensures "description" != "category" && "description" != "image_url" && "category" != "image_url"
  {
    assert "price"[0] == 'p' && "is_available"[0] == 'i' && "name"[0] == 'n';
    assert "description"[0] == 'd' && "category"[0] == 'c' && "image_url"[0] == 'i';
    assert |"is_available"| != |"image_url"|;
  }

  /** One more column changes the field-by-field product as one `Assign` step does. */
  lemma RowByFieldsSnoc(headers: seq<string>, values: seq<string>, h: string, v: string)
    requires |values| == |headers|
    ensures RowByFields(headers + [h], values + [v]) == Assign(RowByFields(headers, values), ToLower(h), v)
  {
    FieldSnoc(headers, values, h, v, "name");
    FieldSnoc(headers, values, h, v, "description");
    FieldSnoc(headers, values, h, v, "price");
    FieldSnoc(headers, values, h, v, "category");
    FieldSnoc(headers, values, h, v, "image_url");
    FieldSnoc(headers, values, h, v, "is_available");
    RequiredKeysDiffer();
  }

  /** `RowByFieldsSnoc` for the last column of a non-empty row. */
  lemma RowByFieldsLast(headers: seq<string>, values: seq<string>)
    requires |values| == |headers| > 0
    ensures var n := |headers|;
      RowByFields(headers, values)
        == Assign(RowByFields(headers[..n - 1], values[..n - 1]), ToLower(headers[n - 1]), values[n - 1])
  {
    var n := |headers|;
    assert headers == headers[..n - 1] + [headers[n - 1]];
    assert values == values[..n - 1] + [values[n - 1]];
    RowByFieldsSnoc(headers[..n - 1], values[..n - 1], headers[n - 1], values[n - 1]);
  }

  /** Filling the columns one by one gives, in each field, the last column with its header. */
  lemma {:induction false} RowFromFields(headers: seq<string>, values: seq<string>)
    requires |values| == |headers|
    ensures RowFrom(headers, values) == RowByFields(headers, values)
    decreases |headers|
  {
    if headers != [] {
      var n := |headers|;
      RowFromFields(headers[..n - 1], values[..n - 1]);
      RowByFieldsLast(headers, values);
    }
  }

  /** The `headers.forEach` that fills one product object. */
  method FillProduct(headers: seq<string>, values: seq<string>) returns (product: ProductRow)
    requires |values| == |headers|
    ensures product == RowFrom(headers, values)
  {
    product := BlankRow;
    var index := 0;
    while index < |headers|
      invariant 0 <= index <= |headers|
      invariant product == RowFrom(headers[..index], values[..index])
    {
      assert headers[..index + 1][..index] == headers[..index];
      assert values[..index + 1][..index] == values[..index];
      product := Assign(product, ToLower(headers[index]), values[index]);
      index := index + 1;
    }
    assert headers[..index] == headers && values[..index] == values;
  }

  /** How one more data line extends the parsed products. */
  lemma KeptRowsSnoc(headers: seq<string>, rows: seq<string>, line: string)
    ensures KeptRows(headers, rows + [line]) == KeptRows(headers, rows) + LineProducts(headers, line)
  {
    assert (rows + [line])[..|rows|] == rows;
  }

  /** A line has one column more than it has commas, whatever its quotes. */
  lemma ColumnCount(line: string)
    ensures |Cells(line)| == multiset(line)[','] + 1
  {
    SplitCount(line, ',');
  }

  /** One pass of the `for` loop: the product a data line pushes, if any. */
  method ParseLine(headers: seq<string>, line: string) returns (yielded: seq<ProductRow>)
    ensures yielded == LineProducts(headers, line)
  {
    yielded := [];
    var values := Cells(line);
    assert LineProducts(headers, line)
        == if |values| == |headers| && Keep(RowFrom(headers, values)) then [RowFrom(headers, values)] else [];
    if |values| == |headers| {
      var product := FillProduct(headers, values);
      if product.name != "" && product.price > 0.0 {
        yielded := [product];
      }
    }
  }

  /** The `for` loop of `parseCsvData` over the data lines. */
  method ParseRows(headers: seq<string>, rows: seq<string>) returns (products: seq<ProductRow>)
    ensures products == KeptRows(headers, rows)
  {
    products := [];
    var i := 0;
    while i < |rows|
      invariant 0 <= i <= |rows|
      invariant products == KeptRows(headers, rows[..i])
    {
      assert rows[..i + 1] == rows[..i] + [rows[i]];
      KeptRowsSnoc(headers, rows[..i], rows[i]);
      var yielded := ParseLine(headers, rows[i]);
      assert products + yielded == KeptRows(headers, rows[..i + 1]);
      products := products + yielded;
      i := i + 1;
    }
    assert rows[..i] == rows;
  }

  /** `parseCsvData` */
  method ParseCsvData(csv: string) returns (result: Result<seq<ProductRow>, string>)
    ensures result == ParseCsv(csv)
  {
    var lines := Split(Trim(csv), '\n');
    assert ParseCsv(csv) == ParseLines(lines);
    if |lines| < 2 {
      return Success([]);
    }
    var headers := Cells(lines[0]);
    var complete := HasAllHeaders(headers);
    assert ParseLines(lines) == if complete then Success(KeptRows(headers, lines[1..])) else Failure(MissingHeadersMessage);
    if !complete {
      return Failure(MissingHeadersMessage);
    }
    var products := ParseRows(headers, lines[1..]);
    return Success(products);
  }

  /** Parsing keeps the input order: the products of two runs of lines are those of the first
      followed by those of the second. */
  lemma KeptRowsConcat(headers: seq<string>, a: seq<string>, b: seq<string>)
    ensures KeptRows(headers, a + b) == KeptRows(headers, a) + KeptRows(headers, b)
  {
    KeptRowsFlat(headers, a + b);
    KeptRowsFlat(headers, a);
    KeptRowsFlat(headers, b);
    FlatMapConcat(headers, a, b, LineProducts);
  }

  /** The products of the lines are the lines' products, flattened. */
  lemma {:induction false} KeptRowsFlat(headers: seq<string>, rows: seq<string>)
    ensures KeptRows(headers, rows) == FlatMap(headers, rows, LineProducts)
    decreases |rows|
  {
    if rows != [] {
      KeptRowsFlat(headers, rows[..|rows| - 1]);
    }
  }

  /** Every kept product has a name and a positive price, and no line yields more than one. */
  lemma {:induction false} KeptRowsValid(headers: seq<string>, rows: seq<string>)
    ensures forall p :: p in KeptRows(headers, rows) ==> Keep(p)
    ensures |KeptRows(headers, rows)| <= |rows|
  {
    if rows != [] {
      KeptRowsValid(headers, rows[..|rows| - 1]);
    }
  }

  /** A line with the header's column count whose product has a name and a positive price is
      appended to the products. */
  lemma AlignedLineKept(headers: seq<string>, rows: seq<string>, line: string)
    requires |Cells(line)| == |headers| && Keep(RowFrom(headers, Cells(line)))
    ensures KeptRows(headers, rows + [line]) == KeptRows(headers, rows) + [RowFrom(headers, Cells(line))]
  {
    KeptRowsSnoc(headers, rows, line);
  }

  /** A line whose comma count does not give the header's column count yields nothing. */
  lemma MisalignedLineSkipped(headers: seq<string>, rows: seq<string>, line: string)
    requires multiset(line)[','] + 1 != |headers|
    ensures KeptRows(headers, rows + [line]) == KeptRows(headers, rows)
  {
    ColumnCount(line);
    KeptRowsSnoc(headers, rows, line);
  }

  /** Field coercion: `is_available` is true exactly when its value lower-cases to "true"; an
      unparseable price becomes 0, so its row is not kept; every text field is free of quotes
      and of surrounding white space. */
  lemma RowFieldCoercion(headers: seq<string>, line: string)
    requires |Cells(line)| == |headers|
    ensures var values := Cells(line);
      var p := RowFrom(headers, values);
      && (Field(headers, values, "is_available").Some? ==>
            (p.isAvailable <==> ToLower(Field(headers, values, "is_available").value) == "true"))
      && (Field(headers, values, "price").Some? && ParseFloat(Field(headers, values, "price").value).None? ==>
            p.price == 0.0 && !Keep(p))
      && '"' !in p.name && '"' !in p.description && '"' !in p.category && '"' !in p.imageUrl
  {
    var values := Cells(line);
    RowFromFields(headers, values);
    forall key: string | Field(headers, values, key).Some?
      ensures '"' !in Field(headers, values, key).value
    {
      var j := LastColumn(headers, key).value;
      assert values[j] == Clean(Split(line, ',')[j]);
    }
  }

  /** When a header appears twice, the later column's value is the one kept. */
  lemma LaterColumnWins(headers: seq<string>, values: seq<string>, key: string, i: int, j: int)
    requires |values| == |headers|
    requires 0 <= i < j < |headers| && ToLower(headers[i]) == key && ToLower(headers[j]) == key
    requires forall t :: j < t < |headers| ==> ToLower(headers[t]) != key
    ensures Field(headers, values, key) == Some(values[j])
  {}

  /** Input of fewer than two lines gives no products and no error. */
  lemma ShortInputGivesNothing(csv: string)
    requires |Split(Trim(csv), '\n')| < 2
    ensures ParseCsv(csv) == Success([])
  {}

  /** The header check does not depend on the order or the letter case of the headers. */
  lemma HeaderCheckIgnoresOrder(headers: seq<string>, others: seq<string>)
    requires forall h :: h in headers ==> exists g :: g in others && ToLower(g) == ToLower(h)
    ensures HasAllHeaders(headers) ==> HasAllHeaders(others)
  {
    if HasAllHeaders(headers) {
      forall e | e in RequiredHeaders
        ensures exists g :: g in others && ToLower(g) == e
      {
        var h :| h in headers && ToLower(h) == e;
        var g :| g in others && ToLower(g) == ToLower(h);
      }
    }
  }

  /** A value with no quotes and no surrounding white space is kept as it is. */
  lemma CleanKeeps(v: string)
    requires '"' !in v && v != [] && !IsSpace(v[0]) && !IsSpace(v[|v| - 1])
    ensures Clean(v) == v
  {
    RemoveAllAbsent(v, '"');
    TrimKeeps(v);
  }

  /** A quoted value loses its quotes. */
  lemma CleanUnquotes(v: string)
    requires '"' !in v && (v == [] || (!IsSpace(v[0]) && !IsSpace(v[|v| - 1])))
    ensures Clean(Quoted(v)) == v
  {
    Unquote(v, '"');
    assert Quoted(v) == ['"'] + v + ['"'];
    if v != [] {
      TrimKeeps(v);
    }
  }

  /** The pieces of a line between its separators contain no `d`. */
  predicate Avoids(pieces: seq<string>, d: char) {
    forall k :: 0 <= k < |pieces| ==> d !in pieces[k]
  }

  function Quoted(s: string): string {
    "\"" + s + "\""
  }

  lemma QuotedAvoids(v: string, d: char)
    requires d != '"' && d !in v
    ensures d !in Quoted(v)
  {}

  lemma CellsOfJoin(pieces: seq<string>)
    requires |pieces| >= 1 && Avoids(pieces, ',')
    ensures |Cells(Join(pieces, ','))| == |pieces|
    ensures forall j :: 0 <= j < |pieces| ==> Cells(Join(pieces, ','))[j] == Clean(pieces[j])
  {
    SplitJoin(pieces, ',');
  }

  /** `piece` is `value`, or `value` in quotes, where `value` holds no quote and no comma and
      does not start or end with white space: cleaning the piece gives the value. */
  predicate CleansTo(piece: string, value: string) {
    && '"' !in value && ',' !in value
    && (value == [] || (!IsSpace(value[0]) && !IsSpace(value[|value| - 1])))
    && (piece == Quoted(value) || (piece == value && value != []))
  }

  lemma CleanPiece(piece: string, value: string)
    requires CleansTo(piece, value)
    ensures ',' !in piece && Clean(piece) == value
  {
    if piece == Quoted(value) {
      CleanUnquotes(value);
    } else {
      CleanKeeps(value);
    }
  }

  /** A line joined from pieces that clean to `values` has exactly those cells. */
  lemma CellsOf(pieces: seq<string>, values: seq<string>)
    requires |pieces| == |values| >= 1
    requires forall j :: 0 <= j < |pieces| ==> CleansTo(pieces[j], values[j])
    ensures Cells(Join(pieces, ',')) == values
  {
    forall j | 0 <= j < |pieces|
      ensures ',' !in pieces[j] && Clean(pieces[j]) == values[j]
    {
      CleanPiece(pieces[j], values[j]);
    }
    CellsOfJoin(pieces);
  }

  /** Four lines joined from pieces free of `d` are free of `d`. */
  lemma LinesAvoid(h: seq<string>, p: seq<string>, b: seq<string>, c: seq<string>, x: char, d: char)
    requires |h| >= 1 && |p| >= 1 && |b| >= 1 && |c| >= 1 && d != x
    requires Avoids(h, d) && Avoids(p, d) && Avoids(b, d) && Avoids(c, d)
    ensures Avoids([Join(h, x), Join(p, x), Join(b, x), Join(c, x)], d)
  {
    var lines := [Join(h, x), Join(p, x), Join(b, x), Join(c, x)];
    forall k | 0 <= k < 4
      ensures d !in lines[k]
    {
      if k == 0 {
        JoinAvoids(h, x, d);
      } else if k == 1 {
        JoinAvoids(p, x, d);
      } else if k == 2 {
        JoinAvoids(b, x, d);
      } else {
        JoinAvoids(c, x, d);
      }
    }
  }

  /** Splitting the trimmed join of lines that do not start or end with white space gives the
      lines back. */
  lemma SplitLines(lines: seq<string>)
    requires |lines| >= 1 && Avoids(lines, '\n')
    requires lines[0] != [] && !IsSpace(lines[0][0])
    requires lines[|lines| - 1] != [] && !IsSpace(lines[|lines| - 1][|lines[|lines| - 1]| - 1])
    ensures Split(Trim(Join(lines, '\n')), '\n') == lines
  {
    JoinFirst(lines, '\n');
    JoinLast(lines, '\n');
    TrimKeeps(Join(lines, '\n'));
    SplitJoin(lines, '\n');
  }

  /** A column whose header is `key`, with no later column of that header, gives the field. */
  lemma FieldAt(headers: seq<string>, values: seq<string>, key: string, j: nat)
    requires |values| == |headers| && j < |headers| && ToLower(headers[j]) == key
    requires forall t :: j < t < |headers| ==> ToLower(headers[t]) != key
    ensures Field(headers, values, key) == Some(values[j])
  {}

  /** Six columns headed by the six required names, in order, fill the six fields in order. */
  lemma RowFromSix(headers: seq<string>, values: seq<string>)
    requires |headers| == 6 && |values| == 6
    requires forall j :: 0 <= j < 6 ==> ToLower(headers[j]) == RequiredHeaders[j]
    ensures RowFrom(headers, values)
      == ProductRow(values[0], values[1], ParseFloatOrZero(values[2]), values[3], values[4], ToLower(values[5]) == "true")
  {
    assert RowByFields(headers, values)
        == ProductRow(values[0], values[1], ParseFloatOrZero(values[2]), values[3], values[4], ToLower(values[5]) == "true")
    by {
      RequiredKeysDiffer();
      FieldAt(headers, values, "name", 0);
      FieldAt(headers, values, "description", 1);
      FieldAt(headers, values, "price", 2);
      FieldAt(headers, values, "category", 3);
      FieldAt(headers, values, "image_url", 4);
      FieldAt(headers, values, "is_available", 5);
    }
    RowFromFields(headers, values);
  }

  /** The required names are lower-case, so the header line of the names passes the check. */
  lemma RequiredHeadersLower()
    ensures forall j :: 0 <= j < 6 ==> ToLower(RequiredHeaders[j]) == RequiredHeaders[j]
    ensures HasAllHeaders(RequiredHeaders)
  {
    forall j | 0 <= j < 6
      ensures ToLower(RequiredHeaders[j]) == RequiredHeaders[j]
    {
      LowerCaseKept(RequiredHeaders[j]);
    }
  }

  /** A line with the wrong column count yields nothing. */
  lemma MisalignedNothing(headers: seq<string>, line: string)
    requires |Cells(line)| != |headers|
    ensures LineProducts(headers, line) == []
  {}

  /** Lines that all have the wrong column count yield nothing. */
  lemma {:induction false} AllMisaligned(headers: seq<string>, rows: seq<string>)
    requires forall i :: 0 <= i < |rows| ==> |Cells(rows[i])| != |headers|
    ensures KeptRows(headers, rows) == []
  {
    if rows != [] {
      AllMisaligned(headers, rows[..|rows| - 1]);
      MisalignedNothing(headers, rows[|rows| - 1]);
    }
  }

  /** Of three data lines, the first two with the wrong column count, only the third can yield
      a product. */
  lemma OnlyThirdLine(headers: seq<string>, a: string, b: string, c: string)
    requires |Cells(a)| != |headers| && |Cells(b)| != |headers|
    ensures KeptRows(headers, [a, b, c]) == LineProducts(headers, c)
  {
    var rows := [a, b, c];
    assert rows[..2][..1][..0] == [];
    MisalignedNothing(headers, a);
    MisalignedNothing(headers, b);
    assert KeptRows(headers, rows[..2][..1]) == [];
    assert KeptRows(headers, rows[..2]) == [];
  }
}
