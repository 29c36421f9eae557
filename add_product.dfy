/**
 * The admin "add product" form (frontend/src/pages/admin-panel/add-prodect.tsx):
 * category suggestions from the loaded products, a single-product form with
 * an image uploaded ahead of the save, and a spreadsheet bulk upload that
 * posts one product per valid row.
 */
module AddProduct {
  import opened Common
  import opened Types

  // ---------------------------------------------------------------------------
  // Category suggestions
  // ---------------------------------------------------------------------------

  /** `products.map(p => p.category)`, absent categories included. */
  function CategoryColumn(products: seq<Product>): (cs: seq<Option<string>>)
    ensures |cs| == |products|
    ensures forall i :: 0 <= i < |products| ==> cs[i] == products[i].category
  {
    if products == [] then []
    else CategoryColumn(products[..|products| - 1]) + [products[|products| - 1].category]
  }

  /** `Array.from(new Set(...))` when there are products, `[]` otherwise. */
  function Categories(products: seq<Product>): seq<Option<string>>
  {
    if |products| > 0 then Dedup(CategoryColumn(products)) else []
  }

  /**
   * The suggestions are the distinct categories of the products, each once,
   * in the order in which they first occur; none without products.
   */
  lemma CategoriesExactly(products: seq<Product>)
    ensures products == [] ==> Categories(products) == []
    ensures forall c :: c in Categories(products) <==> exists i :: 0 <= i < |products| && products[i].category == c
    ensures forall i, j :: 0 <= i < j < |Categories(products)| ==> Categories(products)[i] != Categories(products)[j]
    ensures forall i, j :: 0 <= i < j < |Categories(products)| ==>
      IndexOf(CategoryColumn(products), Categories(products)[i]) < IndexOf(CategoryColumn(products), Categories(products)[j])
  {
    var col := CategoryColumn(products);
    if products != [] {
      DedupFirstOccurrenceOrder(col);
    }
    forall c ensures c in col <==> exists i :: 0 <= i < |products| && products[i].category == c {
      if c in col {
        var i :| 0 <= i < |col| && col[i] == c;
        assert products[i].category == c;
      }
    }
  }

  // ---------------------------------------------------------------------------
  // The single-product form
  // ---------------------------------------------------------------------------

  const RequiredMsg := "Required"
  const MrpMsg := "Invalid MRP"
  const PriceMsg := "Invalid Price"
  const ImageMsg := "Image required"

  /** `!x?.trim()`: absent, or blank after trimming. */
  predicate Missing(x: Option<string>)
  {
    x.None? || Blank(x.value)
  }

  /** `x === undefined || x < 0`. */
  predicate BadAmount(x: Option<real>)
  {
    x.None? || x.value < 0.0
  }

  /** `!imageUrl`: no uploaded URL, or an empty one. */
  predicate NoImage(imageUrl: Option<string>)
  {
    imageUrl.None? || imageUrl.value == ""
  }

  predicate FormValid(form: ProductDraft, imageUrl: Option<string>)
  {
    !Missing(form.name) && !BadAmount(form.mrp) && !BadAmount(form.price) && !Missing(form.category) && !NoImage(imageUrl)
  }

  /** `e` is what `validateForm` returns: one message per failing rule and nothing else. */
  predicate IsFormValidation(form: ProductDraft, imageUrl: Option<string>, e: map<string, string>)
  {
    && e.Keys <= {"name", "mrp", "price", "category", "image_url"}
    && ("name" in e <==> Missing(form.name)) && ("name" in e ==> e["name"] == RequiredMsg)
    && ("mrp" in e <==> BadAmount(form.mrp)) && ("mrp" in e ==> e["mrp"] == MrpMsg)
    && ("price" in e <==> BadAmount(form.price)) && ("price" in e ==> e["price"] == PriceMsg)
    && ("category" in e <==> Missing(form.category)) && ("category" in e ==> e["category"] == RequiredMsg)
    && ("image_url" in e <==> NoImage(imageUrl)) && ("image_url" in e ==> e["image_url"] == ImageMsg)
  }

  /** `validateForm()`. */
  method ValidateForm(form: ProductDraft, imageUrl: Option<string>) returns (e: map<string, string>)
    ensures IsFormValidation(form, imageUrl, e)
    ensures e == map[] <==> FormValid(form, imageUrl)
  {
    e := map[];
    if Missing(form.name) {
      e := e["name" := RequiredMsg];
    }
    if BadAmount(form.mrp) {
      e := e["mrp" := MrpMsg];
    }
    if BadAmount(form.price) {
      e := e["price" := PriceMsg];
    }
    if Missing(form.category) {
      e := e["category" := RequiredMsg];
    }
    if NoImage(imageUrl) {
      e := e["image_url" := ImageMsg];
    }
    if FormValid(form, imageUrl) {
      assert e.Keys == {};
    }
  }

  /** The body of the create request. */
  datatype NewProduct = NewProduct(
    name: string, mrp: real, price: real, category: string, isActive: bool,
    description: string, imageUrl: string, sequenceNumber: real)

  /** The payload of `saveProduct`, with its defaults: active, empty description, sequence number 1. */
  function PayloadOf(form: ProductDraft, imageUrl: Option<string>): (p: NewProduct)
    requires FormValid(form, imageUrl)
    ensures form.isActive.None? ==> p.isActive
    ensures form.description.None? ==> p.description == ""
    ensures form.sequenceNumber.None? ==> p.sequenceNumber == 1.0
    ensures p.mrp >= 0.0 && p.price >= 0.0 && !Blank(p.name) && !Blank(p.category) && p.imageUrl != ""
  {
    NewProduct(form.name.value, form.mrp.value, form.price.value, form.category.value,
               form.isActive.GetOr(true), form.description.GetOr(""), imageUrl.value,
               form.sequenceNumber.GetOr(1.0))
  }

  /** `{ is_active: true }`. */
  const FreshForm := EmptyDraft.(isActive := Some(true))

  // ---------------------------------------------------------------------------
  // Bulk upload
  // ---------------------------------------------------------------------------

  /** A spreadsheet cell as `sheet_to_json` gives it: absent, text, number or boolean. */
  datatype Cell = Absent | Text(s: string) | Number(r: real) | Flag(b: bool)

  predicate CellTruthy(c: Cell)
  {
    match c
    case Absent => false
    case Text(s) => s != ""
    case Number(r) => r != 0.0
    case Flag(b) => b
  }

  /**
   * One parsed row. `raw` is its `JSON.stringify` text; the other fields are
   * the cells under the headers Name, MRP, Price, Category, Description,
   * Active and ImageURL.
   */
  datatype SheetRow = SheetRow(
    raw: string, name: Cell, mrp: Cell, price: Cell, category: Cell,
    description: Cell, active: Cell, imageUrl: Cell)

  /**
   * `parseFloat(cell)`: a number is itself; text goes through `floatOf`, the
   * prefix reading of JavaScript's `parseFloat` (`None` is NaN); absent and
   * boolean cells are NaN.
   */
  function ParseFloatCell(c: Cell, floatOf: string -> Option<real>): Option<real>
  {
    match c
    case Number(r) => Some(r)
    case Text(s) => floatOf(s)
    case _ => None
  }

  datatype BulkPayload = BulkPayload(
    name: Cell, mrp: real, price: real, category: Cell, description: Cell, isActive: bool, imageUrl: Cell)

  /** A row is posted only with a truthy name and category and numeric price and MRP. */
  predicate RowValid(row: SheetRow, floatOf: string -> Option<real>)
  {
    CellTruthy(row.name) && CellTruthy(row.category)
    && ParseFloatCell(row.price, floatOf).Some? && ParseFloatCell(row.mrp, floatOf).Some?
  }

  /**
   * The payload a valid row posts: the name and category cells as they are,
   * MRP and price through `parseFloat`, a falsy description or image URL
   * replaced by `""`, and `Active` made boolean, `true` when the column is absent.
   */
  function RowPayload(row: SheetRow, floatOf: string -> Option<real>): (p: BulkPayload)
    requires RowValid(row, floatOf)
    ensures p.name == row.name && p.category == row.category && CellTruthy(p.name) && CellTruthy(p.category)
    ensures ParseFloatCell(row.mrp, floatOf) == Some(p.mrp) && ParseFloatCell(row.price, floatOf) == Some(p.price)
    ensures CellTruthy(row.description) ==> p.description == row.description
    ensures !CellTruthy(row.description) ==> p.description == Text("")
    ensures CellTruthy(row.imageUrl) ==> p.imageUrl == row.imageUrl
    ensures !CellTruthy(row.imageUrl) ==> p.imageUrl == Text("")
    ensures p.isActive <==> row.active.Absent? || CellTruthy(row.active)
  {
    BulkPayload(row.name, ParseFloatCell(row.mrp, floatOf).value, ParseFloatCell(row.price, floatOf).value,
                row.category,
                if CellTruthy(row.description) then row.description else Text(""),
                if row.active.Absent? then true else CellTruthy(row.active),
                if CellTruthy(row.imageUrl) then row.imageUrl else Text(""))
  }

  /** What row `row` posts, if anything: only a valid row reaches the server. */
  function RowSent(row: SheetRow, floatOf: string -> Option<real>): Option<BulkPayload>
  {
    if RowValid(row, floatOf) then Some(RowPayload(row, floatOf)) else None
  }

  const InvalidPrefix := "Invalid row: "
  const FailedPrefix := "Failed row: "

  /**
   * The loop's result over `rows`, where `post[i]` is the product the create
   * request returns for row `i` (`None`: it threw). Errors and created
   * products are both in row order; every row ends as exactly one error or
   * one created product.
   */
  function Bulk(rows: seq<SheetRow>, post: seq<Option<Product>>, floatOf: string -> Option<real>): (r: (seq<string>, seq<Product>))
    requires |post| == |rows|
    ensures |r.0| + |r.1| == |rows|
  {
    if rows == [] then ([], [])
    else
      var n := |rows| - 1;
      var (errors, created) := Bulk(rows[..n], post[..n], floatOf);
      if !RowValid(rows[n], floatOf) then (errors + [InvalidPrefix + rows[n].raw], created)
      else if post[n].None? then (errors + [FailedPrefix + rows[n].raw], created)
      else (errors, created + [post[n].value])
  }

  /** The message row `row` leaves in `errors`, if any: invalid rows first, then rows whose POST threw. */
  function RowError(row: SheetRow, posted: Option<Product>, floatOf: string -> Option<real>): Option<string>
  {
    if !RowValid(row, floatOf) then Some(InvalidPrefix + row.raw)
    else if posted.None? then Some(FailedPrefix + row.raw)
    else None
  }

  /** The product row `row` adds to `newProducts`, if any: a valid row whose POST returned. */
  function RowCreated(row: SheetRow, posted: Option<Product>, floatOf: string -> Option<real>): Option<Product>
  {
    if RowValid(row, floatOf) then posted else None
  }

  /**
   * Row by row: the errors are the messages of the invalid rows and of the
   * valid rows whose POST threw, and the created products are the responses
   * of the other rows, both in row order.
   */
  lemma {:induction false} BulkRowByRow(rows: seq<SheetRow>, post: seq<Option<Product>>, floatOf: string -> Option<real>)
    requires |post| == |rows|
    ensures Bulk(rows, post, floatOf).0 == Somes(seq(|rows|, i requires 0 <= i < |rows| => RowError(rows[i], post[i], floatOf)))
    ensures Bulk(rows, post, floatOf).1 == Somes(seq(|rows|, i requires 0 <= i < |rows| => RowCreated(rows[i], post[i], floatOf)))
  {
    if rows != [] {
      var n := |rows| - 1;
      BulkRowByRow(rows[..n], post[..n], floatOf);
      var es := seq(|rows|, i requires 0 <= i < |rows| => RowError(rows[i], post[i], floatOf));
      var cs := seq(|rows|, i requires 0 <= i < |rows| => RowCreated(rows[i], post[i], floatOf));
      assert es[..n] == seq(n, i requires 0 <= i < n => RowError(rows[..n][i], post[..n][i], floatOf));
      assert cs[..n] == seq(n, i requires 0 <= i < n => RowCreated(rows[..n][i], post[..n][i], floatOf));
    }
  }

  /** All rows valid and every post returning: no error, and the products are the responses in row order. */
  lemma {:induction false} BulkAllGood(rows: seq<SheetRow>, post: seq<Option<Product>>, floatOf: string -> Option<real>)
    requires |post| == |rows|
    requires forall i :: 0 <= i < |rows| ==> RowValid(rows[i], floatOf) && post[i].Some?
    ensures Bulk(rows, post, floatOf).0 == []
    ensures |Bulk(rows, post, floatOf).1| == |rows|
    ensures forall i :: 0 <= i < |rows| ==> Bulk(rows, post, floatOf).1[i] == post[i].value
  {
    if rows != [] {
      var n := |rows| - 1;
      BulkAllGood(rows[..n], post[..n], floatOf);
    }
  }

  /** An invalid row never reaches the server, whatever its response would have been. */
  lemma {:induction false} InvalidRowsIgnorePost(rows: seq<SheetRow>, post1: seq<Option<Product>>, post2: seq<Option<Product>>, floatOf: string -> Option<real>)
    requires |post1| == |rows| && |post2| == |rows|
    requires forall i :: 0 <= i < |rows| && RowValid(rows[i], floatOf) ==> post1[i] == post2[i]
    ensures Bulk(rows, post1, floatOf) == Bulk(rows, post2, floatOf)
  {
    if rows != [] {
      var n := |rows| - 1;
      InvalidRowsIgnorePost(rows[..n], post1[..n], post2[..n], floatOf);
    }
  }

  /**
   * The loop of `uploadBulkProducts`, pushing into `errors` and `created`;
   * `sent` lists the payloads it POSTs, one per valid row, in row order.
   */
  method ProcessRows(rows: seq<SheetRow>, post: seq<Option<Product>>, floatOf: string -> Option<real>)
    returns (errors: seq<string>, created: seq<Product>, sent: seq<BulkPayload>)
    requires |post| == |rows|
    ensures (errors, created) == Bulk(rows, post, floatOf)
    ensures sent == Somes(seq(|rows|, i requires 0 <= i < |rows| => RowSent(rows[i], floatOf)))
  {
    errors, created, sent := [], [], [];
    for i := 0 to |rows|
      invariant (errors, created) == Bulk(rows[..i], post[..i], floatOf)
      invariant sent == Somes(seq(i, j requires 0 <= j < i => RowSent(rows[j], floatOf)))
    {
      assert rows[..i + 1][..i] == rows[..i] && post[..i + 1][..i] == post[..i];
      ghost var next := seq(i + 1, j requires 0 <= j < i + 1 => RowSent(rows[j], floatOf));
      assert next[..i] == seq(i, j requires 0 <= j < i => RowSent(rows[j], floatOf));
      var row := rows[i];
      if !RowValid(row, floatOf) {
        errors := errors + [InvalidPrefix + row.raw];
        continue;
      }
      var payload := RowPayload(row, floatOf);
      sent := sent + [payload];
      if post[i].None? {
        errors := errors + [FailedPrefix + row.raw];
      } else {
        created := created + [post[i].value];
      }
    }
    assert rows[..|rows|] == rows && post[..|rows|] == post;
  }

  /** The form's state, with the product list it shares with the admin page. */
  class ProductForm {
    var products: seq<Product>
    var form: ProductDraft
    var preview: Option<string>
    var imageUrl: Option<string>
    var errors: map<string, string>
    /** The chosen spreadsheet, already parsed into rows. */
    var bulkFile: Option<seq<SheetRow>>
    var bulkErrors: seq<string>
    /** The category options: recomputed from `products` whenever the list changes, and extended by new options. */
    var categories: seq<Option<string>>

    constructor (initial: seq<Product>)
      ensures products == initial && form == FreshForm && preview == None && imageUrl == None
      ensures errors == map[] && bulkFile == None && bulkErrors == [] && categories == Categories(initial)
    {
      products, form, preview, imageUrl, errors, bulkFile, bulkErrors := initial, FreshForm, None, None, map[], None, [];
      categories := Categories(initial);
    }

    /**
     * `onCreateOption(newCategory)`: the typed category is appended to the
     * options, without a duplicate check, and chosen in the form.
     */
    method CreateCategory(newCategory: string)
      modifies this
      ensures categories == old(categories) + [Some(newCategory)]
      ensures form == old(form).(category := Some(newCategory))
      ensures products == old(products) && imageUrl == old(imageUrl) && errors == old(errors)
      ensures bulkFile == old(bulkFile) && bulkErrors == old(bulkErrors) && preview == old(preview)
    {
      categories := categories + [Some(newCategory)];
      form := form.(category := Some(newCategory));
    }

    method EditForm(f: ProductDraft)
      modifies this
      ensures form == f
      ensures products == old(products) && imageUrl == old(imageUrl) && errors == old(errors)
      ensures bulkFile == old(bulkFile) && bulkErrors == old(bulkErrors) && preview == old(preview)
      ensures categories == old(categories)
    {
      form := f;
    }

    /**
     * `handleFileChange`: the stored URL is cleared first and set only to what a
     * successful upload returns (`uploaded`; `None` for a failed upload or a
     * response without `public_url`).
     */
    method ChooseImage(file: Option<string>, blobUrl: string, uploaded: Option<string>)
      modifies this
      ensures preview == if file.Some? then Some(blobUrl) else None
      ensures imageUrl == if file.Some? then uploaded else None
      ensures imageUrl.None? ==> !FormValid(form, imageUrl)
      ensures products == old(products) && form == old(form) && errors == old(errors)
      ensures bulkFile == old(bulkFile) && bulkErrors == old(bulkErrors) && categories == old(categories)
    {
      preview := if file.Some? then Some(blobUrl) else None;
      imageUrl := None;
      if file.None? {
        return;
      }
      imageUrl := uploaded;
    }

    /**
     * `saveProduct()`. `created` is the product the create request returns
     * (`None`: it threw); `sent` is the payload posted, if any.
     */
    method SaveProduct(created: Option<Product>) returns (sent: Option<NewProduct>)
      modifies this
      ensures IsFormValidation(old(form), old(imageUrl), if sent.Some? && created.Some? then map[] else errors)
      ensures sent.Some? <==> FormValid(old(form), old(imageUrl))
      ensures sent.Some? ==> sent.value == PayloadOf(old(form), old(imageUrl))
      ensures sent.Some? && created.Some? ==>
        && products == [created.value] + old(products)
        && form == FreshForm && preview == None && imageUrl == None && errors == map[]
      ensures !(sent.Some? && created.Some?) ==>
        products == old(products) && form == old(form) && imageUrl == old(imageUrl) && preview == old(preview)
        && categories == old(categories)
      ensures sent.Some? && created.Some? ==> categories == Categories(products)
      ensures bulkFile == old(bulkFile) && bulkErrors == old(bulkErrors)
    {
      var e := ValidateForm(form, imageUrl);
      errors := e;
      if |e| > 0 {
        return None;
      }
      sent := Some(PayloadOf(form, imageUrl));
      if created.Some? {
        products := [created.value] + products;
        form := FreshForm;
        preview := None;
        imageUrl := None;
        errors := map[];
        categories := Categories(products);
      }
    }

    /** `handleBulkFileChange`. */
    method ChooseBulkFile(file: Option<seq<SheetRow>>)
      modifies this
      ensures bulkFile == file && bulkErrors == []
      ensures products == old(products) && form == old(form) && imageUrl == old(imageUrl) && errors == old(errors)
      ensures preview == old(preview) && categories == old(categories)
    {
      bulkFile := file;
      bulkErrors := [];
    }

    /**
     * `uploadBulkProducts()`: no file, nothing happens; otherwise the created
     * products go first, in file order. `sent` is the payloads posted.
     */
    method UploadBulk(post: seq<Option<Product>>, floatOf: string -> Option<real>) returns (sent: seq<BulkPayload>)
      requires bulkFile.Some? ==> |post| == |bulkFile.value|
      modifies this
      ensures old(bulkFile).None? ==> sent == []
      ensures old(bulkFile).Some? ==>
        var rows := old(bulkFile).value;
        sent == Somes(seq(|rows|, i requires 0 <= i < |rows| => RowSent(rows[i], floatOf)))
      ensures old(bulkFile).None? ==>
        products == old(products) && bulkErrors == old(bulkErrors) && bulkFile == None && categories == old(categories)
      ensures old(bulkFile).Some? ==>
        var (errs, made) := Bulk(old(bulkFile).value, post, floatOf);
        products == made + old(products) && bulkErrors == errs && bulkFile == None && categories == Categories(products)
      ensures form == old(form) && imageUrl == old(imageUrl) && errors == old(errors) && preview == old(preview)
    {
      if bulkFile.None? {
        return [];
      }
      var errs, made;
      errs, made, sent := ProcessRows(bulkFile.value, post, floatOf);
      products := made + products;
      bulkErrors := errs;
      bulkFile := None;
      categories := Categories(products);
    }
  }
}
