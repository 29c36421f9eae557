/**
 * The admin product table (frontend/src/pages/admin-panel/ProductList.tsx):
 * a case-insensitive search over name and category, fifteen rows per page,
 * an edit dialog whose save merges the form into the product with the edited
 * id, and deletion by id. The local list changes only after the awaited
 * request has returned.
 */
module ProductList {
  import opened Common
  import opened Types

  const RowsPerPage := 15

  /**
   * The search predicate: the lower-cased name contains the lower-cased term,
   * or the category is present, non-empty, and contains it.
   */
  predicate Matches(p: Product, term: string)
  {
    Includes(Lower(p.name), Lower(term))
    || (p.category.Some? && p.category.value != "" && Includes(Lower(p.category.value), Lower(term)))
  }

  function Filtered(products: seq<Product>, term: string): seq<Product>
  {
    Filter(products, (p: Product) => Matches(p, term))
  }

  /** The filtered list is the products matching the term, none added. */
  lemma FilteredExactly(products: seq<Product>, term: string)
    ensures forall p :: p in Filtered(products, term) <==> p in products && Matches(p, term)
    ensures |Filtered(products, term)| <= |products|
  {
  }

  /** An empty search keeps every product, in its order. */
  lemma EmptySearchKeepsAll(products: seq<Product>)
    ensures Filtered(products, "") == products
  {
    forall i | 0 <= i < |products| ensures Matches(products[i], "") {
      assert StartsWith(Lower(products[i].name), Lower(""));
    }
    FilterKeepsAll(products, (p: Product) => Matches(p, ""));
  }

  /** The search ignores the case of the term. */
  lemma SearchIgnoresTermCase(products: seq<Product>, term: string)
    ensures Filtered(products, Lower(term)) == Filtered(products, term)
  {
    LowerIdempotent(term);
    FilterSameTest(products, (p: Product) => Matches(p, Lower(term)), (p: Product) => Matches(p, term));
  }

  function Min(a: int, b: int): int
  {
    if a <= b then a else b
  }

  /** `filtered.slice(page * 15, page * 15 + 15)`, both ends clamped to the length. */
  function Page(filtered: seq<Product>, page: nat): (rows: seq<Product>)
    ensures |rows| <= RowsPerPage
    ensures forall i :: 0 <= i < |rows| ==>
      page * RowsPerPage + i < |filtered| && rows[i] == filtered[page * RowsPerPage + i]
  {
    var start := Min(page * RowsPerPage, |filtered|);
    filtered[start..Min(page * RowsPerPage + RowsPerPage, |filtered|)]
  }

  /** Every filtered product is shown on exactly the page `i / 15`, at row `i % 15`. */
  lemma {:induction false} PageLocates(filtered: seq<Product>, i: nat)
    requires i < |filtered|
    ensures i % RowsPerPage < |Page(filtered, i / RowsPerPage)|
    ensures Page(filtered, i / RowsPerPage)[i % RowsPerPage] == filtered[i]
  {
    var p := i / RowsPerPage;
    assert p * RowsPerPage + i % RowsPerPage == i;
    assert p * RowsPerPage <= i < p * RowsPerPage + RowsPerPage;
  }

  /** The page index is not reset by a new search, so a page past the end shows no row. */
  lemma StalePageIsEmpty(filtered: seq<Product>, page: nat)
    requires |filtered| <= page * RowsPerPage
    ensures Page(filtered, page) == []
  {
  }

  /**
   * `{...p, ...payload}` where `payload = {...form, image_url}`: each key the
   * form holds overrides the product's, and `image_url`, always a key of the
   * payload, replaces the product's even when it is undefined.
   */
  function Merge(p: Product, form: ProductDraft, imageUrl: Option<string>): (q: Product)
    ensures q.imageUrl == imageUrl
    ensures q.id == (if form.id.Some? then form.id.value else p.id)
    ensures q.name == (if form.name.Some? then form.name.value else p.name)
    ensures q.description == (if form.description.Some? then form.description.value else p.description)
    ensures q.price == (if form.price.Some? then form.price.value else p.price)
    ensures q.mrp == (if form.mrp.Some? then form.mrp.value else p.mrp)
    ensures q.category == (if form.category.Some? then form.category else p.category)
    ensures q.isActive == (if form.isActive.Some? then form.isActive.value else p.isActive)
    ensures q.sequenceNumber == (if form.sequenceNumber.Some? then form.sequenceNumber else p.sequenceNumber)
  {
    Product(form.id.GetOr(p.id), form.name.GetOr(p.name), form.description.GetOr(p.description),
            form.price.GetOr(p.price), form.mrp.GetOr(p.mrp), imageUrl,
            if form.category.Some? then form.category else p.category,
            form.isActive.GetOr(p.isActive),
            if form.sequenceNumber.Some? then form.sequenceNumber else p.sequenceNumber)
  }

  /** Opening the editor on `p` and saving it without a change or a file gives `p` back. */
  lemma SaveUnchangedIsIdentity(p: Product)
    ensures Merge(p, DraftOf(p), DraftOf(p).imageUrl) == p
  {
  }

  /** Saving the same form twice is saving it once. */
  lemma MergeIdempotent(p: Product, form: ProductDraft, imageUrl: Option<string>)
    ensures Merge(Merge(p, form, imageUrl), form, imageUrl) == Merge(p, form, imageUrl)
  {
  }

  /** `products.map(p => p.id === id ? {...p, ...payload} : p)`. */
  function UpdateById(products: seq<Product>, id: string, form: ProductDraft, imageUrl: Option<string>): seq<Product>
  {
    if products == [] then []
    else
      var p := products[|products| - 1];
      UpdateById(products[..|products| - 1], id, form, imageUrl)
        + [if p.id == id then Merge(p, form, imageUrl) else p]
  }

  /** The list keeps its length; a product with another id is untouched, one with the id is merged. */
  lemma {:induction false} UpdateByIdShape(products: seq<Product>, id: string, form: ProductDraft, imageUrl: Option<string>)
    ensures |UpdateById(products, id, form, imageUrl)| == |products|
    ensures forall i :: 0 <= i < |products| ==>
      UpdateById(products, id, form, imageUrl)[i] ==
        if products[i].id == id then Merge(products[i], form, imageUrl) else products[i]
  {
    if products != [] {
      var init := products[..|products| - 1];
      UpdateByIdShape(init, id, form, imageUrl);
      assert forall i :: 0 <= i < |init| ==> products[i] == init[i];
    }
  }

  /** An update for an id the list does not hold changes nothing. */
  lemma {:induction false} UpdateAbsentId(products: seq<Product>, id: string, form: ProductDraft, imageUrl: Option<string>)
    requires forall i :: 0 <= i < |products| ==> products[i].id != id
    ensures UpdateById(products, id, form, imageUrl) == products
  {
    if products != [] {
      UpdateAbsentId(products[..|products| - 1], id, form, imageUrl);
      assert products[..|products| - 1] + [products[|products| - 1]] == products;
    }
  }

  /** `products.filter(p => p.id !== id)`. */
  function RemoveById(products: seq<Product>, id: string): seq<Product>
  {
    Filter(products, (p: Product) => p.id != id)
  }

  lemma RemoveByIdExactly(products: seq<Product>, id: string)
    ensures forall p :: p in RemoveById(products, id) <==> p in products && p.id != id
  {
  }

  /** The `upload_url` and `public_url` keys of the upload reply (`None`: the key is absent). */
  datatype UploadMeta = UploadMeta(uploadUrl: Option<string>, publicUrl: Option<string>)

  /** The table's state: the product list it shares with the admin page, and the edit dialog. */
  class ProductTable {
    var products: seq<Product>
    var editing: Option<Product>
    var form: ProductDraft
    /** The chosen image file, by name. */
    var file: Option<string>
    var page: nat
    var searchTerm: string

    constructor (initial: seq<Product>)
      ensures products == initial && editing == None && form == EmptyDraft && file == None
      ensures page == 0 && searchTerm == ""
    {
      products, editing, form, file, page, searchTerm := initial, None, EmptyDraft, None, 0, "";
    }

    /** The rows on screen. */
    function Visible(): seq<Product>
      reads this
    {
      Page(Filtered(products, searchTerm), page)
    }

    method SetSearch(term: string)
      modifies this
      ensures searchTerm == term && page == old(page)
      ensures products == old(products) && editing == old(editing) && form == old(form) && file == old(file)
    {
      searchTerm := term;
    }

    method SetPage(p: nat)
      modifies this
      ensures page == p
      ensures products == old(products) && editing == old(editing) && form == old(form) && file == old(file)
      ensures searchTerm == old(searchTerm)
    {
      page := p;
    }

    /** The edit button: `setEditingProduct(p); setForm(p)`. */
    method StartEdit(p: Product)
      modifies this
      ensures editing == Some(p) && form == DraftOf(p)
      ensures products == old(products) && file == old(file) && page == old(page) && searchTerm == old(searchTerm)
    {
      editing := Some(p);
      form := DraftOf(p);
    }

    /** A dialog text field: the form becomes `f`. */
    method EditForm(f: ProductDraft)
      modifies this
      ensures form == f
      ensures products == old(products) && editing == old(editing) && file == old(file)
      ensures page == old(page) && searchTerm == old(searchTerm)
    {
      form := f;
    }

    /**
     * `handleFileChange`: the file becomes the selection; a selected file also
     * puts its local preview URL (`blobUrl`) into the form.
     */
    method ChooseFile(selected: Option<string>, blobUrl: string)
      modifies this
      ensures file == selected
      ensures form == if selected.Some? then old(form).(imageUrl := Some(blobUrl)) else old(form)
      ensures products == old(products) && editing == old(editing) && page == old(page) && searchTerm == old(searchTerm)
    {
      file := selected;
      if selected.Some? {
        form := form.(imageUrl := Some(blobUrl));
      }
    }

    /**
     * `updateProduct()`. With a chosen file the handler first awaits two
     * requests: `j("/api/admin/upload-url", "POST", {file}, token)`, whose
     * reply is `meta` (`None`: it threw), and then `fetch(meta.upload_url,
     * {method: "PUT", body: file})`, which rejects only on a network failure
     * (`putFileRejects`), since `fetch` resolves on any HTTP status. The image
     * URL sent is then `meta.public_url`, undefined when the reply lacks it.
     * `saveSucceeds` is whether the final PUT of the product returned; `sent`
     * is its payload, when one was made. A throw at any await ends the handler
     * with the state as it was.
     */
    method UpdateProduct(meta: Option<UploadMeta>, putFileRejects: bool, saveSucceeds: bool) returns (sent: Option<ProductDraft>)
      modifies this
      ensures sent.Some? <==> old(editing).Some? && (old(file).Some? ==> meta.Some? && !putFileRejects)
      ensures sent.Some? ==>
        sent.value == old(form).(imageUrl := if old(file).Some? then meta.value.publicUrl else old(form).imageUrl)
      ensures sent.Some? && saveSucceeds ==>
        && products == UpdateById(old(products), old(editing).value.id, old(form), sent.value.imageUrl)
        && editing == None && file == None && form == EmptyDraft
      ensures !(sent.Some? && saveSucceeds) ==>
        products == old(products) && editing == old(editing) && file == old(file) && form == old(form)
      ensures page == old(page) && searchTerm == old(searchTerm)
    {
      if editing.None? {
        return None;
      }
      var imageUrl := form.imageUrl;
      if file.Some? {
        if meta.None? {
          return None;
        }
        if putFileRejects {
          return None;
        }
        imageUrl := meta.value.publicUrl;
      }
      var payload := form.(imageUrl := imageUrl);
      sent := Some(payload);
      if !saveSucceeds {
        return;
      }
      products := UpdateById(products, editing.value.id, form, imageUrl);
      editing := None;
      file := None;
      form := EmptyDraft;
    }

    /** `removeProduct(id)`: the list changes only when the DELETE returns. */
    method RemoveProduct(id: string, deleteSucceeds: bool)
      modifies this
      ensures products == if deleteSucceeds then RemoveById(old(products), id) else old(products)
      ensures editing == old(editing) && form == old(form) && file == old(file)
      ensures page == old(page) && searchTerm == old(searchTerm)
    {
      if deleteSucceeds {
        products := RemoveById(products, id);
      }
    }
  }
}
