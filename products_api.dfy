/**
 * The product endpoints of the Flask backend (backend/main.py): the public
 * listing and the admin create, update, delete and image-upload handlers.
 * The Firestore `products` collection is a map from document id to document;
 * Firestore's own query engine is represented by the stream it returns, which
 * the listing takes as a parameter together with what Firestore guarantees
 * of it.
 */
module ProductsApi {
  import opened Common
  import opened Json

  /** What a handler does: answer with a response, or raise, which Flask turns into a 500 page. */
  datatype Outcome = Respond(response: Response) | Raised

  /** The timestamp `created_at` holds (Firestore resolves `SERVER_TIMESTAMP` to one). */
  function CreatedAt(doc: Object): Option<int>
  {
    if "created_at" in doc && doc["created_at"].VInt? then Some(doc["created_at"].i) else None
  }

  /**
   * The query of `list_products`: `is_active == True`, `category == cat` when
   * `cat` is non-empty, and a `created_at` value (ordering on a field drops
   * documents that lack it).
   */
  predicate QueryMatches(doc: Object, cat: Option<string>)
  {
    && Get(doc, "is_active", VNull) == VBool(true)
    && (cat.None? || cat.value == "" || Get(doc, "category", VNull) == VStr(cat.value))
    && CreatedAt(doc).Some?
  }

  /** The document ids a stream carries. */
  function StreamIds(stream: seq<(string, Object)>): set<string>
  {
    set i | 0 <= i < |stream| :: stream[i].0
  }

  /** What Firestore promises of the stream: each matching document once, newest first. */
  predicate IsQueryAnswer(db: map<string, Object>, cat: Option<string>, stream: seq<(string, Object)>)
  {
    && (forall i, j :: 0 <= i < j < |stream| ==> stream[i].0 != stream[j].0)
    && (forall i :: 0 <= i < |stream| ==>
          stream[i].0 in db && db[stream[i].0] == stream[i].1 && QueryMatches(stream[i].1, cat))
    && (forall id :: id in db && QueryMatches(db[id], cat) ==> id in StreamIds(stream))
    && (forall i, j :: 0 <= i < j < |stream| ==> CreatedAt(stream[i].1).value >= CreatedAt(stream[j].1).value)
  }

  /** One listed product: the document with its id written over any `id` field it holds. */
  function Entry(d: (string, Object)): Object
  {
    d.1["id" := VStr(d.0)]
  }

  function Listing(stream: seq<(string, Object)>): (out: seq<Object>)
    ensures |out| == |stream|
  {
    if stream == [] then [] else Listing(stream[..|stream| - 1]) + [Entry(stream[|stream| - 1])]
  }

  lemma {:induction false} ListingAt(stream: seq<(string, Object)>, k: int)
    requires 0 <= k < |stream|
    ensures Listing(stream)[k] == Entry(stream[k])
  {
    if k < |stream| - 1 {
      ListingAt(stream[..|stream| - 1], k);
    }
  }

  /** One listed entry carries the document id and otherwise the stored fields of a matching document. */
  lemma EntryFacts(db: map<string, Object>, cat: Option<string>, d: (string, Object))
    requires d.0 in db && db[d.0] == d.1 && QueryMatches(d.1, cat)
    ensures Get(Entry(d), "id", VNull) == VStr(d.0)
    ensures Entry(d) - {"id"} == db[d.0] - {"id"}
    ensures Get(Entry(d), "is_active", VNull) == VBool(true)
    ensures cat.Some? && cat.value != "" ==> Get(Entry(d), "category", VNull) == VStr(cat.value)
  {
    assert Entry(d)["is_active"] == d.1["is_active"];
    if "category" in d.1 {
      assert Entry(d)["category"] == d.1["category"];
    }
  }

  /**
   * Each listed product is an active product (of the category, when one is
   * asked for), carrying its document id and otherwise the stored fields.
   */
  lemma ListingEntries(db: map<string, Object>, cat: Option<string>, stream: seq<(string, Object)>)
    requires IsQueryAnswer(db, cat, stream)
    ensures forall k :: 0 <= k < |stream| ==>
      && stream[k].0 in db
      && Get(Listing(stream)[k], "id", VNull) == VStr(stream[k].0)
      && Listing(stream)[k] - {"id"} == db[stream[k].0] - {"id"}
      && Get(Listing(stream)[k], "is_active", VNull) == VBool(true)
      && (cat.Some? && cat.value != "" ==> Get(Listing(stream)[k], "category", VNull) == VStr(cat.value))
  {
    forall k | 0 <= k < |stream|
      ensures Listing(stream)[k] == Entry(stream[k])
    {
      ListingAt(stream, k);
    }
    forall k | 0 <= k < |stream|
      ensures stream[k].0 in db && db[stream[k].0] == stream[k].1 && QueryMatches(stream[k].1, cat)
    {
    }
    forall k | 0 <= k < |stream|
      ensures Get(Entry(stream[k]), "id", VNull) == VStr(stream[k].0)
      ensures Entry(stream[k]) - {"id"} == db[stream[k].0] - {"id"}
      ensures Get(Entry(stream[k]), "is_active", VNull) == VBool(true)
      ensures cat.Some? && cat.value != "" ==> Get(Entry(stream[k]), "category", VNull) == VStr(cat.value)
    {
      EntryFacts(db, cat, stream[k]);
    }
  }

  /** Listed ids are pairwise distinct: no product is listed twice. */
  lemma ListingDistinct(db: map<string, Object>, cat: Option<string>, stream: seq<(string, Object)>)
    requires IsQueryAnswer(db, cat, stream)
    ensures forall k, l :: 0 <= k < l < |stream| ==>
      Get(Listing(stream)[k], "id", VNull) != Get(Listing(stream)[l], "id", VNull)
  {
    forall k, l | 0 <= k < l < |stream|
      ensures Get(Listing(stream)[k], "id", VNull) != Get(Listing(stream)[l], "id", VNull)
    {
      ListingAt(stream, k);
      ListingAt(stream, l);
    }
  }

  /**
   * Every active product (of the category, when one is asked for) is listed:
   * some entry of the listing, the entry for a stream position, carries its id.
   */
  lemma ListingComplete(db: map<string, Object>, cat: Option<string>, stream: seq<(string, Object)>)
    requires IsQueryAnswer(db, cat, stream)
    ensures forall k :: 0 <= k < |stream| ==> Listing(stream)[k] == Entry(stream[k])
    ensures forall id :: id in db && QueryMatches(db[id], cat) ==>
      exists k :: 0 <= k < |stream| && Get(Entry(stream[k]), "id", VNull) == VStr(id)
  {
    forall k | 0 <= k < |stream|
      ensures Listing(stream)[k] == Entry(stream[k])
    {
      ListingAt(stream, k);
    }
    StreamIdsListed(db, cat, stream);
  }

  /** Every id the stream carries is the id of the entry listed for it. */
  lemma StreamIdsListed(db: map<string, Object>, cat: Option<string>, stream: seq<(string, Object)>)
    requires forall id :: id in db && QueryMatches(db[id], cat) ==> id in StreamIds(stream)
    ensures forall id :: id in db && QueryMatches(db[id], cat) ==>
      exists k :: 0 <= k < |stream| && Get(Entry(stream[k]), "id", VNull) == VStr(id)
  {
    forall id | id in db && QueryMatches(db[id], cat)
      ensures exists k :: 0 <= k < |stream| && Get(Entry(stream[k]), "id", VNull) == VStr(id)
    {
      assert id in StreamIds(stream);
      var i :| 0 <= i < |stream| && stream[i].0 == id;
      assert Get(Entry(stream[i]), "id", VNull) == VStr(id);
    }
  }

  /** The listing is newest first: `created_at` does not increase along it. */
  lemma ListingNewestFirst(db: map<string, Object>, cat: Option<string>, stream: seq<(string, Object)>)
    requires IsQueryAnswer(db, cat, stream)
    ensures forall k, l :: 0 <= k < l < |stream| ==>
      CreatedAt(Listing(stream)[k]).Some? && CreatedAt(Listing(stream)[l]).Some?
      && CreatedAt(Listing(stream)[k]).value >= CreatedAt(Listing(stream)[l]).value
  {
    forall k | 0 <= k < |stream|
      ensures CreatedAt(Listing(stream)[k]) == CreatedAt(stream[k].1) && CreatedAt(stream[k].1).Some?
    {
      ListingAt(stream, k);
      var d := stream[k];
      assert QueryMatches(d.1, cat);
      assert Entry(d)["created_at"] == d.1["created_at"];
    }
  }

  // ---------------------------------------------------------------------------
  // Create and update
  // ---------------------------------------------------------------------------

  /** `float(doc[key])` when the key is present, nothing otherwise. */
  function CoerceFloat(doc: Object, key: string, parse: NumberParsers): Conv<Object>
  {
    if key !in doc then Converted(doc)
    else match PyFloat(doc[key], parse)
      case Converted(x) => Converted(doc[key := VFloat(x)])
      case ValueError => ValueError
      case TypeError => TypeError
  }

  /** The `mrp` conversion, then the `price` one; the first failure wins. */
  function CoercePrices(doc: Object, parse: NumberParsers): Conv<Object>
  {
    match CoerceFloat(doc, "mrp", parse)
    case Converted(d) => CoerceFloat(d, "price", parse)
    case ValueError => ValueError
    case TypeError => TypeError
  }

  /** The document `create_product` stores, or the conversion error. */
  function StoredDoc(doc: Object, now: int, parse: NumberParsers): Conv<Object>
  {
    match CoercePrices(doc, parse)
    case Converted(d) =>
      Converted(d["is_active" := VBool(StrIsTrue(Get(d, "is_active", VStr("true"))))]["created_at" := VInt(now)])
    case ValueError => ValueError
    case TypeError => TypeError
  }

  /**
   * Converted prices are floats, a missing `is_active` becomes true and a
   * present one is true iff its string form is "true" or "1", and every other
   * field is stored as sent.
   */
  lemma StoredDocFacts(doc: Object, now: int, parse: NumberParsers)
    requires StoredDoc(doc, now, parse).Converted?
    ensures var s := StoredDoc(doc, now, parse).value;
      && s.Keys == doc.Keys + {"is_active", "created_at"}
      && ("mrp" in doc ==> s["mrp"].VFloat? && Converted(s["mrp"].r) == PyFloat(doc["mrp"], parse))
      && ("price" in doc ==> s["price"].VFloat? && Converted(s["price"].r) == PyFloat(doc["price"], parse))
      && s["is_active"] == VBool("is_active" !in doc || StrIsTrue(doc["is_active"]))
      && s["created_at"] == VInt(now)
      && (forall k :: k in doc && k !in {"mrp", "price", "is_active", "created_at"} ==> s[k] == doc[k])
  {
  }

  /** The MRP is converted first: an MRP of the wrong kind raises whatever the price holds. */
  lemma CreateConversionOrder(doc: Object, now: int, parse: NumberParsers)
    requires "mrp" in doc && PyFloat(doc["mrp"], parse).TypeError?
    ensures StoredDoc(doc, now, parse).TypeError?
  {
  }

  /** `{k: v for k, v in body.items() if k in fields}`. */
  const UpdateFields: set<string> := {"name", "description", "price", "mrp", "category", "image_url", "is_active"}

  function Whitelist(body: Object): (patch: Object)
    ensures patch.Keys == body.Keys * UpdateFields
    ensures forall k :: k in patch ==> patch[k] == body[k]
  {
    map k | k in body.Keys && k in UpdateFields :: body[k]
  }

  /** The patch after its conversions. */
  function CoercePatch(patch: Object, parse: NumberParsers): Conv<Object>
  {
    match CoercePrices(patch, parse)
    case Converted(p) =>
      Converted(if "is_active" in p then p["is_active" := VBool(StrIsTrue(p["is_active"]))] else p)
    case ValueError => ValueError
    case TypeError => TypeError
  }

  /** The written patch holds only whitelisted fields; the edit dialog's `sequence_number` never gets through. */
  lemma PatchOnlyWhitelisted(body: Object, parse: NumberParsers)
    requires CoercePatch(Whitelist(body), parse).Converted?
    ensures CoercePatch(Whitelist(body), parse).value.Keys == body.Keys * UpdateFields
    ensures "sequence_number" !in CoercePatch(Whitelist(body), parse).value
    ensures "id" !in CoercePatch(Whitelist(body), parse).value
  {
  }

  const InvalidPriceMsg := "Invalid price/mrp"
  const InvalidPatchMsg := "Invalid numeric/boolean value"

  /** The Firestore collection the handlers work on. */
  class ProductsBackend {
    var db: map<string, Object>

    constructor (initial: map<string, Object>)
      ensures db == initial
    {
      db := initial;
    }

    /** `list_products()`: the loop over the stream, adding each id. */
    method ListProducts(cat: Option<string>, stream: seq<(string, Object)>) returns (out: seq<Object>)
      requires IsQueryAnswer(db, cat, stream)
      ensures out == Listing(stream)
    {
      out := [];
      for i := 0 to |stream|
        invariant out == Listing(stream[..i])
      {
        assert stream[..i + 1][..i] == stream[..i];
        var x := stream[i].1;
        x := x["id" := VStr(stream[i].0)];
        out := out + [x];
      }
      assert stream[..|stream|] == stream;
    }

    /**
     * `create_product()` with the body `doc`, the id Firestore assigns and the
     * server time. The response carries the new id, then every stored field,
     * so a stored `id` field wins over the document id.
     */
    method CreateProduct(doc: Object, newId: string, now: int, parse: NumberParsers) returns (out: Outcome)
      requires newId !in db
      modifies this
      ensures StoredDoc(doc, now, parse).ValueError? ==>
        out == Respond(Response(400, map["error" := VStr(InvalidPriceMsg)])) && db == old(db)
      ensures StoredDoc(doc, now, parse).TypeError? ==> out == Raised && db == old(db)
      ensures StoredDoc(doc, now, parse).Converted? ==>
        var s := StoredDoc(doc, now, parse).value;
        db == old(db)[newId := s] && out == Respond(Response(201, map["id" := VStr(newId)] + s))
    {
      var d := doc;
      if "mrp" in d {
        match PyFloat(d["mrp"], parse)
        case Converted(x) => d := d["mrp" := VFloat(x)];
        case ValueError => return Respond(Response(400, map["error" := VStr(InvalidPriceMsg)]));
        case TypeError => return Raised;
      }
      if "price" in d {
        match PyFloat(d["price"], parse)
        case Converted(x) => d := d["price" := VFloat(x)];
        case ValueError => return Respond(Response(400, map["error" := VStr(InvalidPriceMsg)]));
        case TypeError => return Raised;
      }
      d := d["is_active" := VBool(StrIsTrue(Get(d, "is_active", VStr("true"))))];
      d := d["created_at" := VInt(now)];
      db := db[newId := d];
      out := Respond(Response(201, map["id" := VStr(newId)] + d));
    }

    /**
     * `update_product(pid)`: whitelist, convert, then update. The Firestore
     * client raises on an empty update (`ValueError` from `update({})`, outside
     * the `try`) and the server raises on a document that does not exist.
     */
    method UpdateProduct(pid: string, body: Object, parse: NumberParsers) returns (out: Outcome)
      modifies this
      ensures var c := CoercePatch(Whitelist(body), parse);
        && (c.ValueError? ==> out == Respond(Response(400, map["error" := VStr(InvalidPatchMsg)])) && db == old(db))
        && (c.TypeError? ==> out == Raised && db == old(db))
        && (c.Converted? && (c.value == map[] || pid !in old(db)) ==> out == Raised && db == old(db))
        && (c.Converted? && c.value != map[] && pid in old(db) ==>
              db == old(db)[pid := old(db)[pid] + c.value]
              && out == Respond(Response(200, map["id" := VStr(pid)] + c.value)))
    {
      var patch := Whitelist(body);
      if "mrp" in patch {
        match PyFloat(patch["mrp"], parse)
        case Converted(x) => patch := patch["mrp" := VFloat(x)];
        case ValueError => return Respond(Response(400, map["error" := VStr(InvalidPatchMsg)]));
        case TypeError => return Raised;
      }
      if "price" in patch {
        match PyFloat(patch["price"], parse)
        case Converted(x) => patch := patch["price" := VFloat(x)];
        case ValueError => return Respond(Response(400, map["error" := VStr(InvalidPatchMsg)]));
        case TypeError => return Raised;
      }
      if "is_active" in patch {
        patch := patch["is_active" := VBool(StrIsTrue(patch["is_active"]))];
      }
      if patch == map[] || pid !in db {
        return Raised;
      }
      db := db[pid := db[pid] + patch];
      out := Respond(Response(200, map["id" := VStr(pid)] + patch));
    }

    /** `delete_product(pid)`: deleting a missing document is not an error. */
    method DeleteProduct(pid: string) returns (out: Response)
      modifies this
      ensures db == old(db) - {pid}
      ensures out == Response(200, map["deleted" := VBool(true)])
    {
      db := db - {pid};
      out := Response(200, map["deleted" := VBool(true)]);
    }
  }

  /** The update response is the id plus exactly the written patch. */
  lemma UpdateResponseShape(pid: string, body: Object, parse: NumberParsers)
    requires CoercePatch(Whitelist(body), parse).Converted?
    ensures var p := CoercePatch(Whitelist(body), parse).value;
      (map["id" := VStr(pid)] + p).Keys == p.Keys + {"id"}
      && (map["id" := VStr(pid)] + p)["id"] == VStr(pid)
  {
    PatchOnlyWhitelisted(body, parse);
  }

  /** A client-sent `id` field shadows the new document id in the create response. */
  lemma ClientIdShadowsNewId(doc: Object, newId: string, now: int, parse: NumberParsers)
    requires StoredDoc(doc, now, parse).Converted? && "id" in doc
    ensures (map["id" := VStr(newId)] + StoredDoc(doc, now, parse).value)["id"] == doc["id"]
  {
    StoredDocFacts(doc, now, parse);
  }

  // ---------------------------------------------------------------------------
  // Image upload
  // ---------------------------------------------------------------------------

  /** `request.files.get("file")`: the uploaded part, by its file name. */
  datatype FilePart = FilePart(filename: string)

  const NoFileMsg := "No file provided"

  /**
   * `upload_image()` with the generated `uuid` and the bucket's public-URL
   * rule as parameters: no part, or a part without a file name, is a 400.
   */
  function UploadImage(file: Option<FilePart>, uuid: string, publicUrl: string -> string): (r: Response)
    ensures r.status == 400 <==> file.None? || file.value.filename == ""
    ensures r.status == 400 ==> r.body == map["error" := VStr(NoFileMsg)]
    ensures r.status != 400 ==>
      r.status == 200 && r.body.Keys == {"public_url"}
      && r.body["public_url"] == VStr(publicUrl("products/" + uuid + "-" + file.value.filename))
  {
    if file.None? || file.value.filename == "" then Response(400, map["error" := VStr(NoFileMsg)])
    else Response(200, map["public_url" := VStr(publicUrl("products/" + uuid + "-" + file.value.filename))])
  }
}
