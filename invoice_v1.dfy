/**
 * The invoice renderer the order endpoint uses (backend/pdf_utils.py, imported
 * at backend/main.py:7): a heading that needs `order_id` and `customer_name`,
 * one row per item with the running total, page breaks below y = 80, and the
 * total of the rows under a rule. The order's own `total` is never read.
 */
module InvoiceV1 {
  import opened Common
  import opened Json
  import opened InvoiceLines

  const Threshold: real := 80.0

  /** What the renderer lays out: heading, item rows, printed total, its y, and the page count. */
  datatype Invoice = Invoice(header: Header, rows: seq<DrawnRow>, total: real, totalY: real, pages: nat)

  /** The heading: `order['order_id']` and `order['customer_name']`, the rest defaulting to `""`. */
  function HeaderOf(order: Object): Header
    requires "order_id" in order && "customer_name" in order
  {
    Header(order["order_id"], order["customer_name"], Get(order, "customer_email", VStr("")),
           Get(order, "customer_phone", VStr("")), Get(order, "customer_address", VStr("")))
  }

  /** `render_order_pdf(order)` as a value; `None` when it raises. */
  function Render(order: Object, parse: NumberParsers): (r: Option<Invoice>)
    ensures "order_id" !in order || "customer_name" !in order ==> r.None?
  {
    if "order_id" !in order || "customer_name" !in order then None
    else
      match ItemsOf(Get(order, "items", VList([])))
      case None => None
      case Some(items) =>
        match Walk(items, parse, Threshold)
        case None => None
        case Some(w) => Some(Invoice(HeaderOf(order), w.rows, w.total, w.y - 6.0 - 18.0, w.page + 1))
  }

  /** The renderer itself: the heading, then the item loop accumulating `total` and moving `y`. */
  method RenderOrderPdf(order: Object, parse: NumberParsers) returns (r: Option<Invoice>)
    ensures r == Render(order, parse)
  {
    if "order_id" !in order || "customer_name" !in order {
      return None;
    }
    var header := HeaderOf(order);
    var iterable := ItemsOf(Get(order, "items", VList([])));
    if iterable.None? {
      return None;
    }
    var walked := DrawItems(iterable.value, parse, Threshold);
    if walked.None? {
      return None;
    }
    var w := walked.value;
    r := Some(Invoice(header, w.rows, w.total, w.y - 6.0 - 18.0, w.page + 1));
  }

  /**
   * The printed total is the sum over the items of `int(quantity) * float(price)`,
   * one row per item in order; the invoice is produced exactly when every item converts.
   */
  lemma TotalIsSumOfItems(order: Object, parse: NumberParsers, items: seq<Value>)
    requires "order_id" in order && "customer_name" in order
    requires ItemsOf(Get(order, "items", VList([]))) == Some(items)
    ensures Render(order, parse).Some? <==> forall i :: 0 <= i < |items| ==> LineOf(items[i], parse).Some?
    ensures Render(order, parse).Some? ==>
      var inv := Render(order, parse).value;
      && |inv.rows| == |items|
      && (forall i :: 0 <= i < |items| ==> inv.rows[i].line == LineOf(items[i], parse).value)
      && inv.total == Sum(inv.rows, RowAmount)
  {
    WalkRaisesIffSomeItemDoes(items, parse, Threshold);
    if Render(order, parse).Some? {
      WalkRows(items, parse, Threshold);
      WalkTotal(items, parse, Threshold);
    }
  }

  /** Every item row is drawn at y >= 80 and the total line above the bottom 56 points. */
  lemma RowsAboveBottomMargin(order: Object, parse: NumberParsers)
    requires Render(order, parse).Some?
    ensures var inv := Render(order, parse).value;
      && (forall i :: 0 <= i < |inv.rows| ==> Threshold <= inv.rows[i].y && inv.rows[i].page < inv.pages)
      && inv.totalY >= Threshold - 24.0
  {
    var items := ItemsOf(Get(order, "items", VList([]))).value;
    WalkStaysOnPage(items, parse, Threshold);
  }

  /** The order's stored `total` (after a coupon, say) does not change the invoice. */
  lemma StoredTotalIgnored(order: Object, parse: NumberParsers, stored: Value)
    ensures Render(order["total" := stored], parse) == Render(order - {"total"}, parse)
  {
    var a := order["total" := stored];
    var b := order - {"total"};
    assert Get(a, "items", VList([])) == Get(b, "items", VList([]));
    if "order_id" in a && "customer_name" in a {
      assert HeaderOf(a) == HeaderOf(b);
    }
  }

  /** With no `items` key the invoice has no rows and a zero total. */
  lemma NoItemsZeroTotal(order: Object, parse: NumberParsers)
    requires "order_id" in order && "customer_name" in order && "items" !in order
    ensures Render(order, parse).Some?
    ensures Render(order, parse).value.rows == [] && Render(order, parse).value.total == 0.0
    ensures Render(order, parse).value.pages == 1
  {
  }
}
