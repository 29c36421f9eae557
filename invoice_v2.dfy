/**
 * The newer invoice renderer (backend/utils/pdf_utils.py): the heading falls
 * back to "N/A", item rows break the page below y = 120 to leave room for the
 * totals, and after the subtotal a discount section, an optional coupon line
 * and a "You saved" note appear when the order's stored total is below the
 * subtotal.
 */
module InvoiceV2 {
  import opened Common
  import opened Json
  import opened InvoiceLines

  const Threshold: real := 120.0
  const Missing := VStr("N/A")

  /** The coupon line: the code as printed and its y. */
  datatype CouponLine = CouponLine(code: string, y: real)

  /** The discount line: amount, percentage, its y, and the coupon line under it. */
  datatype DiscountLine = DiscountLine(amount: real, percent: real, y: real, coupon: Option<CouponLine>)

  /** The "You saved" note: the amount saved and its y. */
  datatype SavedNote = SavedNote(saved: real, y: real)

  datatype Invoice = Invoice(
    header: Header, rows: seq<DrawnRow>,
    subtotal: real, subtotalY: real,
    discount: Option<DiscountLine>,
    finalTotal: real, totalY: real,
    note: Option<SavedNote>,
    pages: nat)

  function HeaderOf(order: Object): Header
  {
    Header(Get(order, "order_id", Missing), Get(order, "customer_name", Missing),
           Get(order, "customer_email", Missing), Get(order, "customer_phone", Missing),
           Get(order, "customer_address", Missing))
  }

  /**
   * `coupon_code and coupon_code.strip()`: `Some(false)` when falsy or blank,
   * `Some(true)` for a non-blank string, `None` when a truthy non-string has
   * no `.strip()` and the renderer raises.
   */
  function ShowsCoupon(c: Value): Option<bool>
  {
    if !Truthy(c) then Some(false)
    else if c.VStr? then Some(!PyBlank(c.s))
    else None
  }

  /** `discount_amount / subtotal * 100 if subtotal > 0 else 0`. */
  function Percent(amount: real, subtotal: real): real
  {
    if subtotal > 0.0 then amount / subtotal * 100.0 else 0.0
  }

  /** `render_order_pdf(order)` as a value; `None` when it raises. */
  function Render(order: Object, parse: NumberParsers): (r: Option<Invoice>)
  {
    match ItemsOf(Get(order, "items", VList([])))
    case None => None
    case Some(items) =>
      match Walk(items, parse, Threshold)
      case None => None
      case Some(w) => Finish(order, parse, HeaderOf(order), w)
  }

  /** The totals section after the loop left the cursor at `w.y` with subtotal `w.total`. */
  function Finish(order: Object, parse: NumberParsers, header: Header, w: Walked): Option<Invoice>
  {
    var subtotalY := w.y - 6.0 - 18.0;
    var y := subtotalY - 16.0;
    match PyFloat(Get(order, "total", VFloat(w.total)), parse)
    case Converted(final) =>
      if final < w.total then
        var amount := w.total - final;
        var code := Get(order, "coupon_code", VNull);
        (match ShowsCoupon(code)
         case None => None
         case Some(shown) =>
           var coupon := if shown then Some(CouponLine(code.s, y - 16.0)) else None;
           var totalY := if shown then y - 16.0 - 14.0 else y - 16.0;
           Some(Invoice(header, w.rows, w.total, subtotalY,
                        Some(DiscountLine(amount, Percent(amount, w.total), y, coupon)),
                        final, totalY, Some(SavedNote(amount, totalY - 20.0)), w.page + 1)))
      else
        Some(Invoice(header, w.rows, w.total, subtotalY, None, final, y, None, w.page + 1))
    case _ => None
  }

  /** The renderer: heading, the item loop, then the totals section moving `y` down branch by branch. */
  method RenderOrderPdf(order: Object, parse: NumberParsers) returns (r: Option<Invoice>)
    ensures r == Render(order, parse)
  {
    var header := HeaderOf(order);
    var iterable := ItemsOf(Get(order, "items", VList([])));
    if iterable.None? {
      return None;
    }
    var walked := DrawItems(iterable.value, parse, Threshold);
    if walked.None? {
      return None;
    }
    r := TotalsSection(order, parse, header, walked.value);
  }

  /** The totals section, from the cursor and subtotal the item loop left. */
  method TotalsSection(order: Object, parse: NumberParsers, header: Header, w: Walked) returns (r: Option<Invoice>)
    ensures r == Finish(order, parse, header, w)
  {
    var subtotal := w.total;
    var y := w.y;
    y := y - 6.0;
    y := y - 18.0;
    var subtotalY := y;
    y := y - 16.0;
    var converted := PyFloat(Get(order, "total", VFloat(subtotal)), parse);
    if !converted.Converted? {
      return None;
    }
    var final := converted.value;
    var discount: Option<DiscountLine> := None;
    if final < subtotal {
      var amount := subtotal - final;
      var percent := Percent(amount, subtotal);
      var discountY := y;
      y := y - 16.0;
      var code := Get(order, "coupon_code", VNull);
      var coupon: Option<CouponLine> := None;
      if Truthy(code) {
        if !code.VStr? {
          return None;
        }
        if !PyBlank(code.s) {
          coupon := Some(CouponLine(code.s, y));
          y := y - 14.0;
        }
      }
      discount := Some(DiscountLine(amount, percent, discountY, coupon));
    }
    var totalY := y;
    var note: Option<SavedNote> := None;
    if final < subtotal {
      y := y - 20.0;
      note := Some(SavedNote(subtotal - final, y));
    }
    r := Some(Invoice(header, w.rows, subtotal, subtotalY, discount, final, totalY, note, w.page + 1));
  }

  /** The subtotal is the sum of the item amounts, one row per item in order. */
  lemma SubtotalIsSumOfItems(order: Object, parse: NumberParsers, items: seq<Value>)
    requires ItemsOf(Get(order, "items", VList([]))) == Some(items)
    requires Render(order, parse).Some?
    ensures var inv := Render(order, parse).value;
      && |inv.rows| == |items|
      && (forall i :: 0 <= i < |items| ==> LineOf(items[i], parse).Some? && inv.rows[i].line == LineOf(items[i], parse).value)
      && inv.subtotal == Sum(inv.rows, RowAmount)
  {
    WalkRows(items, parse, Threshold);
    WalkTotal(items, parse, Threshold);
  }

  /**
   * The discount section and the "You saved" note are drawn exactly when the
   * final total is below the subtotal, both showing the positive difference;
   * the final total is the stored `total`, or the subtotal when there is none.
   */
  lemma DiscountShownIffBelowSubtotal(order: Object, parse: NumberParsers)
    requires Render(order, parse).Some?
    ensures var inv := Render(order, parse).value;
      && (inv.discount.Some? <==> inv.finalTotal < inv.subtotal)
      && (inv.note.Some? <==> inv.finalTotal < inv.subtotal)
      && (inv.discount.Some? ==> inv.discount.value.amount == inv.subtotal - inv.finalTotal > 0.0)
      && (inv.note.Some? ==> inv.note.value.saved == inv.discount.value.amount)
      && ("total" !in order ==> inv.finalTotal == inv.subtotal && inv.discount.None?)
  {
  }

  /** For a positive subtotal and a non-negative final total, the percentage is in (0, 100]. */
  lemma PercentInRange(order: Object, parse: NumberParsers)
    requires Render(order, parse).Some?
    requires Render(order, parse).value.subtotal > 0.0 && Render(order, parse).value.finalTotal >= 0.0
    ensures var inv := Render(order, parse).value;
      inv.discount.Some? ==> 0.0 < inv.discount.value.percent <= 100.0
  {
    var inv := Render(order, parse).value;
    if inv.discount.Some? {
      var a := inv.discount.value.amount;
      assert 0.0 < a <= inv.subtotal;
      assert a / inv.subtotal <= 1.0;
    }
  }

  /**
   * A coupon line appears only inside the discount section and only for a
   * non-blank string code, which it prints; with a discount, a truthy code
   * that is not a string makes the renderer raise.
   */
  lemma CouponLineRule(order: Object, parse: NumberParsers)
    ensures Render(order, parse).Some? && Render(order, parse).value.discount.Some?
              && Render(order, parse).value.discount.value.coupon.Some? ==>
      var code := Get(order, "coupon_code", VNull);
      code.VStr? && !PyBlank(code.s) && Render(order, parse).value.discount.value.coupon.value.code == code.s
    ensures Render(order, parse).Some? && Render(order, parse).value.discount.Some? ==>
      var code := Get(order, "coupon_code", VNull);
      (Render(order, parse).value.discount.value.coupon.Some? <==> code.VStr? && !PyBlank(code.s))
    ensures Render(order, parse).Some? && Render(order, parse).value.discount.Some? ==>
      var code := Get(order, "coupon_code", VNull);
      !Truthy(code) || code.VStr?
  {
  }

  /** A stored total below the subtotal with a truthy non-string coupon code raises. */
  lemma NumericCouponCodeRaises(order: Object, parse: NumberParsers, items: seq<Value>, w: Walked)
    requires ItemsOf(Get(order, "items", VList([]))) == Some(items)
    requires Walk(items, parse, Threshold) == Some(w)
    requires PyFloat(Get(order, "total", VFloat(w.total)), parse).Converted?
    requires PyFloat(Get(order, "total", VFloat(w.total)), parse).value < w.total
    requires Truthy(Get(order, "coupon_code", VNull)) && !Get(order, "coupon_code", VNull).VStr?
    ensures Render(order, parse).None?
  {
  }

  /**
   * Every item row is drawn at y >= 120, on a page the invoice has, and every
   * line of the totals section stays above the bottom 30 points, whichever
   * lines appear.
   */
  lemma EverythingAboveBottomMargin(order: Object, parse: NumberParsers)
    requires Render(order, parse).Some?
    ensures var inv := Render(order, parse).value;
      && (forall i :: 0 <= i < |inv.rows| ==> Threshold <= inv.rows[i].y && inv.rows[i].page < inv.pages)
      && inv.subtotalY >= 96.0 && inv.totalY >= 50.0
      && (inv.discount.Some? ==> inv.discount.value.y >= 80.0)
      && (inv.discount.Some? && inv.discount.value.coupon.Some? ==> inv.discount.value.coupon.value.y >= 64.0)
      && (inv.note.Some? ==> inv.note.value.y >= 30.0)
  {
    var items := ItemsOf(Get(order, "items", VList([]))).value;
    WalkStaysOnPage(items, parse, Threshold);
  }

  /** Unlike the older renderer, an order with no keys at all still renders, with "N/A" everywhere. */
  lemma EmptyOrderRenders(parse: NumberParsers)
    ensures Render(map[], parse).Some?
    ensures Render(map[], parse).value.header == Header(Missing, Missing, Missing, Missing, Missing)
    ensures Render(map[], parse).value.rows == [] && Render(map[], parse).value.subtotal == 0.0
    ensures Render(map[], parse).value.discount.None? && Render(map[], parse).value.finalTotal == 0.0
  {
  }
}
