/**
 * What both invoice renderers (backend/pdf_utils.py and
 * backend/utils/pdf_utils.py) share: reading the order's items with Python's
 * conversions, and the row loop that accumulates the total and moves the
 * y cursor down the A4 page, starting a new page below a threshold. Drawing
 * itself is not modelled, only where each row is drawn.
 */
module InvoiceLines {
  import opened Common
  import opened Json

  /** reportlab's A4 height in points, 297 mm at 72 points per inch. */
  const PageHeight: real := 297.0 * 72.0 / 25.4

  /** The y of the first item row: 40, 22, 14, 14, 20, 12 and 14 points below the top. */
  const FirstRowY: real := PageHeight - 136.0

  /** Where a new page starts. */
  const NewPageY: real := PageHeight - 60.0

  const RowStep: real := 14.0
  const NameWidth := 38

  /** The values printed in the invoice heading: order id, name, email, phone and address. */
  datatype Header = Header(orderId: Value, name: Value, email: Value, phone: Value, address: Value)

  /** One item as printed: truncated name, quantity, MRP, price and amount. */
  datatype Line = Line(name: string, quantity: int, mrp: real, price: real, amount: real)

  /**
   * `for it in order.get("items", [])`: a list is iterated; an empty string or
   * object gives no item; anything else raises (`None`), either because it is
   * not iterable or because its first element has no `.get`.
   */
  function ItemsOf(v: Value): Option<seq<Value>>
  {
    match v
    case VList(xs) => Some(xs)
    case VStr(s) => if s == "" then Some([]) else None
    case VObj(m) => if m == map[] then Some([]) else None
    case _ => None
  }

  /** `it.get("name", "Item")[:38]`, for a string name. */
  function NameOf(it: Object): Option<string>
  {
    match Get(it, "name", VStr("Item"))
    case VStr(s) => Some(if |s| <= NameWidth then s else s[..NameWidth])
    case _ => None
  }

  /**
   * One item: `int(quantity)` (default 1), `float(mrp)` and `float(price)`
   * (default 0), `amt = qty * price`; any failing conversion raises.
   */
  function LineOf(v: Value, parse: NumberParsers): (l: Option<Line>)
    ensures l.Some? ==> |l.value.name| <= NameWidth
    ensures l.Some? ==> l.value.amount == l.value.quantity as real * l.value.price
  {
    if !v.VObj? then None
    else
      var it := v.fields;
      match PyInt(Get(it, "quantity", VInt(1)), parse)
      case Converted(qty) =>
        (match PyFloat(Get(it, "mrp", VInt(0)), parse)
         case Converted(mrp) =>
           (match PyFloat(Get(it, "price", VInt(0)), parse)
            case Converted(price) =>
              (match NameOf(it)
               case Some(name) => Some(Line(name, qty, mrp, price, qty as real * price))
               case None => None)
            case _ => None)
         case _ => None)
      case _ => None
  }

  /** An item with none of the keys prints as one "Item" at price 0. */
  lemma EmptyItemDefaults(parse: NumberParsers)
    ensures LineOf(VObj(map[]), parse) == Some(Line("Item", 1, 0.0, 0.0, 0.0))
  {
  }

  /** A drawn row: the line, the y it is drawn at and the page it is on. */
  datatype DrawnRow = DrawnRow(line: Line, y: real, page: nat)

  /** The loop's state after some items: rows drawn, running total, cursor and page. */
  datatype Walked = Walked(rows: seq<DrawnRow>, total: real, y: real, page: nat)

  /** One iteration: draw at `y`, add the amount, step down, and break the page below `threshold`. */
  function Step(w: Walked, l: Line, threshold: real): Walked
  {
    var next := w.y - RowStep;
    Walked(w.rows + [DrawnRow(l, w.y, w.page)], w.total + l.amount,
           if next < threshold then NewPageY else next,
           if next < threshold then w.page + 1 else w.page)
  }

  /** The row loop over `items` with page-break `threshold`; `None` when an item raises. */
  function Walk(items: seq<Value>, parse: NumberParsers, threshold: real): Option<Walked>
  {
    if items == [] then Some(Walked([], 0.0, FirstRowY, 0))
    else
      match Walk(items[..|items| - 1], parse, threshold)
      case None => None
      case Some(w) =>
        match LineOf(items[|items| - 1], parse)
        case None => None
        case Some(l) => Some(Step(w, l, threshold))
  }

  /** Once an item raises, every longer prefix raises too. */
  lemma {:induction false} WalkNoneStaysNone(items: seq<Value>, n: nat, parse: NumberParsers, threshold: real)
    requires n <= |items| && Walk(items[..n], parse, threshold).None?
    ensures Walk(items, parse, threshold).None?
    decreases |items| - n
  {
    if n < |items| {
      assert items[..n + 1][..n] == items[..n];
      WalkNoneStaysNone(items, n + 1, parse, threshold);
    } else {
      assert items[..n] == items;
    }
  }

  /**
   * The item loop itself: for each item convert it, draw its row at `y`,
   * add its amount, step down 14 points and start a new page below
   * `threshold`. `None` when a conversion raises.
   */
  method DrawItems(items: seq<Value>, parse: NumberParsers, threshold: real) returns (r: Option<Walked>)
    ensures r == Walk(items, parse, threshold)
  {
    var rows: seq<DrawnRow> := [];
    var total := 0.0;
    var y := FirstRowY;
    var page: nat := 0;
    for i := 0 to |items|
      invariant Walk(items[..i], parse, threshold) == Some(Walked(rows, total, y, page))
    {
      assert items[..i + 1][..i] == items[..i];
      var line := LineOf(items[i], parse);
      if line.None? {
        WalkNoneStaysNone(items, i + 1, parse, threshold);
        return None;
      }
      rows := rows + [DrawnRow(line.value, y, page)];
      total := total + line.value.amount;
      y := y - RowStep;
      if y < threshold {
        page := page + 1;
        y := NewPageY;
      }
    }
    assert items[..|items|] == items;
    r := Some(Walked(rows, total, y, page));
  }

  function RowAmount(r: DrawnRow): real
  {
    r.line.amount
  }

  /** The loop raises exactly when some item does. */
  lemma {:induction false} WalkRaisesIffSomeItemDoes(items: seq<Value>, parse: NumberParsers, threshold: real)
    ensures Walk(items, parse, threshold).Some? <==> forall i :: 0 <= i < |items| ==> LineOf(items[i], parse).Some?
  {
    if items != [] {
      var init := items[..|items| - 1];
      WalkRaisesIffSomeItemDoes(init, parse, threshold);
      assert forall i :: 0 <= i < |init| ==> items[i] == init[i];
      if Walk(init, parse, threshold).None? {
        var k :| 0 <= k < |init| && LineOf(init[k], parse).None?;
        assert LineOf(items[k], parse).None?;
      }
    }
  }

  /** One row per item, in item order. */
  lemma {:induction false} WalkRows(items: seq<Value>, parse: NumberParsers, threshold: real)
    requires Walk(items, parse, threshold).Some?
    ensures var w := Walk(items, parse, threshold).value;
      && |w.rows| == |items|
      && (forall i :: 0 <= i < |items| ==> LineOf(items[i], parse).Some? && w.rows[i].line == LineOf(items[i], parse).value)
  {
    if items != [] {
      var init := items[..|items| - 1];
      WalkRows(init, parse, threshold);
      var w0 := Walk(init, parse, threshold).value;
      var l := LineOf(items[|items| - 1], parse).value;
      var w := Step(w0, l, threshold);
      assert Walk(items, parse, threshold).value == w;
      assert w.rows == w0.rows + [DrawnRow(l, w0.y, w0.page)];
      forall i | 0 <= i < |init|
        ensures LineOf(items[i], parse).Some? && w.rows[i].line == LineOf(items[i], parse).value
      {
        assert items[i] == init[i];
        assert w.rows[i] == w0.rows[i];
      }
    }
  }

  /** The loop's total is the sum of the amounts of the rows it drew. */
  lemma {:induction false} WalkTotal(items: seq<Value>, parse: NumberParsers, threshold: real)
    requires Walk(items, parse, threshold).Some?
    ensures Walk(items, parse, threshold).value.total == Sum(Walk(items, parse, threshold).value.rows, RowAmount)
  {
    if items != [] {
      var init := items[..|items| - 1];
      WalkTotal(init, parse, threshold);
      var w0 := Walk(init, parse, threshold).value;
      var l := LineOf(items[|items| - 1], parse).value;
      var w := Step(w0, l, threshold);
      assert Walk(items, parse, threshold).value == w;
      assert w.rows[..|w.rows| - 1] == w0.rows;
    }
  }

  /**
   * Every row is drawn between the page-break threshold and the top margin
   * of a new page, never on an earlier page than the row before it, and the
   * cursor ends in the same band.
   */
  lemma {:induction false} WalkStaysOnPage(items: seq<Value>, parse: NumberParsers, threshold: real)
    requires 0.0 < threshold <= FirstRowY
    requires Walk(items, parse, threshold).Some?
    ensures var w := Walk(items, parse, threshold).value;
      && |w.rows| == |items|
      && (forall i :: 0 <= i < |w.rows| ==> threshold <= w.rows[i].y <= NewPageY && w.rows[i].page <= w.page)
      && (forall i, j :: 0 <= i < j < |w.rows| ==> w.rows[i].page <= w.rows[j].page)
      && threshold <= w.y <= NewPageY
  {
    if items != [] {
      var init := items[..|items| - 1];
      WalkStaysOnPage(init, parse, threshold);
      var w0 := Walk(init, parse, threshold).value;
      var l := LineOf(items[|items| - 1], parse).value;
      var w := Step(w0, l, threshold);
      assert forall i :: 0 <= i < |w0.rows| ==> w.rows[i] == w0.rows[i];
    }
  }

  /** The loop's total depends only on the items and not on the page-break rule. */
  lemma {:induction false} WalkTotalIgnoresThreshold(items: seq<Value>, parse: NumberParsers, t1: real, t2: real)
    ensures Walk(items, parse, t1).Some? <==> Walk(items, parse, t2).Some?
    ensures Walk(items, parse, t1).Some? ==> Walk(items, parse, t1).value.total == Walk(items, parse, t2).value.total
  {
    if items != [] {
      WalkTotalIgnoresThreshold(items[..|items| - 1], parse, t1, t2);
    }
  }
}
