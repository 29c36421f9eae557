/**
 * The quick-checkout page (frontend/src/pages/QuickCheckout.tsx): one row per
 * catalogue product with a quantity stepper, a running total, customer
 * fields validated locally, and an order that is posted only when the
 * customer data is valid and at least one row has a positive quantity.
 */
module QuickCheckout {
  import opened Common
  import opened Types
  import Shop

  datatype Customer = Customer(name: string, email: string, phone: string, address: string)

  const EmptyCustomer := Customer("", "", "", "")

  /** The `qty` state: product id to quantity. Unlike the shop cart it may hold explicit zeros. */
  type Qty = map<string, int>

  /** `{...p, quantity: qty[p.id] || 0, amount: (qty[p.id] || 0) * p.price}`. */
  datatype Row = Row(product: Product, quantity: int, amount: real)

  function RowOf(p: Product, qty: Qty): Row
  {
    Row(p, Shop.QtyIn(qty, p.id), Shop.QtyIn(qty, p.id) as real * p.price)
  }

  /** `rows = products.map(...)`: exactly one row per catalogue product, in catalogue order. */
  function Rows(products: seq<Product>, qty: Qty): (rows: seq<Row>)
    ensures |rows| == |products|
    ensures forall i :: 0 <= i < |products| ==>
      rows[i].product == products[i] && rows[i].quantity == Shop.QtyIn(qty, products[i].id)
      && rows[i].amount == rows[i].quantity as real * products[i].price
  {
    if products == [] then []
    else Rows(products[..|products| - 1], qty) + [RowOf(products[|products| - 1], qty)]
  }

  function RowAmount(r: Row): real
  {
    r.amount
  }

  /** `total = rows.reduce((s, r) => s + (r.amount || 0), 0)`. */
  function RowsTotal(rows: seq<Row>): real
  {
    Sum(rows, RowAmount)
  }

  /**
   * The checkout total is the catalogue-wide sum of price × quantity, the same
   * figure the shop page's cart total gives for the same map.
   */
  lemma {:induction false} RowsTotalIsCatalogueSum(products: seq<Product>, qty: Qty)
    ensures RowsTotal(Rows(products, qty)) == Sum(products, Shop.CatalogueAmount(qty))
    ensures RowsTotal(Rows(products, qty)) == Shop.Total(Shop.Items(products, qty))
  {
    if products != [] {
      var init, last := products[..|products| - 1], products[|products| - 1];
      assert init + [last] == products;
      RowsTotalIsCatalogueSum(init, qty);
      SumAppend(Rows(init, qty), [RowOf(last, qty)], RowAmount);
      SumSingle(RowOf(last, qty), RowAmount);
      SumAppend(init, [last], Shop.CatalogueAmount(qty));
      SumSingle(last, Shop.CatalogueAmount(qty));
    }
    Shop.TotalOverCatalogue(products, qty);
  }

  /** `{id, name, mrp, price, quantity}` of one row. */
  function ItemOf(r: Row): CartItem
  {
    CartItem(r.product.id, r.product.name, r.quantity, r.product.price, r.product.mrp)
  }

  /** `rows.filter(r => r.quantity > 0).map(...)`: the submitted items, in row order. */
  function OrderItems(rows: seq<Row>): seq<CartItem>
  {
    if rows == [] then []
    else
      var r := rows[|rows| - 1];
      OrderItems(rows[..|rows| - 1]) + (if r.quantity > 0 then [ItemOf(r)] else [])
  }

  /** The submitted items are exactly the rows with a positive quantity. */
  lemma {:induction false} OrderItemsExactly(rows: seq<Row>)
    ensures |OrderItems(rows)| <= |rows|
    ensures forall it :: it in OrderItems(rows) <==> exists r :: r in rows && r.quantity > 0 && it == ItemOf(r)
    ensures OrderItems(rows) == [] <==> forall i :: 0 <= i < |rows| ==> rows[i].quantity <= 0
  {
    if rows != [] {
      var init, r := rows[..|rows| - 1], rows[|rows| - 1];
      OrderItemsExactly(init);
      assert forall x :: x in rows <==> x in init || x == r;
      assert forall i :: 0 <= i < |init| ==> init[i] == rows[i];
      if OrderItems(rows) == [] {
        assert OrderItems(init) == [];
      }
    }
  }

  function ItemAmount(it: CartItem): real
  {
    it.price * it.quantity as real
  }

  /** Over rows whose zero-quantity rows have a zero amount, the total is the total of the submitted items. */
  lemma {:induction false} ZeroRowsAddNothing(rows: seq<Row>)
    requires forall i :: 0 <= i < |rows| ==> rows[i].quantity > 0 || rows[i].amount == 0.0
    requires forall i :: 0 <= i < |rows| ==> rows[i].quantity > 0 ==> rows[i].amount == ItemAmount(ItemOf(rows[i]))
    ensures RowsTotal(rows) == Sum(OrderItems(rows), ItemAmount)
  {
    if rows != [] {
      var init, r := rows[..|rows| - 1], rows[|rows| - 1];
      assert forall i :: 0 <= i < |init| ==> init[i] == rows[i];
      ZeroRowsAddNothing(init);
      var before := OrderItems(init);
      assert RowsTotal(rows) == RowsTotal(init) + r.amount;
      if r.quantity > 0 {
        var after := before + [ItemOf(r)];
        assert OrderItems(rows) == after;
        assert after[..|after| - 1] == before;
        assert Sum(after, ItemAmount) == Sum(before, ItemAmount) + ItemAmount(ItemOf(r));
      } else {
        assert before + [] == before;
        assert OrderItems(rows) == before;
      }
    }
  }

  /**
   * When no quantity is negative, the total shown (and sent) equals the sum
   * of price × quantity over the submitted items.
   */
  lemma TotalEqualsSubmittedItems(products: seq<Product>, qty: Qty)
    requires forall k :: k in qty ==> qty[k] >= 0
    ensures RowsTotal(Rows(products, qty)) == Sum(OrderItems(Rows(products, qty)), ItemAmount)
  {
    var rows := Rows(products, qty);
    forall i | 0 <= i < |rows|
      ensures rows[i].quantity > 0 || rows[i].amount == 0.0
      ensures rows[i].quantity > 0 ==> rows[i].amount == ItemAmount(ItemOf(rows[i]))
    {
      var id := products[i].id;
      assert rows[i].quantity == Shop.QtyIn(qty, id);
      assert rows[i].quantity >= 0;
    }
    ZeroRowsAddNothing(rows);
  }

  // ---------------------------------------------------------------------------
  // Customer validation
  // ---------------------------------------------------------------------------

  /**
   * `/\S+@\S+\.\S+/` matches with its `@` at `a` and its `.` at `k`: a
   * non-space before the `@`, one or more non-spaces between, a non-space
   * after the dot. The pattern is not anchored, so the rest of the string is free.
   */
  predicate LooseMatchAt(s: string, a: int, k: int)
  {
    1 <= a && a + 2 <= k && k + 1 < |s| && s[a] == '@' && s[k] == '.'
    && !IsJsSpace(s[a - 1]) && !IsJsSpace(s[k + 1])
    && forall m :: a < m < k ==> !IsJsSpace(s[m])
  }

  predicate LooseEmail(s: string)
  {
    exists a, k | 0 <= a < |s| && 0 <= k < |s| :: LooseMatchAt(s, a, k)
  }

  /** `/^[0-9]{10}$/`: exactly ten ASCII digits and nothing else. */
  predicate TenDigits(s: string)
  {
    |s| == 10 && forall i :: 0 <= i < |s| ==> IsAsciiDigit(s[i])
  }

  const NameRequired := "Name is required."
  const EmailRequired := "Email is required."
  const EmailInvalid := "Enter a valid email."
  const PhoneRequired := "Phone is required."
  const PhoneInvalid := "Enter a valid 10-digit phone number."
  const AddressRequired := "Address is required."
  const ItemsRequired := "Please add at least one product."

  predicate CustomerValid(c: Customer)
  {
    !Blank(c.name) && !Blank(c.email) && LooseEmail(c.email) && TenDigits(c.phone) && !Blank(c.address)
  }

  /**
   * `e` is the error map `validate` builds for `c`: one entry per failing
   * field and no other key; for email and phone the "required" message wins
   * over the format message.
   */
  predicate IsValidationOf(c: Customer, e: map<string, string>)
  {
    && e.Keys <= {"name", "email", "phone", "address"}
    && ("name" in e <==> Blank(c.name))
    && ("name" in e ==> e["name"] == NameRequired)
    && ("email" in e <==> Blank(c.email) || !LooseEmail(c.email))
    && ("email" in e ==> e["email"] == if Blank(c.email) then EmailRequired else EmailInvalid)
    && ("phone" in e <==> Blank(c.phone) || !TenDigits(c.phone))
    && ("phone" in e ==> e["phone"] == if Blank(c.phone) then PhoneRequired else PhoneInvalid)
    && ("address" in e <==> Blank(c.address))
    && ("address" in e ==> e["address"] == AddressRequired)
  }

  /** Only one error map fits a customer. */
  lemma ValidationIsUnique(c: Customer, e1: map<string, string>, e2: map<string, string>)
    requires IsValidationOf(c, e1) && IsValidationOf(c, e2)
    ensures e1 == e2
  {
    assert e1.Keys == e2.Keys;
  }

  /** `validate()`: builds `newErrors` field by field and reports whether it stayed empty. */
  method Validate(c: Customer) returns (errors: map<string, string>, ok: bool)
    ensures IsValidationOf(c, errors)
    ensures ok <==> errors == map[]
    ensures ok <==> CustomerValid(c)
  {
    errors := map[];
    if Blank(c.name) {
      errors := errors["name" := NameRequired];
    }
    if Blank(c.email) {
      errors := errors["email" := EmailRequired];
    } else if !LooseEmail(c.email) {
      errors := errors["email" := EmailInvalid];
    }
    if Blank(c.phone) {
      errors := errors["phone" := PhoneRequired];
    } else if !TenDigits(c.phone) {
      errors := errors["phone" := PhoneInvalid];
    }
    if Blank(c.address) {
      errors := errors["address" := AddressRequired];
    }
    ok := |errors| == 0;
    if !ok {
      assert errors != map[];
    }
    if CustomerValid(c) {
      assert IsAsciiDigit(c.phone[0]) && !Blank(c.phone);
      assert errors.Keys == {};
    }
  }

  datatype OrderPayload = OrderPayload(customer: Customer, items: seq<CartItem>, total: real)

  /** The page's state. */
  class QuickCheckoutPage {
    var products: seq<Product>
    var qty: Qty
    var cust: Customer
    var errors: map<string, string>
    var placing: bool

    /** Quantities only ever come from the stepper, which never emits a negative number. */
    ghost predicate Valid()
      reads this
    {
      forall k :: k in qty ==> qty[k] >= 0
    }

    constructor ()
      ensures Valid() && products == [] && qty == map[] && cust == EmptyCustomer
      ensures errors == map[] && !placing
    {
      products, qty, cust, errors, placing := [], map[], EmptyCustomer, map[], false;
    }

    /** The product fetch: a failed fetch or a non-array body leaves an empty catalogue. */
    method Loaded(fetched: Option<seq<Product>>)
      requires Valid()
      modifies this
      ensures Valid() && products == fetched.GetOr([])
      ensures qty == old(qty) && cust == old(cust) && errors == old(errors) && placing == old(placing)
    {
      products := fetched.GetOr([]);
    }

    /** A stepper's `onChange(n)`: `setQty(q => ({...q, [id]: n}))`, zeros included. */
    method SetQty(id: string, n: nat)
      requires Valid()
      modifies this
      ensures Valid() && qty == old(qty)[id := n]
      ensures products == old(products) && cust == old(cust) && errors == old(errors) && placing == old(placing)
    {
      qty := qty[id := n];
    }

    /** Typing into a customer field. */
    method SetCustomer(c: Customer)
      requires Valid()
      modifies this
      ensures Valid() && cust == c
      ensures products == old(products) && qty == old(qty) && errors == old(errors) && placing == old(placing)
    {
      cust := c;
    }

    /** The Reset button: `setQty({})`. */
    method Reset()
      requires Valid()
      modifies this
      ensures Valid() && qty == map[]
      ensures products == old(products) && cust == old(cust) && errors == old(errors) && placing == old(placing)
    {
      qty := map[];
    }

    /**
     * `placeOrder()`. `sent` is the payload posted, `None` when no request is
     * made; `postSucceeds` is whether the awaited request returned normally.
     */
    method PlaceOrder(postSucceeds: bool) returns (sent: Option<OrderPayload>)
      requires Valid()
      modifies this
      ensures Valid() && products == old(products)
      ensures var items := OrderItems(Rows(old(products), old(qty)));
        && (sent.Some? <==> CustomerValid(old(cust)) && items != [])
        && (!CustomerValid(old(cust)) ==>
              IsValidationOf(old(cust), errors) && qty == old(qty) && cust == old(cust) && placing == old(placing))
        && (CustomerValid(old(cust)) && items == [] ==>
              errors == map["items" := ItemsRequired] && qty == old(qty) && cust == old(cust) && placing == old(placing))
        && (sent.Some? ==>
              sent.value == OrderPayload(old(cust), items, RowsTotal(Rows(old(products), old(qty)))) && !placing)
        && (sent.Some? && postSucceeds ==> qty == map[] && cust == EmptyCustomer && errors == map[])
        && (sent.Some? && !postSucceeds ==> qty == old(qty) && cust == old(cust) && errors == map[])
    {
      var e, ok := Validate(cust);
      errors := e;
      if !ok {
        return None;
      }
      var rows := Rows(products, qty);
      var items := OrderItems(rows);
      if |items| == 0 {
        errors := errors["items" := ItemsRequired];
        return None;
      }
      sent := Some(OrderPayload(cust, items, RowsTotal(rows)));
      placing := true;
      if postSucceeds {
        qty := map[];
        cust := EmptyCustomer;
        errors := map[];
      }
      placing := false;
    }
  }
}
