/**
 * The shop page's cart ledger (frontend/src/pages/Shop.tsx): a map from
 * product id to quantity, updated by `add`/`remove`, from which the selected
 * line items and the cart total are derived against the loaded catalogue.
 */
module Shop {
  import opened Common
  import opened Types

  type Cart = map<string, int>

  /** `c[id] || 0`: an absent key (or a stored 0) reads as 0. */
  function QtyIn(c: Cart, id: string): int
  {
    if id in c then c[id] else 0
  }

  /** `add(p)`: one more of `id`; every other entry is untouched. */
  function Add(c: Cart, id: string): (r: Cart)
    ensures r.Keys == c.Keys + {id}
    ensures r[id] == QtyIn(c, id) + 1
    ensures forall k :: k in c && k != id ==> r[k] == c[k]
  {
    c[id := QtyIn(c, id) + 1]
  }

  /**
   * `remove(p)`: a quantity above 1 goes down by one; otherwise (1, or the key
   * absent) the key is deleted. Every other entry is untouched.
   */
  function Remove(c: Cart, id: string): (r: Cart)
    ensures id in c && c[id] > 1 ==> r.Keys == c.Keys && r[id] == c[id] - 1
    ensures !(id in c && c[id] > 1) ==> r.Keys == c.Keys - {id}
    ensures forall k :: k in c && k != id ==> k in r && r[k] == c[k]
  {
    if id in c && c[id] > 1 then c[id := c[id] - 1] else c - {id}
  }

  /** The ledger invariant: no stored entry is zero (or negative). */
  predicate NoZeroEntries(c: Cart)
  {
    forall k :: k in c ==> c[k] >= 1
  }

  datatype CartOp = AddOp(id: string) | RemoveOp(id: string)

  function Apply(c: Cart, op: CartOp): Cart
  {
    match op
    case AddOp(id) => Add(c, id)
    case RemoveOp(id) => Remove(c, id)
  }

  /** The cart after a sequence of button presses, in order. */
  function Replay(c: Cart, ops: seq<CartOp>): Cart
    decreases |ops|
  {
    if ops == [] then c else Replay(Apply(c, ops[0]), ops[1..])
  }

  lemma ApplyKeepsNoZero(c: Cart, op: CartOp)
    requires NoZeroEntries(c)
    ensures NoZeroEntries(Apply(c, op))
  {
  }

  /** Every sequence of `add`/`remove` preserves the no-zero invariant. */
  lemma {:induction false} ReplayKeepsNoZero(c: Cart, ops: seq<CartOp>)
    requires NoZeroEntries(c)
    ensures NoZeroEntries(Replay(c, ops))
    decreases |ops|
  {
    if ops != [] {
      ApplyKeepsNoZero(c, ops[0]);
      ReplayKeepsNoZero(Apply(c, ops[0]), ops[1..]);
    }
  }

  /** From the initial empty cart, no sequence of presses stores a quantity below 1. */
  lemma FromEmptyNoZero(ops: seq<CartOp>)
    ensures forall k :: k in Replay(map[], ops) ==> Replay(map[], ops)[k] >= 1
  {
    ReplayKeepsNoZero(map[], ops);
  }

  /** `add` then `remove` of the same product gives back the cart exactly. */
  lemma AddThenRemove(c: Cart, id: string)
    requires id in c ==> c[id] >= 1
    ensures Remove(Add(c, id), id) == c
  {
    var r := Remove(Add(c, id), id);
    assert r.Keys == c.Keys;
    assert forall k :: k in c ==> r[k] == c[k];
  }

  /** `cart[p.id]` is truthy: present and not 0. */
  predicate InCart(c: Cart, p: Product)
  {
    p.id in c && c[p.id] != 0
  }

  /** `{...p, quantity: cart[p.id]}`. */
  datatype Line = Line(product: Product, quantity: int)

  /**
   * `items = products.filter(p => cart[p.id]).map(p => ({...p, quantity: cart[p.id]}))`,
   * the filter and the map fused into one pass over the catalogue.
   */
  function Items(products: seq<Product>, c: Cart): seq<Line>
  {
    if products == [] then []
    else
      var p := products[|products| - 1];
      Items(products[..|products| - 1], c) + (if InCart(c, p) then [Line(p, c[p.id])] else [])
  }

  /**
   * `items` holds exactly the catalogue products whose id is in the cart with
   * a non-zero quantity, each with that quantity; cart ids that are not in the
   * catalogue produce nothing.
   */
  lemma {:induction false} ItemsExactly(products: seq<Product>, c: Cart)
    ensures |Items(products, c)| <= |products|
    ensures forall l :: l in Items(products, c) <==>
      l.product in products && InCart(c, l.product) && l.quantity == c[l.product.id]
  {
    if products != [] {
      var init, p := products[..|products| - 1], products[|products| - 1];
      ItemsExactly(init, c);
      assert forall q :: q in products <==> q in init || q == p;
    }
  }

  /** `items` follows catalogue order: the items of a concatenated catalogue are the concatenated items. */
  lemma {:induction false} ItemsAppend(a: seq<Product>, b: seq<Product>, c: Cart)
    ensures Items(a + b, c) == Items(a, c) + Items(b, c)
  {
    if b == [] {
      assert a + b == a;
    } else {
      var b' := b[..|b| - 1];
      assert (a + b)[..|a + b| - 1] == a + b';
      assert (a + b)[|a + b| - 1] == b[|b| - 1];
      ItemsAppend(a, b', c);
    }
  }

  function LineAmount(l: Line): real
  {
    l.product.price * l.quantity as real
  }

  /** `total = items.reduce((sum, it) => sum + it.price * it.quantity, 0)`. */
  function Total(items: seq<Line>): real
  {
    Sum(items, LineAmount)
  }

  /** What a catalogue product contributes at the cart's quantity (0 when not selected). */
  function CatalogueAmount(c: Cart): Product -> real
  {
    (p: Product) => p.price * QtyIn(c, p.id) as real
  }

  /**
   * The cart total is the sum of price × quantity over the whole catalogue,
   * products not in the cart counting 0 and cart ids missing from the
   * catalogue counting nothing.
   */
  lemma {:induction false} TotalOverCatalogue(products: seq<Product>, c: Cart)
    ensures Total(Items(products, c)) == Sum(products, CatalogueAmount(c))
  {
    if products != [] {
      var init, last := products[..|products| - 1], products[|products| - 1];
      TotalOverCatalogue(init, c);
      var before := Items(init, c);
      assert Sum(products, CatalogueAmount(c)) == Sum(init, CatalogueAmount(c)) + CatalogueAmount(c)(last);
      if InCart(c, last) {
        var after := before + [Line(last, c[last.id])];
        assert Items(products, c) == after;
        assert after[..|after| - 1] == before;
        assert Total(after) == Total(before) + LineAmount(Line(last, c[last.id]));
      } else {
        assert before + [] == before;
        assert Items(products, c) == before;
        assert QtyIn(c, last.id) == 0;
      }
    }
  }

  /** The page's state: the loaded catalogue and the cart. */
  class ShopPage {
    var products: seq<Product>
    var cart: Cart

    ghost predicate Valid()
      reads this
    {
      NoZeroEntries(cart)
    }

    constructor ()
      ensures Valid() && products == [] && cart == map[]
    {
      products := [];
      cart := map[];
    }

    /** `g("/api/products…").then(setProducts)`: the catalogue is replaced; the cart is kept. */
    method SetProducts(fetched: seq<Product>)
      requires Valid()
      modifies this
      ensures Valid() && products == fetched && cart == old(cart)
    {
      products := fetched;
    }

    method OnAdd(p: Product)
      requires Valid()
      modifies this
      ensures Valid() && cart == Add(old(cart), p.id) && products == old(products)
    {
      cart := cart[p.id := QtyIn(cart, p.id) + 1];
    }

    /** Copies the cart, then decrements or deletes in the copy. */
    method OnRemove(p: Product)
      requires Valid()
      modifies this
      ensures Valid() && cart == Remove(old(cart), p.id) && products == old(products)
    {
      var newCart := cart;
      if p.id in newCart && newCart[p.id] > 1 {
        newCart := newCart[p.id := newCart[p.id] - 1];
      } else {
        newCart := newCart - {p.id};
      }
      cart := newCart;
    }

    function CurrentItems(): seq<Line>
      reads this
    {
      Items(products, cart)
    }

    function CurrentTotal(): real
      reads this
    {
      Total(Items(products, cart))
    }
  }
}
