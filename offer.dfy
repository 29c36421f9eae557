/**
 * The admin voucher board (frontend/src/pages/admin-panel/Offfer.tsx): a list
 * of coupons and a three-field form; `addCoupon` appends one coupon when the
 * form passes its truthiness guard, `deleteCoupon` drops coupons by id.
 */
module Offer {
  import opened Common

  datatype Coupon = Coupon(id: string, title: string, discount: real, companyName: string, theme: string)

  const Colors: seq<string> := [
    "from-pink-100 to-pink-300",
    "from-blue-100 to-blue-300",
    "from-green-100 to-green-300",
    "from-yellow-100 to-yellow-300",
    "from-purple-100 to-purple-300",
    "from-red-100 to-red-300",
    "from-indigo-100 to-indigo-300",
    "from-teal-100 to-teal-300"
  ]

  /** `COLORS[Math.floor(random * COLORS.length)]` for a draw `0 <= random < 1`. */
  function ThemeFor(random: real): (theme: string)
    requires 0.0 <= random < 1.0
    ensures theme in Colors
  {
    var i := (random * |Colors| as real).Floor;
    assert 0 <= i < |Colors|;
    Colors[i]
  }

  /** `title && discount && companyName`: plain truthiness, so only `""` and `0` are refused. */
  predicate Accepted(title: string, discount: real, companyName: string)
  {
    title != "" && discount != 0.0 && companyName != ""
  }

  /** `prev.filter(c => c.id !== id)`. */
  function Without(coupons: seq<Coupon>, id: string): seq<Coupon>
  {
    Filter(coupons, (c: Coupon) => c.id != id)
  }

  /** No coupon left carries the id; every coupon with another id stays. */
  lemma WithoutRemovesExactly(coupons: seq<Coupon>, id: string)
    ensures forall c :: c in Without(coupons, id) <==> c in coupons && c.id != id
    ensures |Without(coupons, id)| <= |coupons|
  {
  }

  /** Deleting an id no coupon has changes nothing. */
  lemma WithoutAbsentId(coupons: seq<Coupon>, id: string)
    requires forall i :: 0 <= i < |coupons| ==> coupons[i].id != id
    ensures Without(coupons, id) == coupons
  {
    FilterKeepsAll(coupons, (c: Coupon) => c.id != id);
  }

  /** Adding a coupon under a fresh id and deleting that id restores the list, order included. */
  lemma AddThenDelete(coupons: seq<Coupon>, c: Coupon)
    requires forall i :: 0 <= i < |coupons| ==> coupons[i].id != c.id
    ensures Without(coupons + [c], c.id) == coupons
  {
    var keep := (x: Coupon) => x.id != c.id;
    FilterAppend(coupons, [c], keep);
    FilterSingle(c, keep);
    FilterKeepsAll(coupons, keep);
  }

  /**
   * The guard tests truthiness only: a title of white space alone, a negative
   * discount or a company name of white space all pass, and a form is refused
   * only for an empty text or a zero discount.
   */
  lemma GuardIsOnlyTruthiness(title: string, discount: real, companyName: string)
    ensures Blank(title) && title != "" && discount != 0.0 && companyName != "" ==> Accepted(title, discount, companyName)
    ensures discount < 0.0 && title != "" && companyName != "" ==> Accepted(title, discount, companyName)
    ensures !Accepted(title, discount, companyName) ==> title == "" || discount == 0.0 || companyName == ""
  {
  }

  /** The component's state. */
  class AdminOffer {
    var coupons: seq<Coupon>
    var title: string
    var discount: real
    var companyName: string

    constructor ()
      ensures coupons == [] && title == "" && discount == 0.0 && companyName == ""
    {
      coupons, title, discount, companyName := [], "", 0.0, "";
    }

    /** The three inputs. */
    method SetForm(t: string, d: real, company: string)
      modifies this
      ensures title == t && discount == d && companyName == company && coupons == old(coupons)
    {
      title, discount, companyName := t, d, company;
    }

    /**
     * `addCoupon()`, with the two random draws as parameters: `id` for the
     * generated id and `random` for the theme.
     */
    method AddCoupon(id: string, random: real)
      requires 0.0 <= random < 1.0
      modifies this
      ensures !Accepted(old(title), old(discount), old(companyName)) ==>
        coupons == old(coupons) && title == old(title) && discount == old(discount) && companyName == old(companyName)
      ensures Accepted(old(title), old(discount), old(companyName)) ==>
        && coupons == old(coupons) + [Coupon(id, old(title), old(discount), old(companyName), ThemeFor(random))]
        && title == "" && discount == 0.0 && companyName == ""
    {
      if title == "" || discount == 0.0 || companyName == "" {
        return;
      }
      var theme := ThemeFor(random);
      coupons := coupons + [Coupon(id, title, discount, companyName, theme)];
      title := "";
      discount := 0.0;
      companyName := "";
    }

    /** `deleteCoupon(id)`. */
    method DeleteCoupon(id: string)
      modifies this
      ensures coupons == Without(old(coupons), id)
      ensures title == old(title) && discount == old(discount) && companyName == old(companyName)
    {
      coupons := Without(coupons, id);
    }
  }
}
