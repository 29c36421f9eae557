/**
 * Coupon validation on the backend (backend/utils/order_utils.py): two fixed
 * codes, one a percentage and one a flat discount, applied to the amount in
 * the request body.
 */
module Coupon {
  import opened Json

  const AmountError := "Invalid or missing amount"
  const CodeError := "Invalid coupon code"

  /** The dictionary `validate_coupon` returns. */
  datatype CouponResult =
    | Invalid(error: string)
    | Valid(actualAmount: real, revisedAmount: real, discountType: string, discountValue: real)

  /** `float(data.get("amount", 0))`: a missing amount counts as 0. */
  function Amount(data: Object, parse: NumberParsers): Conv<real>
  {
    PyFloat(Get(data, "amount", VInt(0)), parse)
  }

  function Max0(x: real): real
  {
    if x >= 0.0 then x else 0.0
  }

  /** `validate_coupon(coupon_code, data)`. */
  function ValidateCoupon(code: string, data: Object, parse: NumberParsers): (r: CouponResult)
    ensures !Amount(data, parse).Converted? ==> r == Invalid(AmountError)
    ensures Amount(data, parse).Converted? && code != "BLACKFRIDAY" && code != "FLAT100" ==> r == Invalid(CodeError)
    ensures r.Valid? <==> Amount(data, parse).Converted? && (code == "BLACKFRIDAY" || code == "FLAT100")
    ensures r.Valid? ==> r.actualAmount == Amount(data, parse).value
    ensures r.Valid? ==> (r.discountType == "percentage" <==> code == "BLACKFRIDAY")
    ensures r.Valid? ==> (r.discountType == "flat" <==> code == "FLAT100")
  {
    match Amount(data, parse)
    case Converted(amount) =>
      if code == "BLACKFRIDAY" then
        var discount := 0.2;
        Valid(amount, amount * (1.0 - discount), "percentage", discount * 100.0)
      else if code == "FLAT100" then
        Valid(amount, Max0(amount - 100.0), "flat", 100.0)
      else Invalid(CodeError)
    case _ => Invalid(AmountError)
  }

  /** The saving is the advertised one: `discount_value` percent, or `discount_value` rupees capped at the amount. */
  lemma SavingMatchesDiscountValue(code: string, data: Object, parse: NumberParsers)
    requires ValidateCoupon(code, data, parse).Valid?
    ensures var r := ValidateCoupon(code, data, parse);
      && (r.discountType == "percentage" ==>
            r.discountValue == 20.0 && r.actualAmount - r.revisedAmount == r.actualAmount * r.discountValue / 100.0)
      && (r.discountType == "flat" ==>
            r.discountValue == 100.0
            && r.actualAmount - r.revisedAmount == if r.actualAmount < r.discountValue then r.actualAmount else r.discountValue)
  {
  }

  /** On a non-negative amount a valid coupon never raises the price and never makes it negative. */
  lemma RevisedWithinBounds(code: string, data: Object, parse: NumberParsers)
    requires Amount(data, parse).Converted? && Amount(data, parse).value >= 0.0
    ensures var r := ValidateCoupon(code, data, parse);
      r.Valid? ==> 0.0 <= r.revisedAmount <= r.actualAmount
  {
  }

  /** The flat discount never goes below zero, whatever the amount. */
  lemma FlatNeverNegative(data: Object, parse: NumberParsers)
    requires Amount(data, parse).Converted?
    ensures ValidateCoupon("FLAT100", data, parse).revisedAmount >= 0.0
  {
  }
}
