/** `OrderCalculationService` (the older copy): shipping, tax and total as
    functions of a subtotal. */
module OrderCalculation {

  /** Subtotals strictly above this ship free. */
  const FREE_SHIPPING_THRESHOLD: real := 100.0
  /** The flat shipping charge below the threshold. */
  const FLAT_SHIPPING: real := 10.0
  /** The tax rate. */
  const TAX_RATE: real := 0.1

  /** `calculateShippingCost`. */
  function ShippingCost(subtotal: real): (c: real)
    ensures c == 0.0 <==> subtotal > FREE_SHIPPING_THRESHOLD
    ensures c == 0.0 || c == FLAT_SHIPPING
  {
    if subtotal > FREE_SHIPPING_THRESHOLD then 0.0 else FLAT_SHIPPING
  }

  /** `calculateTax`. */
  function Tax(subtotal: real): (t: real)
    ensures subtotal >= 0.0 ==> 0.0 <= t <= subtotal
  {
    subtotal * TAX_RATE
  }

  /** `calculateTotal`. */
  function Total(subtotal: real, shippingCost: real, tax: real): real
  {
    subtotal + shippingCost + tax
  }

  /** The rules together: a subtotal of exactly 100 still pays shipping, and
      for a non-negative subtotal the computed total never falls below it and
      exceeds it by at most the flat charge plus a tenth. */
  lemma TotalBounds(subtotal: real)
    ensures ShippingCost(FREE_SHIPPING_THRESHOLD) == FLAT_SHIPPING
    ensures subtotal >= 0.0 ==>
      subtotal <= Total(subtotal, ShippingCost(subtotal), Tax(subtotal)) <= subtotal * 1.1 + FLAT_SHIPPING
    ensures subtotal > FREE_SHIPPING_THRESHOLD ==> Total(subtotal, ShippingCost(subtotal), Tax(subtotal)) == subtotal * 1.1
  {
  }
}
