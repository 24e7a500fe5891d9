/** `OrderCalculationService` (backend): the same three rules, read from an
    order's subtotal. */
module BackendOrderCalculation {
  import opened Orders
  import OrderCalculation

  /** `calculateShippingCost(order)`. */
  function ShippingCostOf(order: Order): (c: real)
    reads order
    ensures c == 0.0 <==> order.subtotal > OrderCalculation.FREE_SHIPPING_THRESHOLD
  {
    if order.subtotal > OrderCalculation.FREE_SHIPPING_THRESHOLD then 0.0 else OrderCalculation.FLAT_SHIPPING
  }

  /** `calculateTax(order)`. */
  function TaxOf(order: Order): real
    reads order
  {
    order.subtotal * OrderCalculation.TAX_RATE
  }

  /** `calculateTotal(order, shippingCost, tax)`: the order's subtotal plus the
      two arguments, whatever the order's own shipping and tax fields hold. */
  function TotalOf(order: Order, shippingCost: real, tax: real): real
    reads order
  {
    order.subtotal + shippingCost + tax
  }

  /** The backend rules read nothing of the order but its subtotal, and give
      what the older rules give on that subtotal. */
  lemma AgreesWithSubtotalRules(order: Order, shippingCost: real, tax: real)
    ensures ShippingCostOf(order) == OrderCalculation.ShippingCost(order.subtotal)
    ensures TaxOf(order) == OrderCalculation.Tax(order.subtotal)
    ensures TotalOf(order, shippingCost, tax) == OrderCalculation.Total(order.subtotal, shippingCost, tax)
  {
  }
}
