/** The `Order` entity and its line items: a mutable aggregate whose totals
    are recomputed whenever an item is added or removed and before every
    insert or update. Money is `real` (BigDecimal); instants are epoch
    milliseconds. */
module Orders {
  import opened Wrappers

  /** The order statuses the services use. */
  datatype OrderStatus = PENDING | PROCESSING | CONFIRMED | CANCELLED

  /** The payment statuses the services use. */
  datatype PaymentStatus = PENDING | PROCESSING | COMPLETED | FAILED

  /** `OrderItem`: one product line of an order. Only the back-reference to
      the order changes once the item exists. */
  class OrderItem {
    const productId: int
    const quantity: int
    const unitPrice: Option<real>
    const totalPrice: Option<real>
    var order: Order?

    constructor (productId: int, quantity: int, unitPrice: Option<real>, totalPrice: Option<real>)
      ensures this.productId == productId && this.quantity == quantity
      ensures this.unitPrice == unitPrice && this.totalPrice == totalPrice
      ensures order == null
    {
      this.productId := productId;
      this.quantity := quantity;
      this.unitPrice := unitPrice;
      this.totalPrice := totalPrice;
      order := null;
    }
  }

  /** What an item contributes to the subtotal: its total price, or zero for a
      null item or a null total. */
  function ItemTotal(item: OrderItem?): real
  {
    if item != null && item.totalPrice.Some? then item.totalPrice.value else 0.0
  }

  /** The subtotal: the items' contributions summed from the first to the
      last, as the stream reduction does. */
  function Subtotal(items: seq<OrderItem?>): real
  {
    if items == [] then 0.0 else Subtotal(items[..|items| - 1]) + ItemTotal(items[|items| - 1])
  }

  /** Appending an item adds its contribution. */
  lemma SubtotalAppend(items: seq<OrderItem?>, item: OrderItem?)
    ensures Subtotal(items + [item]) == Subtotal(items) + ItemTotal(item)
  {
    assert (items + [item])[..|items|] == items;
  }

  /** The subtotal can also be taken from the front. */
  lemma {:induction false} SubtotalCons(item: OrderItem?, items: seq<OrderItem?>)
    ensures Subtotal([item] + items) == ItemTotal(item) + Subtotal(items)
  {
    if items != [] {
      var init := items[..|items| - 1];
      var last := items[|items| - 1];
      assert [item] + items == ([item] + init) + [last];
      SubtotalCons(item, init);
      SubtotalAppend([item] + init, last);
      SubtotalAppend(init, last);
      assert init + [last] == items;
    } else {
      assert [item] + items == [] + [item];
      SubtotalAppend([], item);
    }
  }

  /** `List.remove(Object)`: drops the first occurrence, if any. Items are
      compared by reference here, whereas the Lombok `equals` of `OrderItem`
      compares field values; the two agree when no two items of the list hold
      equal values. */
  function RemoveFirst(items: seq<OrderItem?>, x: OrderItem?): (r: seq<OrderItem?>)
    ensures x in items ==> |r| == |items| - 1
    ensures x !in items ==> r == items
  {
    if items == [] then []
    else if items[0] == x then items[1..]
    else [items[0]] + RemoveFirst(items[1..], x)
  }

  /** Removing a present item takes exactly its contribution away. */
  lemma {:induction false} SubtotalRemoveFirst(items: seq<OrderItem?>, x: OrderItem?)
    requires x in items
    ensures Subtotal(RemoveFirst(items, x)) == Subtotal(items) - ItemTotal(x)
  {
    assert items == [items[0]] + items[1..];
    SubtotalCons(items[0], items[1..]);
    if items[0] != x {
      SubtotalRemoveFirst(items[1..], x);
      SubtotalCons(items[0], RemoveFirst(items[1..], x));
    }
  }

  /** With no negative prices the subtotal is never negative. */
  lemma {:induction false} SubtotalNonNegative(items: seq<OrderItem?>)
    requires forall i :: 0 <= i < |items| ==> ItemTotal(items[i]) >= 0.0
    ensures Subtotal(items) >= 0.0
  {
    if items != [] {
      SubtotalNonNegative(items[..|items| - 1]);
    }
  }

  /** `ShippingAddress`, as copied field by field from the request; any
      field may be null. */
  datatype ShippingAddress = ShippingAddress(
    firstName: Option<string>, lastName: Option<string>, street: Option<string>, city: Option<string>,
    state: Option<string>, postalCode: Option<string>, country: Option<string>,
    phoneNumber: Option<string>, email: Option<string>)

  /** The column values of an order at one moment, so that a contract can
      say which of them an operation changes and that the others stay. */
  datatype OrderFields = OrderFields(
    userId: int, orderNumber: Option<string>, status: OrderStatus, paymentStatus: PaymentStatus,
    shippingAddress: Option<ShippingAddress>, items: Option<seq<OrderItem?>>,
    subtotal: real, shippingCost: Option<real>, tax: Option<real>, total: real,
    paymentId: Option<string>, payerId: Option<string>, paymentMethod: Option<string>,
    paymentDate: Option<int>, paymentError: Option<string>, trackingNumber: Option<string>,
    createdAt: Option<int>, updatedAt: Option<int>)

  /** The values after `calculateTotals`: the item list, shipping cost and
      tax defaulted, the subtotal summed from the items and the total the sum
      of the three; every other column as it was. */
  function WithTotals(f: OrderFields): (g: OrderFields)
    ensures g.items.Some? && g.shippingCost.Some? && g.tax.Some?
    ensures g.subtotal == Subtotal(g.items.value) && g.total == g.subtotal + g.shippingCost.value + g.tax.value
    ensures g.items == Some(f.items.GetOr([])) && g.shippingCost == Some(f.shippingCost.GetOr(0.0))
            && g.tax == Some(f.tax.GetOr(0.0))
    ensures g.(items := f.items, subtotal := f.subtotal, shippingCost := f.shippingCost, tax := f.tax,
               total := f.total) == f
  {
    var items := f.items.GetOr([]);
    var shippingCost := f.shippingCost.GetOr(0.0);
    var tax := f.tax.GetOr(0.0);
    var subtotal := Subtotal(items);
    f.(items := Some(items), subtotal := subtotal, shippingCost := Some(shippingCost), tax := Some(tax),
       total := subtotal + shippingCost + tax)
  }

  /** Recomputing the totals a second time changes nothing. */
  lemma WithTotalsIdempotent(f: OrderFields)
    ensures WithTotals(WithTotals(f)) == WithTotals(f)
  {
  }

  /** `save` of an order a transaction has edited from `stored` to `edited`:
      Hibernate writes the row, and so runs `@PreUpdate` (the update instant
      and the totals), only when some column differs from what was loaded;
      an edit that changes nothing writes nothing. */
  function Flushed(stored: OrderFields, edited: OrderFields, now: int): (g: OrderFields)
    ensures edited == stored ==> g == stored
    ensures edited != stored ==>
      g.updatedAt == Some(now) && g.(updatedAt := edited.updatedAt) == WithTotals(edited)
  {
    if edited == stored then stored else WithTotals(edited.(updatedAt := Some(now)))
  }

  /** `Order` (an entity updated in place). */
  class Order {
    var userId: int
    var orderNumber: Option<string>
    var status: OrderStatus
    var paymentStatus: PaymentStatus
    var shippingAddress: Option<ShippingAddress>
    var items: Option<seq<OrderItem?>>
    var subtotal: real
    var shippingCost: Option<real>
    var tax: Option<real>
    var total: real
    var paymentId: Option<string>
    var payerId: Option<string>
    var paymentMethod: Option<string>
    var paymentDate: Option<int>
    var paymentError: Option<string>
    var trackingNumber: Option<string>
    var createdAt: Option<int>
    var updatedAt: Option<int>

    /** The order's column values. */
    function Fields(): OrderFields
      reads this
    {
      OrderFields(userId, orderNumber, status, paymentStatus, shippingAddress, items, subtotal, shippingCost, tax,
                  total, paymentId, payerId, paymentMethod, paymentDate, paymentError, trackingNumber,
                  createdAt, updatedAt)
    }

    /** The totals agree with the items: subtotal is their sum, shipping cost
        and tax are set, and total is the sum of the three. */
    predicate TotalsConsistent()
      reads this
    {
      items.Some? && shippingCost.Some? && tax.Some?
      && subtotal == Subtotal(items.value)
      && total == subtotal + shippingCost.value + tax.value
    }

    /** A new order: PENDING, payment PENDING, no items, every amount zero. */
    constructor (userId: int)
      ensures this.userId == userId
      ensures status == OrderStatus.PENDING && paymentStatus == PaymentStatus.PENDING
      ensures items == Some([])
      ensures subtotal == 0.0 && shippingCost == Some(0.0) && tax == Some(0.0) && total == 0.0
      ensures orderNumber.None? && shippingAddress.None? && paymentId.None? && payerId.None? && paymentMethod.None?
      ensures paymentDate.None? && paymentError.None? && trackingNumber.None?
      ensures createdAt.None? && updatedAt.None?
      ensures TotalsConsistent()
    {
      this.userId := userId;
      orderNumber := None;
      shippingAddress := None;
      status := OrderStatus.PENDING;
      paymentStatus := PaymentStatus.PENDING;
      items := Some([]);
      subtotal := 0.0;
      shippingCost := Some(0.0);
      tax := Some(0.0);
      total := 0.0;
      paymentId := None;
      payerId := None;
      paymentMethod := None;
      paymentDate := None;
      paymentError := None;
      trackingNumber := None;
      createdAt := None;
      updatedAt := None;
    }

    /** `calculateTotals`: a null item list becomes empty, a null shipping
        cost or tax becomes zero, and the subtotal and total are recomputed. */
    method CalculateTotals()
      modifies this`items, this`subtotal, this`shippingCost, this`tax, this`total
      ensures items == Some(old(items).GetOr([]))
      ensures shippingCost == Some(old(shippingCost).GetOr(0.0))
      ensures tax == Some(old(tax).GetOr(0.0))
      ensures TotalsConsistent()
      ensures Fields() == WithTotals(old(Fields()))
    {
      if items.None? {
        items := Some([]);
      }
      subtotal := Subtotal(items.value);
      if shippingCost.None? {
        shippingCost := Some(0.0);
      }
      if tax.None? {
        tax := Some(0.0);
      }
      total := subtotal + shippingCost.value + tax.value;
    }

    /** `addItem`: appends the item, points it at this order and recomputes
        the totals, so the subtotal grows by the item's total. */
    method AddItem(item: OrderItem)
      modifies this`items, this`subtotal, this`shippingCost, this`tax, this`total, item`order
      ensures items == Some(old(items).GetOr([]) + [item])
      ensures item.order == this
      ensures subtotal == Subtotal(old(items).GetOr([])) + ItemTotal(item)
      ensures shippingCost == Some(old(shippingCost).GetOr(0.0)) && tax == Some(old(tax).GetOr(0.0))
      ensures TotalsConsistent()
    {
      if items.None? {
        items := Some([]);
      }
      SubtotalAppend(items.value, item);
      items := Some(items.value + [item]);
      item.order := this;
      CalculateTotals();
    }

    /** `removeItem`: with a list present, removes the item's first
        occurrence, clears its back-reference and recomputes the totals;
        with no list it does nothing at all. */
    method RemoveItem(item: OrderItem)
      modifies this`items, this`subtotal, this`shippingCost, this`tax, this`total, item`order
      ensures old(items).None? ==> Fields() == old(Fields()) && item.order == old(item.order)
      ensures old(items).Some? ==>
                items == Some(RemoveFirst(old(items).value, item)) && item.order == null && TotalsConsistent()
                && Fields() == WithTotals(old(Fields()).(items := Some(RemoveFirst(old(items).value, item))))
      ensures old(items).Some? && item in old(items).value ==>
        subtotal == Subtotal(old(items).value) - ItemTotal(item)
    {
      if items.Some? {
        if item in items.value {
          SubtotalRemoveFirst(items.value, item);
        }
        items := Some(RemoveFirst(items.value, item));
        item.order := null;
        CalculateTotals();
      }
    }

    /** `@PrePersist onCreate`: stamps both instants and recomputes totals. */
    method OnCreate(now: int)
      modifies this`createdAt, this`updatedAt, this`items, this`subtotal, this`shippingCost, this`tax, this`total
      ensures createdAt == Some(now) && updatedAt == Some(now)
      ensures items == Some(old(items).GetOr([]))
      ensures shippingCost == Some(old(shippingCost).GetOr(0.0)) && tax == Some(old(tax).GetOr(0.0))
      ensures TotalsConsistent()
    {
      createdAt := Some(now);
      updatedAt := Some(now);
      CalculateTotals();
    }

    /** `@PreUpdate onUpdate`: stamps the update instant and recomputes totals.
        Its callers run it only when the flush finds a changed column. */
    method OnUpdate(now: int)
      modifies this`updatedAt, this`items, this`subtotal, this`shippingCost, this`tax, this`total
      ensures updatedAt == Some(now)
      ensures items == Some(old(items).GetOr([]))
      ensures shippingCost == Some(old(shippingCost).GetOr(0.0)) && tax == Some(old(tax).GetOr(0.0))
      ensures TotalsConsistent()
      ensures Fields() == WithTotals(old(Fields()).(updatedAt := Some(now)))
    {
      updatedAt := Some(now);
      CalculateTotals();
    }

    /** The flush of `save` after an edit of the order loaded as `loaded`:
        `@PreUpdate` runs only when some column has changed. */
    method Save(loaded: OrderFields, now: int)
      modifies this`updatedAt, this`items, this`subtotal, this`shippingCost, this`tax, this`total
      ensures Fields() == Flushed(loaded, old(Fields()), now)
    {
      if Fields() != loaded {
        OnUpdate(now);
      }
    }
  }
}
