/** `OrderService` (the older copy): order creation with one stock reservation
    per item, status updates that deduct stock on confirmation, cancellation,
    and the PayPal payment steps. Every operation is one transaction: when it
    fails, the stock and reservation tables are restored to what they were. */
module OrderProcessing {
  import opened Wrappers
  import opened Failures
  import opened JavaLang
  import opened Orders
  import OrderCalculation
  import ProductCatalog
  import opened ProductReservations
  import LambdaEvents
  import ShippingRecords

  /** One line of an `OrderRequest`. */
  datatype ItemRequest = ItemRequest(productId: int, quantity: int)

  /** `UpdateOrderStatusDto`: each field may be null. */
  datatype StatusUpdate = StatusUpdate(status: Option<OrderStatus>, paymentStatus: Option<PaymentStatus>,
                                       trackingNumber: Option<string>)

  /** The stock and reservation tables an operation works on. */
  datatype Stock = Stock(products: map<int, ProductCatalog.Product>, reservations: seq<Reservation>)

  /** The failure of saving an order whose status was set to null (the column
      is not nullable). */
  const NOT_NULL_VIOLATION := "not-null property references a null or transient value"

  function OrderNotFound(orderId: int): Failure
  {
    ResourceNotFound("Order not found with id: " + IntToString(orderId))
  }

  /** The item loop of `createOrder`: each line in turn must have a positive
      quantity and an existing product with a positive price, and reserves its
      quantity; the first failure ends the loop. */
  function PlaceItems(rs: seq<Reservation>, products: map<int, ProductCatalog.Product>, users: set<int>,
                      userId: int, reqs: seq<ItemRequest>, now: int): Result<seq<Reservation>, Failure>
    decreases |reqs|
  {
    if reqs == [] then Ok(rs)
    else
      var q := reqs[0];
      if q.quantity <= 0 then Err(OrderStatusError("Item quantity must be positive"))
      else if q.productId !in products then Err(ProductCatalog.ProductNotFound(q.productId))
      else if products[q.productId].price.None? then Err(NullPointer)
      else if products[q.productId].price.value <= 0.0 then Err(OrderStatusError("Product price must be positive"))
      else match ReserveOutcome(rs, products, users, q.productId, userId, q.quantity, now)
        case Err(e) => Err(e)
        case Ok(res) => PlaceItems(rs + [res], products, users, userId, reqs[1..], now)
  }

  /** A successful item loop validated every line and added exactly one active
      reservation per line, in order, for that line's product and quantity. */
  lemma {:induction false} PlaceItemsOk(rs: seq<Reservation>, products: map<int, ProductCatalog.Product>,
                                        users: set<int>, userId: int, reqs: seq<ItemRequest>, now: int, k: nat)
    requires PlaceItems(rs, products, users, userId, reqs, now).Ok?
    requires k < |reqs|
    ensures var out := PlaceItems(rs, products, users, userId, reqs, now).value;
      |out| == |rs| + |reqs| && out[..|rs|] == rs
      && reqs[k].quantity > 0 && reqs[k].productId in products
      && products[reqs[k].productId].price.Some? && products[reqs[k].productId].price.value > 0.0
      && out[|rs| + k] == Reservation(reqs[k].productId, userId, reqs[k].quantity, now,
                                      now + RESERVATION_DURATION_MINUTES * MINUTE_MILLIS, true)
    decreases |reqs|
  {
    var q := reqs[0];
    var res := ReserveOutcome(rs, products, users, q.productId, userId, q.quantity, now).value;
    var out := PlaceItems(rs, products, users, userId, reqs, now).value;
    assert out == PlaceItems(rs + [res], products, users, userId, reqs[1..], now).value;
    if |reqs| == 1 {
      assert reqs[1..] == [];
    } else {
      var k' := if k == 0 then 0 else k - 1;
      PlaceItemsOk(rs + [res], products, users, userId, reqs[1..], now, k');
      assert (rs + [res])[..|rs|] == rs;
      assert out[..|rs|] == (rs + [res])[..|rs|];
    }
  }

  /** A successful item loop keeps every product's reservations within its
      stock. */
  lemma {:induction false} PlaceItemsWithinStock(rs: seq<Reservation>, products: map<int, ProductCatalog.Product>,
                                                 users: set<int>, userId: int, reqs: seq<ItemRequest>, now: int)
    requires WithinStock(rs, products)
    requires PlaceItems(rs, products, users, userId, reqs, now).Ok?
    ensures WithinStock(PlaceItems(rs, products, users, userId, reqs, now).value, products)
    decreases |reqs|
  {
    if reqs != [] {
      var q := reqs[0];
      ReservePreservesWithinStock(rs, products, users, q.productId, userId, q.quantity, now);
      var res := ReserveOutcome(rs, products, users, q.productId, userId, q.quantity, now).value;
      PlaceItemsWithinStock(rs + [res], products, users, userId, reqs[1..], now);
    }
  }

  /** The lines of a new order match the request line for line: product,
      quantity and the product's price; no line has a total price. */
  predicate ItemsMatch(items: seq<OrderItem?>, reqs: seq<ItemRequest>, products: map<int, ProductCatalog.Product>)
  {
    |items| == |reqs|
    && forall k :: 0 <= k < |items| ==>
      items[k] != null && items[k].productId == reqs[k].productId && items[k].quantity == reqs[k].quantity
      && reqs[k].productId in products && items[k].unitPrice == products[reqs[k].productId].price
      && items[k].totalPrice.None?
  }

  /** Lines without a total price add nothing, so a freshly created order has a
      zero subtotal. */
  lemma {:induction false} SubtotalOfUnpriced(items: seq<OrderItem?>)
    requires forall k :: 0 <= k < |items| ==> items[k] != null && items[k].totalPrice.None?
    ensures Subtotal(items) == 0.0
  {
    if items != [] {
      SubtotalOfUnpriced(items[..|items| - 1]);
    }
  }

  /** The sum of the quantities of the lines for a product. */
  function ItemsQuantity(items: seq<OrderItem?>, productId: int): int
  {
    if items == [] then 0
    else (if items[0] != null && items[0].productId == productId then items[0].quantity else 0)
         + ItemsQuantity(items[1..], productId)
  }

  /** The stock deduction of a confirmation: for each line in turn the new
      quantity is the product's stock minus the line's quantity; a negative one
      fails; otherwise the stock is set and the user's reservations of the
      product are released. */
  function Deduct(st: Stock, items: seq<OrderItem?>, userId: int): Result<Stock, Failure>
    decreases |items|
  {
    if items == [] then Ok(st)
    else if items[0] == null then Err(NullPointer)
    else
      var pid := items[0].productId;
      if pid !in st.products then Err(ProductCatalog.ProductNotFound(pid))
      else if st.products[pid].stockQuantity.None? then Err(NullPointer)
      else
        var n := st.products[pid].stockQuantity.value - items[0].quantity;
        if n < 0 then Err(OrderStatusError("Not enough stock for product: " + LambdaEvents.JavaText(st.products[pid].name)))
        else Deduct(Stock(st.products[pid := st.products[pid].(stockQuantity := Some(n))],
                          DeactivatedFor(st.reservations, pid, userId)), items[1..], userId)
  }

  /** A successful deduction takes each product's stock down by exactly the
      quantities ordered of it, touches no other field and no other key, and
      leaves no stock negative that was not negative before. */
  lemma {:induction false} DeductStock(st: Stock, items: seq<OrderItem?>, userId: int, p: int)
    requires Deduct(st, items, userId).Ok?
    ensures var out := Deduct(st, items, userId).value.products;
      out.Keys == st.products.Keys
      && (p in st.products ==> out[p].(stockQuantity := st.products[p].stockQuantity) == st.products[p])
      && (p in st.products && st.products[p].stockQuantity.Some? ==>
            out[p].stockQuantity == Some(st.products[p].stockQuantity.value - ItemsQuantity(items, p)))
      && (p in st.products && st.products[p].stockQuantity.Some? && st.products[p].stockQuantity.value >= 0 ==>
            out[p].stockQuantity.value >= 0)
    decreases |items|
  {
    if items != [] {
      var pid := items[0].productId;
      var n := st.products[pid].stockQuantity.value - items[0].quantity;
      var st' := Stock(st.products[pid := st.products[pid].(stockQuantity := Some(n))],
                       DeactivatedFor(st.reservations, pid, userId));
      assert Deduct(st, items, userId) == Deduct(st', items[1..], userId);
      DeductStock(st', items[1..], userId, p);
    }
  }

  /** The effect of a status change on the stock: only a move to CONFIRMED
      from another status deducts; a null item list cannot be iterated. */
  function ConfirmEffect(confirming: bool, items: Option<seq<OrderItem?>>, userId: int, st: Stock): Result<Stock, Failure>
  {
    if !confirming then Ok(st)
    else if items.None? then Err(NullPointer)
    else Deduct(st, items.value, userId)
  }

  /** Releasing an order's reservations: for each line, the user's
      reservations of its product. */
  function ReleaseAll(rs: seq<Reservation>, items: seq<OrderItem?>, userId: int): Result<seq<Reservation>, Failure>
    decreases |items|
  {
    if items == [] then Ok(rs)
    else if items[0] == null then Err(NullPointer)
    else ReleaseAll(DeactivatedFor(rs, items[0].productId, userId), items[1..], userId)
  }

  /** After a successful release no reservation of an ordered product by the
      user is active, and the reservations of other users are untouched. */
  lemma {:induction false} ReleaseAllEffect(rs: seq<Reservation>, items: seq<OrderItem?>, userId: int, i: nat, k: nat)
    requires ReleaseAll(rs, items, userId).Ok?
    requires i < |rs|
    ensures |ReleaseAll(rs, items, userId).value| == |rs|
    ensures rs[i].userId != userId ==> ReleaseAll(rs, items, userId).value[i] == rs[i]
    ensures k < |items| ==> items[k] != null
    ensures k < |items| ==>
      var r := ReleaseAll(rs, items, userId).value[i];
      !(r.active && r.userId == userId && r.productId == items[k].productId)
    decreases |items|
  {
    if items != [] {
      var rs' := DeactivatedFor(rs, items[0].productId, userId);
      ReleaseAllEffect(rs', items[1..], userId, i, if k == 0 then 0 else k - 1);
      if k == 0 {
        ReleaseAllKeepsInactive(rs', items[1..], userId, i);
      }
    }
  }

  /** A release never reactivates a reservation. */
  lemma {:induction false} ReleaseAllKeepsInactive(rs: seq<Reservation>, items: seq<OrderItem?>, userId: int, i: nat)
    requires ReleaseAll(rs, items, userId).Ok?
    requires i < |rs|
    ensures |ReleaseAll(rs, items, userId).value| == |rs|
    ensures ReleaseAll(rs, items, userId).value[i].(active := rs[i].active) == rs[i]
    ensures !rs[i].active ==> !ReleaseAll(rs, items, userId).value[i].active
    decreases |items|
  {
    if items != [] {
      ReleaseAllKeepsInactive(DeactivatedFor(rs, items[0].productId, userId), items[1..], userId, i);
    }
  }

  /** The columns `processSuccessfulPayment` sets: an approved payment
      records the payer and the payment instant and makes payment and order
      COMPLETED and CONFIRMED; any other state marks the payment FAILED with
      the state in the message. */
  function PaymentEdit(f: OrderFields, payerId: string, state: string, now: int): (g: OrderFields)
    ensures state == "approved" ==>
      g.(payerId := f.payerId, paymentDate := f.paymentDate, paymentStatus := f.paymentStatus, status := f.status) == f
      && g.payerId == Some(payerId) && g.paymentDate == Some(now)
      && g.paymentStatus == PaymentStatus.COMPLETED && g.status == OrderStatus.CONFIRMED
    ensures state != "approved" ==>
      g.(paymentStatus := f.paymentStatus, paymentError := f.paymentError) == f
      && g.paymentStatus == PaymentStatus.FAILED && g.paymentError == Some("Payment was not approved: " + state)
  {
    if state == "approved" then
      f.(payerId := Some(payerId), paymentDate := Some(now), paymentStatus := PaymentStatus.COMPLETED,
         status := OrderStatus.CONFIRMED)
    else
      f.(paymentStatus := PaymentStatus.FAILED, paymentError := Some("Payment was not approved: " + state))
  }

  /** The columns of an order after `processSuccessfulPayment` saves it: the
      edit is written, stamped and re-totalled, unless the order already held
      every value it sets, in which case nothing is written. */
  function PaymentSettled(f: OrderFields, payerId: string, state: string, now: int): (g: OrderFields)
    ensures g.userId == f.userId && g.paymentId == f.paymentId
    ensures state == "approved" ==>
      g.payerId == Some(payerId) && g.paymentDate == Some(now)
      && g.paymentStatus == PaymentStatus.COMPLETED && g.status == OrderStatus.CONFIRMED
      && g.paymentError == f.paymentError
    ensures state != "approved" ==>
      g.payerId == f.payerId && g.paymentDate == f.paymentDate
      && g.paymentStatus == PaymentStatus.FAILED && g.status == f.status
      && g.paymentError == Some("Payment was not approved: " + state)
    ensures g == f <==>
      if state == "approved" then
        f.payerId == Some(payerId) && f.paymentDate == Some(now)
        && f.paymentStatus == PaymentStatus.COMPLETED && f.status == OrderStatus.CONFIRMED
      else
        f.paymentStatus == PaymentStatus.FAILED && f.paymentError == Some("Payment was not approved: " + state)
    ensures g != f ==>
      g.updatedAt == Some(now) && g.items == Some(f.items.GetOr([])) && g.subtotal == Subtotal(g.items.value)
  {
    Flushed(f, PaymentEdit(f, payerId, state, now), now)
  }

  /** A payment declined a second time in the same state writes nothing:
      the order already holds that failure. */
  lemma RepeatedDeclineWritesNothing(f: OrderFields, payerId: string, state: string, now1: int, now2: int)
    requires state != "approved"
    ensures PaymentSettled(PaymentSettled(f, payerId, state, now1), payerId, state, now2)
            == PaymentSettled(f, payerId, state, now1)
  {
  }

  /** `handlePaymentFailure` repeated with the same message writes nothing
      the second time. */
  lemma RepeatedPaymentFailureWritesNothing(f: OrderFields, errorMessage: Option<string>, now1: int, now2: int)
    ensures
      var g := Flushed(f, f.(paymentStatus := PaymentStatus.FAILED, paymentError := errorMessage), now1);
      Flushed(g, g.(paymentStatus := PaymentStatus.FAILED, paymentError := errorMessage), now2) == g
  {
  }

  class OrderService {
    var orders: map<int, Order>
    var nextId: int
    const catalog: ProductCatalog.ProductService
    const reservationService: ProductReservationService

    constructor (catalog: ProductCatalog.ProductService, reservationService: ProductReservationService)
      ensures orders == map[] && nextId == 1
      ensures this.catalog == catalog && this.reservationService == reservationService
    {
      orders := map[];
      nextId := 1;
      this.catalog := catalog;
      this.reservationService := reservationService;
    }

    /** The order `createOrder` saves: the user, the generated number and the
        address as given, the lines of the request, PENDING with payment
        PENDING and no payment data yet, both instants the creation instant,
        and shipping cost, tax and total from the calculation rules on its
        (zero) subtotal. */
    predicate NewOrder(o: Order, userId: int, reqs: seq<ItemRequest>, address: ShippingAddress,
                       orderNumber: string, now: int)
      reads this, catalog, o
    {
      o.userId == userId && o.orderNumber == Some(orderNumber)
      && o.status == OrderStatus.PENDING && o.paymentStatus == PaymentStatus.PENDING
      && o.items.Some? && ItemsMatch(o.items.value, reqs, catalog.products)
      && o.TotalsConsistent() && o.subtotal == 0.0
      && o.shippingCost == Some(OrderCalculation.ShippingCost(o.subtotal))
      && o.tax == Some(OrderCalculation.Tax(o.subtotal))
      && o.total == OrderCalculation.Total(o.subtotal, o.shippingCost.value, o.tax.value)
      && o.createdAt == Some(now) && o.updatedAt == Some(now)
      && o.shippingAddress == Some(address) && o.paymentId.None? && o.payerId.None? && o.paymentMethod.None?
      && o.paymentDate.None? && o.paymentError.None? && o.trackingNumber.None?
    }

    /** `createOrder`: an empty request is refused before the user is looked
        up; the request's shipping address must not be null, since it is
        converted field by field before the lines are placed; then the lines
        are validated and reserved one by one and the order is saved.
        `orderNumber` is the generated "ORD-…" number and `now` the current
        instant. */
    method CreateOrder(users: set<int>, userId: int, items: Option<seq<ItemRequest>>,
                       address: Option<ShippingAddress>, orderNumber: string, now: int)
      returns (r: Result<Order, Failure>)
      modifies this`orders, this`nextId, reservationService`reservations
      ensures items.None? || items == Some([]) ==>
        r == Err(OrderStatusError("Order must contain at least one item"))
        && reservationService.reservations == old(reservationService.reservations) && orders == old(orders)
      ensures items.Some? && items.value != [] && userId !in users ==>
        r == Err(ResourceNotFound("User not found with id: " + IntToString(userId)))
        && reservationService.reservations == old(reservationService.reservations) && orders == old(orders)
      ensures items.Some? && items.value != [] && userId in users && address.None? ==>
        r == Err(NullPointer)
        && reservationService.reservations == old(reservationService.reservations) && orders == old(orders)
      ensures items.Some? && items.value != [] && userId in users && address.Some?
              && PlaceItems(old(reservationService.reservations), catalog.products, users, userId, items.value, now).Err? ==>
        r == Err(PlaceItems(old(reservationService.reservations), catalog.products, users, userId, items.value, now).error)
        && reservationService.reservations == old(reservationService.reservations) && orders == old(orders)
      ensures items.Some? && items.value != [] && userId in users && address.Some?
              && PlaceItems(old(reservationService.reservations), catalog.products, users, userId, items.value, now).Ok? ==>
        r.Ok? && fresh(r.value) && orders == old(orders)[old(nextId) := r.value]
        && reservationService.reservations
           == PlaceItems(old(reservationService.reservations), catalog.products, users, userId, items.value, now).value
        && NewOrder(r.value, userId, items.value, address.value, orderNumber, now)
    {
      if items.None? || items.value == [] {
        return Err(OrderStatusError("Order must contain at least one item"));
      }
      if userId !in users {
        return Err(ResourceNotFound("User not found with id: " + IntToString(userId)));
      }
      if address.None? {
        return Err(NullPointer);
      }
      r := PlaceOrder(users, userId, items.value, address.value, orderNumber, now);
      if r.Ok? {
        orders := orders[nextId := r.value];
        nextId := nextId + 1;
      }
    }

    /** The rest of `createOrder` once the request, the user and the address
        are known: a new order is filled with the lines and saved. */
    method PlaceOrder(users: set<int>, userId: int, reqs: seq<ItemRequest>, address: ShippingAddress,
                      orderNumber: string, now: int)
      returns (r: Result<Order, Failure>)
      modifies reservationService`reservations
      ensures PlaceItems(old(reservationService.reservations), catalog.products, users, userId, reqs, now).Err? ==>
        r == Err(PlaceItems(old(reservationService.reservations), catalog.products, users, userId, reqs, now).error)
        && reservationService.reservations == old(reservationService.reservations)
      ensures PlaceItems(old(reservationService.reservations), catalog.products, users, userId, reqs, now).Ok? ==>
        r.Ok? && fresh(r.value)
        && reservationService.reservations
           == PlaceItems(old(reservationService.reservations), catalog.products, users, userId, reqs, now).value
        && NewOrder(r.value, userId, reqs, address, orderNumber, now)
    {
      var order := new Order(userId);
      order.orderNumber := Some(orderNumber);
      order.shippingAddress := Some(address);
      var added := AddItems(order, users, userId, reqs, now);
      if added.Err? {
        return Err(added.error);
      }
      SubtotalOfUnpriced(order.items.value);
      SaveNewOrder(order, now);
      r := Ok(order);
    }

    /** The two saves of `createOrder`: the first stamps the order and
        recomputes its totals; then shipping cost, tax and total are taken from
        the calculation rules on the subtotal, and the second save recomputes
        the totals once more. */
    method SaveNewOrder(order: Order, now: int)
      requires order.items.Some?
      modifies order`createdAt, order`updatedAt, order`items, order`subtotal, order`shippingCost, order`tax, order`total
      ensures order.items == old(order.items) && order.TotalsConsistent()
      ensures order.shippingCost == Some(OrderCalculation.ShippingCost(order.subtotal))
      ensures order.tax == Some(OrderCalculation.Tax(order.subtotal))
      ensures order.total == OrderCalculation.Total(order.subtotal, order.shippingCost.value, order.tax.value)
      ensures order.createdAt == Some(now) && order.updatedAt == Some(now)
    {
      order.OnCreate(now);
      var subtotal := order.subtotal;
      var shippingCost := OrderCalculation.ShippingCost(subtotal);
      var tax := OrderCalculation.Tax(subtotal);
      var total := OrderCalculation.Total(subtotal, shippingCost, tax);
      order.subtotal := subtotal;
      order.shippingCost := Some(shippingCost);
      order.tax := Some(tax);
      order.total := total;
      order.OnUpdate(now);
    }

    /** The item loop of `createOrder` on a new order: each line is validated,
        reserved and appended; a failure undoes the reservations made so far. */
    method AddItems(order: Order, users: set<int>, userId: int, reqs: seq<ItemRequest>, now: int)
      returns (r: Result<(), Failure>)
      requires order.items == Some([])
      modifies order`items, order`subtotal, order`shippingCost, order`tax, order`total
      modifies reservationService`reservations
      ensures PlaceItems(old(reservationService.reservations), catalog.products, users, userId, reqs, now).Err? ==>
        r == Err(PlaceItems(old(reservationService.reservations), catalog.products, users, userId, reqs, now).error)
        && reservationService.reservations == old(reservationService.reservations)
      ensures PlaceItems(old(reservationService.reservations), catalog.products, users, userId, reqs, now).Ok? ==>
        r == Ok(()) && order.items.Some? && ItemsMatch(order.items.value, reqs, catalog.products)
        && reservationService.reservations
           == PlaceItems(old(reservationService.reservations), catalog.products, users, userId, reqs, now).value
    {
      var saved := reservationService.reservations;
      var i := 0;
      while i < |reqs|
        invariant 0 <= i <= |reqs|
        invariant saved == old(reservationService.reservations)
        invariant PlaceItems(saved, catalog.products, users, userId, reqs, now)
               == PlaceItems(reservationService.reservations, catalog.products, users, userId, reqs[i..], now)
        invariant order.items.Some? && ItemsMatch(order.items.value, reqs[..i], catalog.products)
      {
        var q := reqs[i];
        assert reqs[i..][0] == q && reqs[i..][1..] == reqs[i + 1..];
        if q.quantity <= 0 {
          reservationService.reservations := saved;
          return Err(OrderStatusError("Item quantity must be positive"));
        }
        var found := catalog.Find(q.productId);
        if found.Err? {
          reservationService.reservations := saved;
          return Err(found.error);
        }
        var product := found.value;
        if product.price.None? {
          reservationService.reservations := saved;
          return Err(NullPointer);
        }
        if product.price.value <= 0.0 {
          reservationService.reservations := saved;
          return Err(OrderStatusError("Product price must be positive"));
        }
        var reserved := reservationService.Reserve(catalog, users, q.productId, userId, q.quantity, now);
        if reserved.Err? {
          reservationService.reservations := saved;
          return Err(reserved.error);
        }
        var item := new OrderItem(q.productId, q.quantity, product.price, None);
        ghost var before := order.items.value;
        order.AddItem(item);
        assert reqs[..i + 1] == reqs[..i] + [q];
        assert order.items.value == before + [item];
        i := i + 1;
      }
      assert reqs[i..] == [];
      assert reqs[..i] == reqs;
      r := Ok(());
    }

    /** The deduction loop shared by confirmation and payment: for each line
        the stock is set through `SetStockQuantity` and the reservations are
        released; a failure restores both tables. */
    method DeductForItems(items: seq<OrderItem?>, userId: int) returns (r: Result<(), Failure>)
      requires catalog.Valid()
      modifies catalog`products, reservationService`reservations
      ensures catalog.Valid()
      ensures Deduct(Stock(old(catalog.products), old(reservationService.reservations)), items, userId).Err? ==>
        r == Err(Deduct(Stock(old(catalog.products), old(reservationService.reservations)), items, userId).error)
        && catalog.products == old(catalog.products)
        && reservationService.reservations == old(reservationService.reservations)
      ensures Deduct(Stock(old(catalog.products), old(reservationService.reservations)), items, userId).Ok? ==>
        r == Ok(())
        && Stock(catalog.products, reservationService.reservations)
           == Deduct(Stock(old(catalog.products), old(reservationService.reservations)), items, userId).value
    {
      var savedProducts := catalog.products;
      var savedReservations := reservationService.reservations;
      ghost var st0 := Stock(savedProducts, savedReservations);
      var i := 0;
      while i < |items|
        invariant 0 <= i <= |items|
        invariant catalog.Valid() && catalog.nextId == old(catalog.nextId)
        invariant savedProducts == old(catalog.products) && savedReservations == old(reservationService.reservations)
        invariant Deduct(st0, items, userId)
               == Deduct(Stock(catalog.products, reservationService.reservations), items[i..], userId)
      {
        assert items[i..][0] == items[i] && items[i..][1..] == items[i + 1..];
        var item := items[i];
        if item == null {
          catalog.products, reservationService.reservations := savedProducts, savedReservations;
          return Err(NullPointer);
        }
        var found := catalog.Find(item.productId);
        if found.Err? {
          catalog.products, reservationService.reservations := savedProducts, savedReservations;
          return Err(found.error);
        }
        var product := found.value;
        if product.stockQuantity.None? {
          catalog.products, reservationService.reservations := savedProducts, savedReservations;
          return Err(NullPointer);
        }
        var newQuantity := product.stockQuantity.value - item.quantity;
        if newQuantity < 0 {
          catalog.products, reservationService.reservations := savedProducts, savedReservations;
          return Err(OrderStatusError("Not enough stock for product: " + LambdaEvents.JavaText(product.name)));
        }
        var stored := catalog.SetStockQuantity(item.productId, newQuantity);
        reservationService.ReleaseForOrder(item.productId, userId);
        i := i + 1;
      }
      assert items[i..] == [];
      r := Ok(());
    }

    /** `updateOrderStatus`: moving to CONFIRMED from another status deducts
        the stock first; then the status is set, and the payment status and
        tracking number only when given. The row is written, stamped and
        re-totalled, only when one of them changes. */
    method UpdateOrderStatus(orderId: int, dto: StatusUpdate, now: int) returns (r: Result<Order, Failure>)
      requires catalog.Valid()
      modifies if orderId in orders then {orders[orderId]} else {}
      modifies catalog`products, reservationService`reservations
      ensures catalog.Valid()
      ensures orderId !in orders ==>
        r == Err(OrderNotFound(orderId)) && catalog.products == old(catalog.products)
        && reservationService.reservations == old(reservationService.reservations)
      ensures orderId in orders ==>
        var o := orders[orderId];
        var e := ConfirmEffect(dto.status == Some(OrderStatus.CONFIRMED) && old(o.status) != OrderStatus.CONFIRMED,
                               old(o.items), old(o.userId),
                               Stock(old(catalog.products), old(reservationService.reservations)));
        (e.Err? || dto.status.None? ==>
           r == Err(if e.Err? then e.error else Runtime(NOT_NULL_VIOLATION)) && unchanged(o)
           && catalog.products == old(catalog.products)
           && reservationService.reservations == old(reservationService.reservations))
        && (e.Ok? && dto.status.Some? ==>
           r == Ok(o) && catalog.products == e.value.products
           && reservationService.reservations == e.value.reservations
           && o.Fields() == Flushed(old(o.Fields()), old(o.Fields()).(
                status := dto.status.value,
                paymentStatus := if dto.paymentStatus.Some? then dto.paymentStatus.value else old(o.paymentStatus),
                trackingNumber := if dto.trackingNumber.Some? then dto.trackingNumber else old(o.trackingNumber)),
                now))
    {
      if orderId !in orders {
        return Err(OrderNotFound(orderId));
      }
      var order := orders[orderId];
      var before := order.Fields();
      var savedProducts, savedReservations := catalog.products, reservationService.reservations;
      if dto.status == Some(OrderStatus.CONFIRMED) && order.status != OrderStatus.CONFIRMED {
        if order.items.None? {
          return Err(NullPointer);
        }
        var d := DeductForItems(order.items.value, order.userId);
        if d.Err? {
          return Err(d.error);
        }
      }
      if dto.status.None? {
        catalog.products, reservationService.reservations := savedProducts, savedReservations;
        return Err(Runtime(NOT_NULL_VIOLATION));
      }
      order.status := dto.status.value;
      if dto.paymentStatus.Some? {
        order.paymentStatus := dto.paymentStatus.value;
      }
      if dto.trackingNumber.Some? {
        order.trackingNumber := dto.trackingNumber;
      }
      assert order.Fields() == before.(
        status := dto.status.value,
        paymentStatus := if dto.paymentStatus.Some? then dto.paymentStatus.value else before.paymentStatus,
        trackingNumber := if dto.trackingNumber.Some? then dto.trackingNumber else before.trackingNumber);
      order.Save(before, now);
      r := Ok(order);
    }

    /** `cancelOrder`: only a PENDING order can be cancelled; the user's
        reservations of every ordered product are released and the order
        becomes CANCELLED. */
    method CancelOrder(orderId: int, now: int) returns (r: Result<(), Failure>)
      modifies if orderId in orders then {orders[orderId]} else {}
      modifies reservationService`reservations
      ensures orderId !in orders ==>
        r == Err(OrderNotFound(orderId)) && reservationService.reservations == old(reservationService.reservations)
      ensures orderId in orders ==>
        var o := orders[orderId];
        (old(o.status) != OrderStatus.PENDING ==>
           r == Err(OrderStatusError("Only pending orders can be cancelled")) && unchanged(o)
           && reservationService.reservations == old(reservationService.reservations))
        && (old(o.status) == OrderStatus.PENDING && old(o.items).None? ==>
           r == Err(NullPointer) && unchanged(o)
           && reservationService.reservations == old(reservationService.reservations))
      ensures orderId in orders && old(orders[orderId].status) == OrderStatus.PENDING && old(orders[orderId].items).Some? ==>
        var o := orders[orderId];
        var rel := ReleaseAll(old(reservationService.reservations), old(o.items).value, old(o.userId));
        if rel.Err? then
          r == Err(rel.error) && unchanged(o)
          && reservationService.reservations == old(reservationService.reservations)
        else
          r == Ok(()) && reservationService.reservations == rel.value
          && o.Fields() == WithTotals(old(o.Fields()).(status := OrderStatus.CANCELLED, updatedAt := Some(now)))
    {
      if orderId !in orders {
        return Err(OrderNotFound(orderId));
      }
      var order := orders[orderId];
      if order.status != OrderStatus.PENDING {
        return Err(OrderStatusError("Only pending orders can be cancelled"));
      }
      if order.items.None? {
        return Err(NullPointer);
      }
      var items := order.items.value;
      var saved := reservationService.reservations;
      var i := 0;
      while i < |items|
        invariant 0 <= i <= |items|
        invariant saved == old(reservationService.reservations)
        invariant ReleaseAll(saved, items, order.userId)
               == ReleaseAll(reservationService.reservations, items[i..], order.userId)
        invariant unchanged(order)
      {
        assert items[i..][0] == items[i] && items[i..][1..] == items[i + 1..];
        if items[i] == null {
          reservationService.reservations := saved;
          return Err(NullPointer);
        }
        reservationService.ReleaseForOrder(items[i].productId, order.userId);
        i := i + 1;
      }
      assert items[i..] == [];
      order.status := OrderStatus.CANCELLED;
      order.OnUpdate(now);
      r := Ok(());
    }

    /** `createPayment`: the payment must still be PENDING and not yet
        started; `payment` is what PayPal's `createPayment` gives, the id of
        the created payment or the exception it throws, which leaves the
        order as it was. */
    method CreatePayment(orderId: int, payment: Result<string, Failure>, now: int) returns (r: Result<Order, Failure>)
      modifies if orderId in orders then {orders[orderId]} else {}
      ensures orderId !in orders ==> r == Err(OrderNotFound(orderId))
      ensures orderId in orders ==>
        var o := orders[orderId];
        (old(o.paymentStatus) != PaymentStatus.PENDING ==>
           r == Err(OrderStatusError("Order is not in pending payment status")) && unchanged(o))
        && (old(o.paymentStatus) == PaymentStatus.PENDING && old(o.paymentId).Some? ==>
           r == Err(OrderStatusError("Payment already initiated for this order")) && unchanged(o))
        && (old(o.paymentStatus) == PaymentStatus.PENDING && old(o.paymentId).None? && payment.Err? ==>
           r == Err(payment.error) && unchanged(o))
        && (old(o.paymentStatus) == PaymentStatus.PENDING && old(o.paymentId).None? && payment.Ok? ==>
           r == Ok(o)
           && o.Fields() == WithTotals(old(o.Fields()).(paymentId := Some(payment.value), paymentMethod := Some("PAYPAL"),
                                                        paymentStatus := PaymentStatus.PROCESSING,
                                                        updatedAt := Some(now))))
    {
      if orderId !in orders {
        return Err(OrderNotFound(orderId));
      }
      var order := orders[orderId];
      if order.paymentStatus != PaymentStatus.PENDING {
        return Err(OrderStatusError("Order is not in pending payment status"));
      }
      if order.paymentId.Some? {
        return Err(OrderStatusError("Payment already initiated for this order"));
      }
      if payment.Err? {
        return Err(payment.error);
      }
      order.paymentId := Some(payment.value);
      order.paymentMethod := Some("PAYPAL");
      order.paymentStatus := PaymentStatus.PROCESSING;
      order.OnUpdate(now);
      r := Ok(order);
    }

    /** The keys of the orders carrying a payment id. */
    function PaymentKeys(paymentId: string): set<int>
      reads this, orders.Values
    {
      set k | k in orders && orders[k].paymentId == Some(paymentId)
    }

    /** `findByPaymentId(...).orElseThrow(...)`: no order is "not found", one
        order is the result, and several make the single-result query fail. */
    method FindByPaymentId(paymentId: string) returns (r: Result<int, Failure>)
      ensures PaymentKeys(paymentId) == {} ==>
        r == Err(ResourceNotFound("Order not found for payment: " + paymentId))
      ensures |PaymentKeys(paymentId)| > 1 ==> r == Err(Runtime(ShippingRecords.NOT_UNIQUE))
      ensures |PaymentKeys(paymentId)| == 1 ==> r.Ok? && PaymentKeys(paymentId) == {r.value}
    {
      var keys := PaymentKeys(paymentId);
      if forall k :: k in orders ==> orders[k].paymentId != Some(paymentId) {
        assert keys == {};
        return Err(ResourceNotFound("Order not found for payment: " + paymentId));
      }
      var k :| k in orders && orders[k].paymentId == Some(paymentId);
      assert k in keys;
      if keys != {k} {
        var rest := keys - {k};
        assert keys == rest + {k};
        assert rest != {};
        return Err(Runtime(ShippingRecords.NOT_UNIQUE));
      }
      r := Ok(k);
    }

    /** `processSuccessfulPayment`: `state` is the state of the executed
        PayPal payment. An "approved" payment deducts the stock and confirms
        the order; any other state records the failure. */
    method ProcessSuccessfulPayment(paymentId: string, payerId: string, state: string, now: int)
      returns (r: Result<Order, Failure>)
      requires catalog.Valid()
      modifies orders.Values, catalog`products, reservationService`reservations
      ensures catalog.Valid()
      ensures old(PaymentKeys(paymentId)) == {} ==>
        r == Err(ResourceNotFound("Order not found for payment: " + paymentId))
      ensures |old(PaymentKeys(paymentId))| > 1 ==> r == Err(Runtime(ShippingRecords.NOT_UNIQUE))
      ensures |old(PaymentKeys(paymentId))| == 1 ==>
        forall k :: k in old(PaymentKeys(paymentId)) ==>
          var o := orders[k];
          var e := ConfirmEffect(state == "approved", old(o.items), old(o.userId),
                                 Stock(old(catalog.products), old(reservationService.reservations)));
          (e.Err? ==> r == Err(e.error))
          && (e.Ok? ==>
                r == Ok(o) && Stock(catalog.products, reservationService.reservations) == e.value
                && o.Fields() == PaymentSettled(old(o.Fields()), payerId, state, now))
      ensures r.Ok? ==> forall o :: o in orders.Values && o != r.value ==> unchanged(o)
      ensures r.Err? ==>
        catalog.products == old(catalog.products) && reservationService.reservations == old(reservationService.reservations)
        && forall o :: o in orders.Values ==> unchanged(o)
    {
      var found := FindByPaymentId(paymentId);
      if found.Err? {
        return Err(found.error);
      }
      r := SettlePayment(orders[found.value], payerId, state, now);
    }

    /** The body of `processSuccessfulPayment` once the order is found. */
    method SettlePayment(order: Order, payerId: string, state: string, now: int) returns (r: Result<Order, Failure>)
      requires catalog.Valid()
      modifies order, catalog`products, reservationService`reservations
      ensures catalog.Valid()
      ensures
        var e := ConfirmEffect(state == "approved", old(order.items), old(order.userId),
                               Stock(old(catalog.products), old(reservationService.reservations)));
        (e.Err? ==>
           r == Err(e.error) && unchanged(order) && catalog.products == old(catalog.products)
           && reservationService.reservations == old(reservationService.reservations))
        && (e.Ok? ==>
              r == Ok(order) && Stock(catalog.products, reservationService.reservations) == e.value
              && order.Fields() == PaymentSettled(old(order.Fields()), payerId, state, now))
    {
      var before := order.Fields();
      if state == "approved" {
        if order.items.None? {
          return Err(NullPointer);
        }
        var d := DeductForItems(order.items.value, order.userId);
        if d.Err? {
          return Err(d.error);
        }
        order.payerId := Some(payerId);
        order.paymentDate := Some(now);
        order.paymentStatus := PaymentStatus.COMPLETED;
        order.status := OrderStatus.CONFIRMED;
      } else {
        order.paymentStatus := PaymentStatus.FAILED;
        order.paymentError := Some("Payment was not approved: " + state);
      }
      assert order.Fields() == PaymentEdit(before, payerId, state, now);
      order.Save(before, now);
      r := Ok(order);
    }

    /** `handlePaymentFailure`: the payment of the order is marked FAILED with
        the message; apart from the update instant and the recomputed totals
        nothing else changes, and an order that already held both values is
        not written at all. */
    method HandlePaymentFailure(paymentId: string, errorMessage: Option<string>, now: int)
      returns (r: Result<Order, Failure>)
      modifies orders.Values
      ensures old(PaymentKeys(paymentId)) == {} ==>
        r == Err(ResourceNotFound("Order not found for payment: " + paymentId))
      ensures |old(PaymentKeys(paymentId))| > 1 ==> r == Err(Runtime(ShippingRecords.NOT_UNIQUE))
      ensures |old(PaymentKeys(paymentId))| == 1 ==>
        forall k :: k in old(PaymentKeys(paymentId)) ==>
          r == Ok(orders[k])
          && orders[k].Fields() == Flushed(old(orders[k].Fields()),
                                           old(orders[k].Fields()).(paymentStatus := PaymentStatus.FAILED,
                                                                    paymentError := errorMessage),
                                           now)
      ensures r.Ok? ==> forall o :: o in orders.Values && o != r.value ==> unchanged(o)
      ensures r.Err? ==> forall o :: o in orders.Values ==> unchanged(o)
    {
      var found := FindByPaymentId(paymentId);
      if found.Err? {
        return Err(found.error);
      }
      var order := orders[found.value];
      var before := order.Fields();
      order.paymentStatus := PaymentStatus.FAILED;
      order.paymentError := errorMessage;
      order.Save(before, now);
      r := Ok(order);
    }

    /** `handlePaymentCancellation`: a payment failure with the message
        "Payment was cancelled by user". */
    method HandlePaymentCancellation(paymentId: string, now: int) returns (r: Result<Order, Failure>)
      modifies orders.Values
      ensures old(PaymentKeys(paymentId)) == {} ==>
        r == Err(ResourceNotFound("Order not found for payment: " + paymentId))
      ensures |old(PaymentKeys(paymentId))| > 1 ==> r == Err(Runtime(ShippingRecords.NOT_UNIQUE))
      ensures |old(PaymentKeys(paymentId))| == 1 ==>
        forall k :: k in old(PaymentKeys(paymentId)) ==>
          r == Ok(orders[k])
          && orders[k].Fields() == Flushed(old(orders[k].Fields()),
                                           old(orders[k].Fields()).(paymentStatus := PaymentStatus.FAILED,
                                                                    paymentError := Some("Payment was cancelled by user")),
                                           now)
      ensures r.Ok? ==> forall o :: o in orders.Values && o != r.value ==> unchanged(o)
      ensures r.Err? ==> forall o :: o in orders.Values ==> unchanged(o)
    {
      r := HandlePaymentFailure(paymentId, Some("Payment was cancelled by user"), now);
    }
  }
}
