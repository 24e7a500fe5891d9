/** The backend `OrderService`: order creation (with a shipping record and an
    order-created event), status updates that deduct stock on every move to
    CONFIRMED, and cancellation. Each operation is one transaction: a failure
    restores the stock, reservation and shipping tables. */
module BackendOrderProcessing {
  import opened Wrappers
  import opened Failures
  import opened JavaLang
  import opened JavaStrings
  import opened Orders
  import BackendOrderCalculation
  import OrderCalculation
  import ProductCatalog
  import opened ProductReservations
  import ShippingRecords
  import BackendShipping
  import LambdaEvents
  import OrderProcessing

  /** The prefix of generated order numbers. */
  const ORDER_NUMBER_PREFIX := "ORD-"

  /** `generateOrderNumber`, given the random UUID's text. */
  function OrderNumber(uuid: string): (n: string)
    requires |uuid| >= 8
    ensures |n| == 12 && StartsWith(n, ORDER_NUMBER_PREFIX) && IsUpper(n[4..])
  {
    NumberFromUuid(ORDER_NUMBER_PREFIX, uuid)
  }

  /** The stock loop of a confirmation: for each line in turn, a product with
      less stock than the line's quantity fails; otherwise its stock becomes
      the difference. Reservations are not touched. */
  function DeductStock(products: map<int, ProductCatalog.Product>, items: seq<OrderItem?>)
    : (r: Result<map<int, ProductCatalog.Product>, Failure>)
    ensures r.Ok? ==> r.value.Keys == products.Keys
    decreases |items|
  {
    if items == [] then Ok(products)
    else if items[0] == null then Err(NullPointer)
    else
      var pid := items[0].productId;
      if pid !in products then Err(ProductCatalog.ProductNotFound(pid))
      else if products[pid].stockQuantity.None? then Err(NullPointer)
      else if products[pid].stockQuantity.value < items[0].quantity then
        Err(OrderStatusError("Insufficient stock for product: " + LambdaEvents.JavaText(products[pid].name)))
      else
        DeductStock(products[pid := products[pid].(stockQuantity := Some(products[pid].stockQuantity.value - items[0].quantity))],
                    items[1..])
  }

  /** A successful deduction takes each product's stock down by exactly the
      quantities ordered of it, and touches no other field and no other key. */
  lemma {:induction false} DeductStockEffect(products: map<int, ProductCatalog.Product>, items: seq<OrderItem?>, p: int)
    requires DeductStock(products, items).Ok?
    ensures var out := DeductStock(products, items).value;
      out.Keys == products.Keys
      && (p in products ==> out[p].(stockQuantity := products[p].stockQuantity) == products[p])
      && (p in products && products[p].stockQuantity.Some? ==>
            out[p].stockQuantity == Some(products[p].stockQuantity.value - OrderProcessing.ItemsQuantity(items, p)))
    decreases |items|
  {
    if items != [] {
      var pid := items[0].productId;
      var next := products[pid := products[pid].(stockQuantity := Some(products[pid].stockQuantity.value - items[0].quantity))];
      DeductStockEffect(next, items[1..], p);
    }
  }

  /** Nothing stops a second confirmation: confirming the same lines twice
      deducts their quantities twice. */
  lemma ConfirmTwiceDeductsTwice(products: map<int, ProductCatalog.Product>, items: seq<OrderItem?>, p: int)
    requires DeductStock(products, items).Ok?
    requires DeductStock(DeductStock(products, items).value, items).Ok?
    requires p in products && products[p].stockQuantity.Some?
    ensures DeductStock(DeductStock(products, items).value, items).value[p].stockQuantity
         == Some(products[p].stockQuantity.value - 2 * OrderProcessing.ItemsQuantity(items, p))
  {
    DeductStockEffect(products, items, p);
    DeductStockEffect(DeductStock(products, items).value, items, p);
  }

  class OrderService {
    var orders: map<int, Order>
    var nextId: int
    /** The orders handed to `publishOrderCreated`, in order. */
    var published: seq<Order>
    const catalog: ProductCatalog.ProductService
    const reservationService: ProductReservationService
    const shippingService: BackendShipping.ShippingService

    constructor (catalog: ProductCatalog.ProductService, reservationService: ProductReservationService,
                 shippingService: BackendShipping.ShippingService)
      ensures orders == map[] && nextId == 1 && published == []
      ensures this.catalog == catalog && this.reservationService == reservationService
      ensures this.shippingService == shippingService
    {
      orders := map[];
      nextId := 1;
      published := [];
      this.catalog := catalog;
      this.reservationService := reservationService;
      this.shippingService := shippingService;
    }

    /** The order `createOrder` saves: the user, the number and the address
        as given, the lines of the request, PENDING with payment PENDING and
        no payment data yet, both instants the creation instant, and shipping
        cost and tax from the calculation rules on its subtotal. */
    predicate NewOrder(o: Order, userId: int, reqs: seq<OrderProcessing.ItemRequest>, address: ShippingAddress,
                       orderNumber: string, now: int)
      reads this, catalog, o
    {
      o.userId == userId && o.orderNumber == Some(orderNumber)
      && o.status == OrderStatus.PENDING && o.paymentStatus == PaymentStatus.PENDING
      && o.items.Some? && OrderProcessing.ItemsMatch(o.items.value, reqs, catalog.products)
      && o.TotalsConsistent()
      && o.shippingCost == Some(OrderCalculation.ShippingCost(o.subtotal))
      && o.tax == Some(OrderCalculation.Tax(o.subtotal))
      && o.createdAt == Some(now) && o.updatedAt == Some(now)
      && o.shippingAddress == Some(address) && o.paymentId.None? && o.payerId.None? && o.paymentMethod.None?
      && o.paymentDate.None? && o.paymentError.None? && o.trackingNumber.None?
    }

    /** `createOrder`: an empty request is refused before the user is looked
        up; the request's shipping address must not be null, since it is
        converted field by field before the lines are placed; the lines are
        validated and reserved one by one and the order is saved; then exactly
        one shipping record is created for its number and one order-created
        event is published. `uuid` is the random UUID's text. */
    method CreateOrder(users: set<int>, userId: int, items: Option<seq<OrderProcessing.ItemRequest>>,
                       address: Option<ShippingAddress>, uuid: string, now: int)
      returns (r: Result<Order, Failure>)
      requires |uuid| >= 8
      modifies this`orders, this`nextId, this`published, reservationService`reservations
      modifies shippingService.repository`records
      ensures items.None? || items == Some([]) ==>
        r == Err(OrderStatusError("Order must contain at least one item"))
      ensures items.Some? && items.value != [] && userId !in users ==>
        r == Err(ResourceNotFound("User not found with id: " + IntToString(userId)))
      ensures items.Some? && items.value != [] && userId in users && address.None? ==> r == Err(NullPointer)
      ensures items.Some? && items.value != [] && userId in users && address.Some?
              && OrderProcessing.PlaceItems(old(reservationService.reservations), catalog.products, users, userId, items.value, now).Err? ==>
        r == Err(OrderProcessing.PlaceItems(old(reservationService.reservations), catalog.products, users, userId, items.value, now).error)
      ensures r.Err? ==>
        reservationService.reservations == old(reservationService.reservations) && orders == old(orders)
        && published == old(published) && shippingService.repository.records == old(shippingService.repository.records)
      ensures items.Some? && items.value != [] && userId in users && address.Some?
              && OrderProcessing.PlaceItems(old(reservationService.reservations), catalog.products, users, userId, items.value, now).Ok? ==>
        r.Ok? && fresh(r.value) && orders == old(orders)[old(nextId) := r.value]
        && reservationService.reservations
           == OrderProcessing.PlaceItems(old(reservationService.reservations), catalog.products, users, userId, items.value, now).value
        && NewOrder(r.value, userId, items.value, address.value, OrderNumber(uuid), now)
      ensures r.Ok? ==>
        published == old(published) + [r.value]
        && shippingService.repository.records == BackendShipping.Created(old(shippingService.repository.records), OrderNumber(uuid))
    {
      if items.None? || items.value == [] {
        return Err(OrderStatusError("Order must contain at least one item"));
      }
      if userId !in users {
        return Err(ResourceNotFound("User not found with id: " + IntToString(userId)));
      }
      if address.None? {
        return Err(NullPointer);
      }
      r := PlaceOrder(users, userId, items.value, address.value, OrderNumber(uuid), now);
      if r.Ok? {
        StoreAndAnnounce(r.value, OrderNumber(uuid));
      }
    }

    /** The part of `createOrder` between the address check and the shipping
        record: a new order is filled with the lines and saved twice. */
    method PlaceOrder(users: set<int>, userId: int, reqs: seq<OrderProcessing.ItemRequest>, address: ShippingAddress,
                      orderNumber: string, now: int)
      returns (r: Result<Order, Failure>)
      modifies reservationService`reservations
      ensures OrderProcessing.PlaceItems(old(reservationService.reservations), catalog.products, users, userId, reqs, now).Err? ==>
        r == Err(OrderProcessing.PlaceItems(old(reservationService.reservations), catalog.products, users, userId, reqs, now).error)
        && reservationService.reservations == old(reservationService.reservations)
      ensures OrderProcessing.PlaceItems(old(reservationService.reservations), catalog.products, users, userId, reqs, now).Ok? ==>
        r.Ok? && fresh(r.value)
        && reservationService.reservations
           == OrderProcessing.PlaceItems(old(reservationService.reservations), catalog.products, users, userId, reqs, now).value
        && NewOrder(r.value, userId, reqs, address, orderNumber, now)
    {
      var order := new Order(userId);
      order.orderNumber := Some(orderNumber);
      order.shippingAddress := Some(address);
      var added := AddItems(order, users, userId, reqs, now);
      if added.Err? {
        return Err(added.error);
      }
      SaveNewOrder(order, now);
      r := Ok(order);
    }

    /** The steps after the second save of `createOrder`: the order is kept
        under the next id, its shipping record is created and the
        order-created event is published. */
    method StoreAndAnnounce(order: Order, orderNumber: string)
      modifies this`orders, this`nextId, this`published, shippingService.repository`records
      ensures orders == old(orders)[old(nextId) := order] && nextId == old(nextId) + 1
      ensures published == old(published) + [order]
      ensures shippingService.repository.records == BackendShipping.Created(old(shippingService.repository.records), orderNumber)
    {
      orders := orders[nextId := order];
      nextId := nextId + 1;
      shippingService.CreateShippingInfo(orderNumber);
      published := published + [order];
    }

    /** The two saves of `createOrder`: the first stamps the order and
        recomputes its totals; then shipping cost, tax and total are taken
        from the backend calculation rules on the saved order, and the second
        save recomputes the totals once more. */
    method SaveNewOrder(order: Order, now: int)
      requires order.items.Some?
      modifies order`createdAt, order`updatedAt, order`items, order`subtotal, order`shippingCost, order`tax, order`total
      ensures order.items == old(order.items) && order.TotalsConsistent()
      ensures order.shippingCost == Some(OrderCalculation.ShippingCost(order.subtotal))
      ensures order.tax == Some(OrderCalculation.Tax(order.subtotal))
      ensures order.createdAt == Some(now) && order.updatedAt == Some(now)
    {
      order.OnCreate(now);
      BackendOrderCalculation.AgreesWithSubtotalRules(order, 0.0, 0.0);
      var shippingCost := BackendOrderCalculation.ShippingCostOf(order);
      var tax := BackendOrderCalculation.TaxOf(order);
      var total := BackendOrderCalculation.TotalOf(order, shippingCost, tax);
      order.shippingCost := Some(shippingCost);
      order.tax := Some(tax);
      order.total := total;
      order.OnUpdate(now);
    }

    /** The item loop of `createOrder` on a new order: each line is
        validated, reserved and appended; a failure undoes the reservations
        made so far. */
    method AddItems(order: Order, users: set<int>, userId: int, reqs: seq<OrderProcessing.ItemRequest>, now: int)
      returns (r: Result<(), Failure>)
      requires order.items == Some([])
      modifies order`items, order`subtotal, order`shippingCost, order`tax, order`total
      modifies reservationService`reservations
      ensures OrderProcessing.PlaceItems(old(reservationService.reservations), catalog.products, users, userId, reqs, now).Err? ==>
        r == Err(OrderProcessing.PlaceItems(old(reservationService.reservations), catalog.products, users, userId, reqs, now).error)
        && reservationService.reservations == old(reservationService.reservations)
      ensures OrderProcessing.PlaceItems(old(reservationService.reservations), catalog.products, users, userId, reqs, now).Ok? ==>
        r == Ok(()) && order.items.Some? && OrderProcessing.ItemsMatch(order.items.value, reqs, catalog.products)
        && reservationService.reservations
           == OrderProcessing.PlaceItems(old(reservationService.reservations), catalog.products, users, userId, reqs, now).value
    {
      var saved := reservationService.reservations;
      var i := 0;
      while i < |reqs|
        invariant 0 <= i <= |reqs|
        invariant saved == old(reservationService.reservations)
        invariant OrderProcessing.PlaceItems(saved, catalog.products, users, userId, reqs, now)
               == OrderProcessing.PlaceItems(reservationService.reservations, catalog.products, users, userId, reqs[i..], now)
        invariant order.items.Some? && OrderProcessing.ItemsMatch(order.items.value, reqs[..i], catalog.products)
      {
        var q := reqs[i];
        assert reqs[i..][0] == q && reqs[i..][1..] == reqs[i + 1..];
        if q.quantity <= 0 {
          reservationService.reservations := saved;
          return Err(OrderStatusError("Item quantity must be positive"));
        }
        var found := catalog.Find(q.productId);
        if found.Err? {
          reservationService.reservations := saved;
          return Err(found.error);
        }
        var product := found.value;
        if product.price.None? {
          reservationService.reservations := saved;
          return Err(NullPointer);
        }
        if product.price.value <= 0.0 {
          reservationService.reservations := saved;
          return Err(OrderStatusError("Product price must be positive"));
        }
        var reserved := reservationService.Reserve(catalog, users, q.productId, userId, q.quantity, now);
        if reserved.Err? {
          reservationService.reservations := saved;
          return Err(reserved.error);
        }
        var item := new OrderItem(q.productId, q.quantity, product.price, None);
        ghost var before := order.items.value;
        order.AddItem(item);
        assert reqs[..i + 1] == reqs[..i] + [q];
        assert order.items.value == before + [item];
        i := i + 1;
      }
      assert reqs[i..] == [];
      assert reqs[..i] == reqs;
      r := Ok(());
    }

    /** The stock loop of a confirmation: each line's stock is checked and
        set through `SetStockQuantity`; a failure restores the stock. */
    method DeductForItems(items: seq<OrderItem?>) returns (r: Result<(), Failure>)
      requires catalog.Valid()
      modifies catalog`products
      ensures catalog.Valid()
      ensures DeductStock(old(catalog.products), items).Err? ==>
        r == Err(DeductStock(old(catalog.products), items).error) && catalog.products == old(catalog.products)
      ensures DeductStock(old(catalog.products), items).Ok? ==>
        r == Ok(()) && catalog.products == DeductStock(old(catalog.products), items).value
    {
      var saved := catalog.products;
      var i := 0;
      while i < |items|
        invariant 0 <= i <= |items|
        invariant catalog.Valid() && catalog.nextId == old(catalog.nextId)
        invariant saved == old(catalog.products)
        invariant DeductStock(saved, items) == DeductStock(catalog.products, items[i..])
      {
        assert items[i..][0] == items[i] && items[i..][1..] == items[i + 1..];
        var item := items[i];
        if item == null {
          catalog.products := saved;
          return Err(NullPointer);
        }
        var found := catalog.Find(item.productId);
        if found.Err? {
          catalog.products := saved;
          return Err(found.error);
        }
        var product := found.value;
        if product.stockQuantity.None? {
          catalog.products := saved;
          return Err(NullPointer);
        }
        if product.stockQuantity.value < item.quantity {
          catalog.products := saved;
          return Err(OrderStatusError("Insufficient stock for product: " + LambdaEvents.JavaText(product.name)));
        }
        var stored := catalog.SetStockQuantity(item.productId, product.stockQuantity.value - item.quantity);
        i := i + 1;
      }
      assert items[i..] == [];
      r := Ok(());
    }

    /** `updateOrderStatus`: a CANCELLED order is refused; otherwise status,
        payment status and tracking number are all replaced by the request's
        values, and a request for CONFIRMED deducts the stock whatever the
        order's current status. A null status or payment status cannot be
        saved, and the transaction then changes nothing. The row is written,
        stamped and re-totalled, only when a column changes. */
    method UpdateOrderStatus(orderId: int, dto: OrderProcessing.StatusUpdate, now: int) returns (r: Result<Order, Failure>)
      requires catalog.Valid()
      modifies if orderId in orders then {orders[orderId]} else {}
      modifies catalog`products
      ensures catalog.Valid()
      ensures orderId !in orders ==> r == Err(OrderProcessing.OrderNotFound(orderId))
      ensures orderId in orders && old(orders[orderId].status) == OrderStatus.CANCELLED ==>
        r == Err(OrderStatusError("Cannot update status of cancelled order"))
      ensures r.Err? ==> catalog.products == old(catalog.products)
      ensures r.Err? && orderId in orders ==> unchanged(orders[orderId])
      ensures orderId in orders && old(orders[orderId].status) != OrderStatus.CANCELLED ==>
        var o := orders[orderId];
        var e := if dto.status != Some(OrderStatus.CONFIRMED) then Ok(old(catalog.products))
                 else if old(o.items).None? then Err(NullPointer)
                 else DeductStock(old(catalog.products), old(o.items).value);
        (e.Err? ==> r == Err(e.error))
        && (e.Ok? && (dto.status.None? || dto.paymentStatus.None?) ==> r == Err(Runtime(OrderProcessing.NOT_NULL_VIOLATION)))
        && (e.Ok? && dto.status.Some? && dto.paymentStatus.Some? ==>
              r == Ok(o) && catalog.products == e.value
              && o.Fields() == Flushed(old(o.Fields()),
                                       old(o.Fields()).(status := dto.status.value,
                                                        paymentStatus := dto.paymentStatus.value,
                                                        trackingNumber := dto.trackingNumber),
                                       now))
    {
      if orderId !in orders {
        return Err(OrderProcessing.OrderNotFound(orderId));
      }
      var order := orders[orderId];
      var before := order.Fields();
      if order.status == OrderStatus.CANCELLED {
        return Err(OrderStatusError("Cannot update status of cancelled order"));
      }
      var saved := catalog.products;
      if dto.status == Some(OrderStatus.CONFIRMED) {
        if order.items.None? {
          return Err(NullPointer);
        }
        var d := DeductForItems(order.items.value);
        if d.Err? {
          return Err(d.error);
        }
      }
      if dto.status.None? || dto.paymentStatus.None? {
        catalog.products := saved;
        return Err(Runtime(OrderProcessing.NOT_NULL_VIOLATION));
      }
      order.status := dto.status.value;
      order.paymentStatus := dto.paymentStatus.value;
      order.trackingNumber := dto.trackingNumber;
      assert order.Fields() == before.(status := dto.status.value, paymentStatus := dto.paymentStatus.value,
                                       trackingNumber := dto.trackingNumber);
      order.Save(before, now);
      r := Ok(order);
    }

    /** `cancelOrder`: only a PENDING order can be cancelled; it becomes
        CANCELLED and then the user's reservations of every ordered product
        are released. */
    method CancelOrder(orderId: int, now: int) returns (r: Result<(), Failure>)
      modifies if orderId in orders then {orders[orderId]} else {}
      modifies reservationService`reservations
      ensures orderId !in orders ==>
        r == Err(OrderProcessing.OrderNotFound(orderId)) && reservationService.reservations == old(reservationService.reservations)
      ensures orderId in orders && old(orders[orderId].status) != OrderStatus.PENDING ==>
        r == Err(OrderStatusError("Only pending orders can be cancelled")) && unchanged(orders[orderId])
        && reservationService.reservations == old(reservationService.reservations)
      ensures orderId in orders && old(orders[orderId].status) == OrderStatus.PENDING ==>
        var o := orders[orderId];
        var rel := if old(o.items).None? then Err(NullPointer)
                   else OrderProcessing.ReleaseAll(old(reservationService.reservations), old(o.items).value, old(o.userId));
        if rel.Err? then
          r == Err(rel.error) && unchanged(o)
          && reservationService.reservations == old(reservationService.reservations)
        else
          r == Ok(()) && reservationService.reservations == rel.value
          && o.Fields() == WithTotals(old(o.Fields()).(status := OrderStatus.CANCELLED, updatedAt := Some(now)))
    {
      if orderId !in orders {
        return Err(OrderProcessing.OrderNotFound(orderId));
      }
      var order := orders[orderId];
      if order.status != OrderStatus.PENDING {
        return Err(OrderStatusError("Only pending orders can be cancelled"));
      }
      if order.items.None? {
        return Err(NullPointer);
      }
      var items := order.items.value;
      var saved := reservationService.reservations;
      var i := 0;
      while i < |items|
        invariant 0 <= i <= |items|
        invariant saved == old(reservationService.reservations)
        invariant OrderProcessing.ReleaseAll(saved, items, order.userId)
               == OrderProcessing.ReleaseAll(reservationService.reservations, items[i..], order.userId)
        invariant unchanged(order)
      {
        assert items[i..][0] == items[i] && items[i..][1..] == items[i + 1..];
        if items[i] == null {
          reservationService.reservations := saved;
          return Err(NullPointer);
        }
        reservationService.ReleaseForOrder(items[i].productId, order.userId);
        i := i + 1;
      }
      assert items[i..] == [];
      order.status := OrderStatus.CANCELLED;
      order.OnUpdate(now);
      r := Ok(());
    }
  }
}
