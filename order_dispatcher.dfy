/** `OrderDispatcherService`: takes an order through PayPal and announces the
    outcome on SNS. PayPal, the JSON serializer and the SNS client are
    parameters: `payPal` is the captured payment (`None` when creating or
    capturing it throws), a serializer gives `None` when it throws, and
    `delivered` says whether a publish call succeeds. The published log holds
    the messages that reached their topic, in order. */
module OrderDispatch {
  import opened Wrappers
  import opened Failures
  import opened LambdaModels

  const PROCESS_FAILED := "Failed to process order"
  const PAYMENT_COMPLETED := "PAYMENT_COMPLETED"
  const PAYMENT_FAILED := "PAYMENT_FAILED"
  const PAYMENT_SUSPICIOUS := "PAYMENT_SUSPICIOUS"

  /** The PayPal state of an approved payment. */
  const APPROVED := "approved"

  /** Every item is taken to be a 10 × 10 × 5 cm box of 1 kg. */
  const ITEM_VOLUME := 500.0
  const ITEM_WEIGHT := 1.0

  /** The three topics the service is configured with. */
  datatype Topics = Topics(paymentCompleted: string, paymentSuspicious: string, orderStatusUpdated: string)

  /** The captured PayPal payment, as far as the service reads it. */
  datatype Capture = Capture(paymentId: Option<string>, state: Option<string>, createTime: Option<string>)

  /** What `processOrder` leaves behind: the publications that reached SNS,
      and how the call ended. */
  datatype Dispatch = Dispatch(published: seq<Publication>, result: Result<(), Failure>)

  /** `isSuspiciousOrder`: no order is ever suspicious. */
  predicate IsSuspicious(o: Order)
  {
    false
  }

  /** The status update message, `{"order":<order JSON>,"status":"<status>"}`. */
  function StatusMessage(orderJson: string, status: string): (m: string)
    ensures |m| == |orderJson| + |status| + 22
    ensures m[9..9 + |orderJson|] == orderJson
  {
    "{\"order\":" + orderJson + ",\"status\":\"" + status + "\"}"
  }

  /** Two status messages about the same order differ when their statuses
      do. */
  lemma StatusMessageInjective(orderJson: string, s1: string, s2: string)
    requires StatusMessage(orderJson, s1) == StatusMessage(orderJson, s2)
    ensures s1 == s2
  {
    var m := StatusMessage(orderJson, s1);
    var k := |orderJson| + 20;
    assert m[k..k + |s1|] == s1;
    assert StatusMessage(orderJson, s2)[k..k + |s2|] == s2;
  }

  /** Every item has a quantity (a null one cannot be unboxed). */
  predicate AllQuantities(items: seq<OrderItem>)
  {
    forall i :: 0 <= i < |items| ==> items[i].quantity.Some?
  }

  /** The total quantity of the items. */
  function QuantitySum(items: seq<OrderItem>): int
    requires AllQuantities(items)
  {
    if items == [] then 0 else QuantitySum(items[..|items| - 1]) + items[|items| - 1].quantity.value
  }

  /** `calculateParcelDimensions`: a cube whose side is the cube root
      (`cbrt`, a parameter) of 500 cm³ per unit, weighing 1 kg per unit; no
      items count as none; a null quantity is a null pointer. */
  function ParcelOf(items: Option<seq<OrderItem>>, cbrt: real -> real): (r: Result<ParcelSpec, Failure>)
    ensures r.Err? <==> items.Some? && !AllQuantities(items.value)
    ensures r.Err? ==> r.error == NullPointer
    ensures r.Ok? ==> r.value.distanceUnit == Some("cm") && r.value.massUnit == Some("kg")
    ensures r.Ok? && items.None? ==> r.value.weight == Some(0.0) && r.value.length == Some(cbrt(0.0))
    ensures r.Ok? && items.Some? ==>
      r.value.weight == Some(ITEM_WEIGHT * QuantitySum(items.value) as real)
      && r.value.length == Some(cbrt(ITEM_VOLUME * QuantitySum(items.value) as real))
    ensures r.Ok? ==> r.value.width == r.value.length && r.value.height == r.value.length
  {
    if items.Some? && !AllQuantities(items.value) then Err(NullPointer)
    else
      var units := if items.Some? then QuantitySum(items.value) else 0;
      var side := cbrt(ITEM_VOLUME * units as real);
      Ok(ParcelSpec(Some(side), Some(side), Some(side), Some("cm"), Some(ITEM_WEIGHT * units as real), Some("kg")))
  }

  /** The loop of `calculateParcelDimensions`, accumulating volume and weight
      item by item. */
  method CalculateParcelDimensions(items: Option<seq<OrderItem>>, cbrt: real -> real)
    returns (r: Result<ParcelSpec, Failure>)
    ensures r == ParcelOf(items, cbrt)
  {
    var totalVolume := 0.0;
    var totalWeight := 0.0;
    if items.Some? {
      var list := items.value;
      var i := 0;
      while i < |list|
        invariant 0 <= i <= |list|
        invariant AllQuantities(list[..i])
        invariant totalWeight == ITEM_WEIGHT * QuantitySum(list[..i]) as real
        invariant totalVolume == ITEM_VOLUME * QuantitySum(list[..i]) as real
      {
        if list[i].quantity.None? {
          assert !AllQuantities(list);
          return Err(NullPointer);
        }
        assert list[..i + 1][..i] == list[..i];
        totalVolume := totalVolume + ITEM_VOLUME * list[i].quantity.value as real;
        totalWeight := totalWeight + ITEM_WEIGHT * list[i].quantity.value as real;
        i := i + 1;
      }
      assert list[..i] == list;
    }
    var side := cbrt(totalVolume);
    r := Ok(ParcelSpec(Some(side), Some(side), Some(side), Some("cm"), Some(totalWeight), Some("kg")));
  }

  /** The payment-completed event for an approved capture: the customer
      email is the order's user id, the method PayPal and the currency USD;
      the street doubles as the customer name, and a missing address is
      replaced by fixed placeholders. */
  function PaymentEvent(o: Order, c: Capture, parcel: ParcelSpec): (e: PaymentCompletedEvent)
    ensures e.orderId == o.id && e.orderNumber == o.orderNumber && e.totalAmount == o.total
    ensures e.paymentId == c.paymentId && e.paymentStatus == c.state && e.paymentDate == c.createTime
    ensures e.paymentMethod == Some("PAYPAL") && e.currency == Some("USD") && e.parcel == parcel
    ensures e.shipTo.customerEmail == o.userId && e.shipTo.phoneNumber.None?
    ensures o.shippingAddress.Some? ==>
      var a := o.shippingAddress.value;
      e.shipTo == ShipTo(o.userId, a.street, a.street, a.city, a.state, a.zipCode, a.country, None)
    ensures o.shippingAddress.None? ==>
      e.shipTo == ShipTo(o.userId, Some("Unknown"), Some("No address provided"), Some("Unknown"),
                         Some("Unknown"), Some("00000"), Some("Unknown"), None)
  {
    var shipTo :=
      if o.shippingAddress.Some? then
        var a := o.shippingAddress.value;
        ShipTo(o.userId, a.street, a.street, a.city, a.state, a.zipCode, a.country, None)
      else
        ShipTo(o.userId, Some("Unknown"), Some("No address provided"), Some("Unknown"),
               Some("Unknown"), Some("00000"), Some("Unknown"), None);
    PaymentCompletedEvent(o.id, o.orderNumber, c.paymentId, c.state, Some("PAYPAL"), c.createTime,
                          shipTo, o.total, Some("USD"), parcel)
  }

  /** Publishes `first`, then the status update: a failed first publish
      fails the call, a failed status update is only logged. */
  function Announce(topics: Topics, first: Publication, orderJson: string, status: string,
                    delivered: Publication -> bool): (d: Dispatch)
    ensures !delivered(first) ==> d == Dispatch([], Err(Runtime(PROCESS_FAILED)))
    ensures delivered(first) ==> d.result == Ok(()) && 1 <= |d.published| <= 2 && d.published[0] == first
    ensures delivered(first) && |d.published| == 2 ==>
      d.published[1] == Publication(topics.orderStatusUpdated, StatusMessage(orderJson, status))
  {
    if !delivered(first) then Dispatch([], Err(Runtime(PROCESS_FAILED)))
    else
      var update := Publication(topics.orderStatusUpdated, StatusMessage(orderJson, status));
      Dispatch([first] + (if delivered(update) then [update] else []), Ok(()))
  }

  /** `processOrder`. A null order makes the error handler itself throw a
      null pointer; every other failure before or during publishing ends as
      "Failed to process order". */
  function ProcessOrder(topics: Topics, order: Option<Order>, serializeOrder: Order -> Option<string>,
                        payPal: Option<Capture>, serializePayment: PaymentCompletedEvent -> Option<string>,
                        cbrt: real -> real, delivered: Publication -> bool): (d: Dispatch)
    ensures order.None? ==> d == Dispatch([], Err(NullPointer))
    ensures order.Some? && payPal.Some? && payPal.value.state.None? ==> d.result.Err? && d.published == []
    ensures d.result.Err? ==> d.published == []
    ensures d.result.Ok? ==> 1 <= |d.published| <= 2
  {
    if order.None? then Dispatch([], Err(NullPointer))
    else
      var o := order.value;
      if o.total.None? || o.orderNumber.None? then Dispatch([], Err(Runtime(PROCESS_FAILED)))
      else if serializeOrder(o).None? then Dispatch([], Err(Runtime(PROCESS_FAILED)))
      else
        var orderJson := serializeOrder(o).value;
        if IsSuspicious(o) then
          Announce(topics, Publication(topics.paymentSuspicious, orderJson), orderJson, PAYMENT_SUSPICIOUS, delivered)
        else if payPal.None? then Dispatch([], Err(Runtime(PROCESS_FAILED)))
        // `isOrderApproved` calls `equals` on the state: a null one is a null pointer
        else if payPal.value.state.None? then Dispatch([], Err(Runtime(PROCESS_FAILED)))
        else if payPal.value.state.value == APPROVED then
          match ParcelOf(o.items, cbrt)
          case Err(_) => Dispatch([], Err(Runtime(PROCESS_FAILED)))
          case Ok(parcel) =>
            var event := PaymentEvent(o, payPal.value, parcel);
            if serializePayment(event).None? then Dispatch([], Err(Runtime(PROCESS_FAILED)))
            else
              Announce(topics, Publication(topics.paymentCompleted, serializePayment(event).value),
                       orderJson, PAYMENT_COMPLETED, delivered)
        else
          Announce(topics, Publication(topics.paymentSuspicious, orderJson), orderJson, PAYMENT_FAILED, delivered)
  }

  /** An order without a total or a number publishes nothing and never
      reaches PayPal: the outcome is the same whatever PayPal would say. */
  lemma InvalidOrderPublishesNothing(topics: Topics, o: Order, serializeOrder: Order -> Option<string>,
                                     payPal: Option<Capture>, payPal': Option<Capture>,
                                     serializePayment: PaymentCompletedEvent -> Option<string>,
                                     cbrt: real -> real, delivered: Publication -> bool)
    requires o.total.None? || o.orderNumber.None?
    ensures ProcessOrder(topics, Some(o), serializeOrder, payPal, serializePayment, cbrt, delivered)
         == Dispatch([], Err(Runtime(PROCESS_FAILED)))
    ensures ProcessOrder(topics, Some(o), serializeOrder, payPal, serializePayment, cbrt, delivered)
         == ProcessOrder(topics, Some(o), serializeOrder, payPal', serializePayment, cbrt, delivered)
  {
  }

  /** A payment whose state is `approved`, with every step succeeding, publishes exactly two
      messages: the payment-completed event, then the PAYMENT_COMPLETED
      status update. */
  lemma ApprovedPublishesTwoInOrder(topics: Topics, o: Order, serializeOrder: Order -> Option<string>,
                                    c: Capture, serializePayment: PaymentCompletedEvent -> Option<string>,
                                    cbrt: real -> real, delivered: Publication -> bool)
    requires o.total.Some? && o.orderNumber.Some? && serializeOrder(o).Some? && c.state == Some(APPROVED)
    requires ParcelOf(o.items, cbrt).Ok?
    requires serializePayment(PaymentEvent(o, c, ParcelOf(o.items, cbrt).value)).Some?
    requires forall p :: delivered(p)
    ensures var d := ProcessOrder(topics, Some(o), serializeOrder, Some(c), serializePayment, cbrt, delivered);
      d.result == Ok(())
      && d.published == [
        Publication(topics.paymentCompleted, serializePayment(PaymentEvent(o, c, ParcelOf(o.items, cbrt).value)).value),
        Publication(topics.orderStatusUpdated, StatusMessage(serializeOrder(o).value, PAYMENT_COMPLETED))]
  {
  }

  /** A payment in any other state puts the order itself on the suspicious topic, then
      publishes the PAYMENT_FAILED status update. */
  lemma DeclinedPublishesOrderThenFailure(topics: Topics, o: Order, serializeOrder: Order -> Option<string>,
                                          c: Capture, serializePayment: PaymentCompletedEvent -> Option<string>,
                                          cbrt: real -> real, delivered: Publication -> bool)
    requires o.total.Some? && o.orderNumber.Some? && serializeOrder(o).Some?
    requires c.state.Some? && c.state.value != APPROVED
    requires forall p :: delivered(p)
    ensures var d := ProcessOrder(topics, Some(o), serializeOrder, Some(c), serializePayment, cbrt, delivered);
      d.result == Ok(())
      && d.published == [
        Publication(topics.paymentSuspicious, serializeOrder(o).value),
        Publication(topics.orderStatusUpdated, StatusMessage(serializeOrder(o).value, PAYMENT_FAILED))]
  {
  }

  /** A failed status update never fails the call: once the first message
      is out, the result is success. */
  lemma StatusUpdateFailureSwallowed(topics: Topics, order: Option<Order>, serializeOrder: Order -> Option<string>,
                                     payPal: Option<Capture>, serializePayment: PaymentCompletedEvent -> Option<string>,
                                     cbrt: real -> real, delivered: Publication -> bool)
    requires ProcessOrder(topics, order, serializeOrder, payPal, serializePayment, cbrt, delivered).published != []
    ensures ProcessOrder(topics, order, serializeOrder, payPal, serializePayment, cbrt, delivered).result == Ok(())
  {
  }

  /** Since no order is suspicious, the status update (the second
      publication) never says PAYMENT_SUSPICIOUS. */
  lemma NeverSuspicious(topics: Topics, o: Order, serializeOrder: Order -> Option<string>,
                        payPal: Option<Capture>, serializePayment: PaymentCompletedEvent -> Option<string>,
                        cbrt: real -> real, delivered: Publication -> bool)
    requires serializeOrder(o).Some?
    requires |ProcessOrder(topics, Some(o), serializeOrder, payPal, serializePayment, cbrt, delivered).published| == 2
    ensures ProcessOrder(topics, Some(o), serializeOrder, payPal, serializePayment, cbrt, delivered).published[1]
         != Publication(topics.orderStatusUpdated, StatusMessage(serializeOrder(o).value, PAYMENT_SUSPICIOUS))
  {
    var d := ProcessOrder(topics, Some(o), serializeOrder, payPal, serializePayment, cbrt, delivered);
    var j := serializeOrder(o).value;
    var s := if payPal.value.state == Some(APPROVED) then PAYMENT_COMPLETED else PAYMENT_FAILED;
    assert d.published[1] == Publication(topics.orderStatusUpdated, StatusMessage(j, s));
    if StatusMessage(j, s) == StatusMessage(j, PAYMENT_SUSPICIOUS) {
      StatusMessageInjective(j, s, PAYMENT_SUSPICIOUS);
    }
  }
}
