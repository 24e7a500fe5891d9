/** `OrderDeliveryService`: turns a payment-completed event into an
    order-ready-for-delivery event and publishes it. The serializer and the
    SNS client are parameters as in the dispatcher. */
module OrderDelivery {
  import opened Wrappers
  import opened Failures
  import opened LambdaModels

  const PREPARE_FAILED := "Failed to prepare order for delivery"

  /** The parcel with its gaps filled: a null dimension or weight is 0.0, a
      null distance unit "cm" and a null mass unit "kg". */
  function ParcelDefaults(p: ParcelSpec): (r: ParcelSpec)
    ensures r.length.Some? && r.width.Some? && r.height.Some? && r.weight.Some?
    ensures r.distanceUnit.Some? && r.massUnit.Some?
    ensures p.length.Some? ==> r.length == p.length
    ensures p.width.Some? ==> r.width == p.width
    ensures p.height.Some? ==> r.height == p.height
    ensures p.weight.Some? ==> r.weight == p.weight
    ensures p.distanceUnit.Some? ==> r.distanceUnit == p.distanceUnit
    ensures p.massUnit.Some? ==> r.massUnit == p.massUnit
    ensures p.length.None? ==> r.length == Some(0.0)
    ensures p.width.None? ==> r.width == Some(0.0)
    ensures p.height.None? ==> r.height == Some(0.0)
    ensures p.weight.None? ==> r.weight == Some(0.0)
    ensures p.distanceUnit.None? ==> r.distanceUnit == Some("cm")
    ensures p.massUnit.None? ==> r.massUnit == Some("kg")
  {
    ParcelSpec(Some(p.length.GetOr(0.0)), Some(p.width.GetOr(0.0)), Some(p.height.GetOr(0.0)),
               Some(p.distanceUnit.GetOr("cm")), Some(p.weight.GetOr(0.0)), Some(p.massUnit.GetOr("kg")))
  }

  /** Filling the gaps twice is filling them once. */
  lemma ParcelDefaultsIdempotent(p: ParcelSpec)
    ensures ParcelDefaults(ParcelDefaults(p)) == ParcelDefaults(p)
  {
  }

  /** The event handed on for delivery: identity, recipient, total and
      currency are copied, the phone number is not, and the parcel gets its
      defaults. */
  function ReadyForDelivery(e: PaymentCompletedEvent): (r: ReadyForDeliveryEvent)
    ensures r.orderId == e.orderId && r.orderNumber == e.orderNumber
    ensures r.totalAmount == e.totalAmount && r.currency == e.currency
    ensures r.shipTo == e.shipTo.(phoneNumber := None)
    ensures r.parcel == ParcelDefaults(e.parcel)
  {
    ReadyForDeliveryEvent(e.orderId, e.orderNumber, e.shipTo.(phoneNumber := None),
                          e.totalAmount, e.currency, ParcelDefaults(e.parcel))
  }

  /** `prepareOrderForDelivery`: exactly one message, the serialized delivery
      event, goes to the configured topic. A null event fails with a null
      pointer (the error handler reads its order number again); a failed
      serialization or publish ends as "Failed to prepare order for
      delivery". */
  function PrepareOrderForDelivery(topic: string, event: Option<PaymentCompletedEvent>,
                                   serialize: ReadyForDeliveryEvent -> Option<string>,
                                   delivered: Publication -> bool): (r: Result<Publication, Failure>)
    ensures event.None? ==> r == Err(NullPointer)
    ensures event.Some? && r.Err? ==> r.error == Runtime(PREPARE_FAILED)
    ensures r.Ok? ==>
      event.Some? && r.value.topicArn == topic && delivered(r.value)
      && serialize(ReadyForDelivery(event.value)) == Some(r.value.message)
    ensures event.Some? ==>
      var m := serialize(ReadyForDelivery(event.value));
      (m.Some? && delivered(Publication(topic, m.value)) ==> r.Ok?)
  {
    if event.None? then Err(NullPointer)
    else
      match serialize(ReadyForDelivery(event.value))
      case None => Err(Runtime(PREPARE_FAILED))
      case Some(message) =>
        if delivered(Publication(topic, message)) then Ok(Publication(topic, message))
        else Err(Runtime(PREPARE_FAILED))
  }
}
