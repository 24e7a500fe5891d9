/** The messages the delivery Lambdas read from and write to SNS. Every field
    of the Java beans may be null (`None`); `Double` and `BigDecimal` amounts
    are `real`. The JSON of the events is flat; the recipient and parcel
    fields are grouped here only to keep the constructors short. */
module LambdaModels {
  import opened Wrappers

  /** `Order.Address`. */
  datatype Address = Address(
    street: Option<string>, city: Option<string>, state: Option<string>,
    country: Option<string>, zipCode: Option<string>)

  /** `Order.OrderItem`. */
  datatype OrderItem = OrderItem(
    productId: Option<string>, name: Option<string>, price: Option<real>, quantity: Option<int>)

  /** `Order`, as the dispatcher Lambda receives it. */
  datatype Order = Order(
    id: Option<string>,
    orderNumber: Option<string>,
    total: Option<real>,
    items: Option<seq<OrderItem>>,
    userId: Option<string>,
    status: Option<string>,
    paymentStatus: Option<string>,
    shippingAddress: Option<Address>,
    billingAddress: Option<Address>)

  /** The recipient fields shared by the payment-completed and the
      ready-for-delivery events. */
  datatype ShipTo = ShipTo(
    customerEmail: Option<string>,
    customerName: Option<string>,
    shippingAddress: Option<string>,
    shippingCity: Option<string>,
    shippingState: Option<string>,
    shippingZip: Option<string>,
    shippingCountry: Option<string>,
    phoneNumber: Option<string>)

  /** The parcel fields shared by the same two events. */
  datatype ParcelSpec = ParcelSpec(
    length: Option<real>, width: Option<real>, height: Option<real>,
    distanceUnit: Option<string>, weight: Option<real>, massUnit: Option<string>)

  const NO_SHIP_TO := ShipTo(None, None, None, None, None, None, None, None)
  const NO_PARCEL := ParcelSpec(None, None, None, None, None, None)

  /** `PaymentCompletedEvent`. */
  datatype PaymentCompletedEvent = PaymentCompletedEvent(
    orderId: Option<string>,
    orderNumber: Option<string>,
    paymentId: Option<string>,
    paymentStatus: Option<string>,
    paymentMethod: Option<string>,
    paymentDate: Option<string>,
    shipTo: ShipTo,
    totalAmount: Option<real>,
    currency: Option<string>,
    parcel: ParcelSpec)

  /** `OrderReadyForDeliveryEvent`. */
  datatype ReadyForDeliveryEvent = ReadyForDeliveryEvent(
    orderId: Option<string>,
    orderNumber: Option<string>,
    shipTo: ShipTo,
    totalAmount: Option<real>,
    currency: Option<string>,
    parcel: ParcelSpec)

  /** `OrderStatusUpdateEvent`. */
  datatype StatusUpdateEvent = StatusUpdateEvent(
    orderId: Option<string>,
    orderNumber: Option<string>,
    customerEmail: Option<string>,
    customerName: Option<string>,
    status: Option<string>,
    previousStatus: Option<string>,
    updatedAt: Option<string>,
    trackingNumber: Option<string>,
    notes: Option<string>)

  /** The three-argument constructor: every other field stays null. */
  function StatusUpdate(orderId: Option<string>, status: Option<string>, trackingNumber: Option<string>)
    : (e: StatusUpdateEvent)
    ensures e.orderId == orderId && e.status == status && e.trackingNumber == trackingNumber
    ensures e.orderNumber.None? && e.customerEmail.None? && e.customerName.None?
    ensures e.previousStatus.None? && e.updatedAt.None? && e.notes.None?
  {
    StatusUpdateEvent(orderId, None, None, None, status, None, None, trackingNumber, None)
  }

  /** A message delivered to an SNS topic. */
  datatype Publication = Publication(topicArn: string, message: string)
}
