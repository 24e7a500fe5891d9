/** `NotificationService`: validates an incoming notification event and hands
    it to the e-mail service. The e-mail service is `SimpleEmailService` as
    modelled in `EmailTexts`, with SES as the parameter `ses`. Any failure,
    whether a validation error, a null event or a failed send, is rethrown
    wrapped in one message per operation. */
module Notifications {
  import opened Wrappers
  import opened Failures
  import opened JavaStrings
  import opened LambdaModels
  import opened EmailTexts

  const PAYMENT_NOTIFICATION_FAILED := "Failed to process payment completed notification"
  const READY_NOTIFICATION_FAILED := "Failed to process order ready for delivery notification"
  const STATUS_NOTIFICATION_FAILED := "Failed to process order status updated notification"
  const SHIPPING_INITIATED_FAILED := "Failed to process shipping initiated notification"
  const SHIPPING_ERROR_FAILED := "Failed to process shipping error notification"

  const ORDER_NUMBER_MISSING := "Order number cannot be null or empty"
  const EMAIL_MISSING := "Customer email cannot be null or empty"
  const NAME_MISSING := "Customer name cannot be null or empty"
  const ADDRESS_MISSING := "Shipping address cannot be null"
  const STATUS_MISSING := "Status cannot be null or empty"
  const INVALID_EMAIL := "Invalid customer email format: "

  // ---------------------------------------------------------------------
  // The e-mail pattern ^[A-Za-z0-9+_.-]+@[A-Za-z0-9.-]+\.[A-Za-z]{2,}$
  // ---------------------------------------------------------------------

  predicate Letter(c: char)
  {
    'A' <= c <= 'Z' || 'a' <= c <= 'z'
  }

  predicate Digit(c: char)
  {
    '0' <= c <= '9'
  }

  /** The class `[A-Za-z0-9+_.-]` of the part before the '@'. */
  predicate LocalChar(c: char)
  {
    Letter(c) || Digit(c) || c == '+' || c == '_' || c == '.' || c == '-'
  }

  /** The class `[A-Za-z0-9.-]` of the domain before the last dot. */
  predicate DomainChar(c: char)
  {
    Letter(c) || Digit(c) || c == '.' || c == '-'
  }

  /** `s` matches the pattern with its '@' at `a` and the dot before the
      top-level domain at `d`: a non-empty local part, a non-empty domain, and
      at least two letters after the dot. */
  predicate MatchesAt(s: string, a: int, d: int)
  {
    0 < a && a + 1 < d && d + 3 <= |s| && s[a] == '@' && s[d] == '.'
    && (forall i :: 0 <= i < a ==> LocalChar(s[i]))
    && (forall i :: a < i < d ==> DomainChar(s[i]))
    && (forall i :: d < i < |s| ==> Letter(s[i]))
  }

  /** The whole string matches the pattern (`String.matches` anchors both
      ends): some placement of the '@' and of the dot fits. */
  ghost predicate EmailShape(s: string)
  {
    exists a, d :: MatchesAt(s, a, d)
  }

  /** The first position of `c` in `s`, or -1. */
  function IndexOf(s: string, c: char): (r: int)
    ensures -1 <= r < |s|
    ensures r >= 0 ==> s[r] == c
    ensures forall i :: 0 <= i < |s| && (r < 0 || i < r) ==> s[i] != c
  {
    if s == [] then -1
    else if s[0] == c then 0
    else
      var k := IndexOf(s[1..], c);
      if k < 0 then -1 else k + 1
  }

  /** The last position of `c` in `s`, or -1. */
  function LastIndexOf(s: string, c: char): (r: int)
    ensures -1 <= r < |s|
    ensures r >= 0 ==> s[r] == c
    ensures forall i :: r < i < |s| ==> s[i] != c
  {
    if s == [] then -1
    else if s[|s| - 1] == c then |s| - 1
    else LastIndexOf(s[..|s| - 1], c)
  }

  /** The pattern decided at the only placement that can fit: the first '@'
      and the last dot. */
  predicate MatchesFirstAtLastDot(s: string)
  {
    MatchesAt(s, IndexOf(s, '@'), LastIndexOf(s, '.'))
  }

  /** Any placement that fits is the first '@' and the last dot, because
      neither class before the '@' contains '@' and letters contain no dot;
      so trying that one placement decides the pattern. */
  lemma MatchesFirstAtLastDotIffShape(s: string)
    ensures MatchesFirstAtLastDot(s) <==> EmailShape(s)
  {
    if EmailShape(s) {
      var a, d :| MatchesAt(s, a, d);
      assert !LocalChar('@');
      assert IndexOf(s, '@') == a;
      assert !Letter('.');
      assert LastIndexOf(s, '.') == d;
    }
  }

  /** A match holds an '@', which `trim` does not remove. */
  lemma ShapeIsNotBlank(s: string)
    ensures EmailShape(s) ==> !Blank(s)
  {
    if EmailShape(s) {
      var a, d :| MatchesAt(s, a, d);
      assert !IsTrimmable(s[a]);
    }
  }

  /** `isValidEmail`: null and blank are rejected first; otherwise the
      pattern decides. The blank test never changes the answer, as a match
      holds an '@'. */
  function IsValidEmail(email: Option<string>): (r: bool)
    ensures r <==> email.Some? && EmailShape(email.value)
  {
    if email.None? then false
    else if Blank(email.value) then
      ShapeIsNotBlank(email.value);
      false
    else
      MatchesFirstAtLastDotIffShape(email.value);
      MatchesFirstAtLastDot(email.value)
  }

  /** The address used throughout the tests is accepted. */
  lemma AcceptsCustomerAddress()
    ensures EmailShape("customer@example.com")
  {
    var s := "customer@example.com";
    assert s[8] == '@' && s[16] == '.';
    assert forall i :: 0 <= i < 8 ==> LocalChar(s[i]);
    assert forall i :: 8 < i < 16 ==> DomainChar(s[i]);
    assert forall i :: 16 < i < 20 ==> Letter(s[i]);
    assert MatchesAt(s, 8, 16);
  }

  /** A string without an '@' is rejected. */
  lemma RejectsWithoutAt()
    ensures !EmailShape("invalid-email")
  {
    var s := "invalid-email";
    if EmailShape(s) {
      var a, d :| MatchesAt(s, a, d);
    }
  }

  /** A one-letter top-level domain is rejected. */
  lemma RejectsOneLetterDomain()
    ensures !EmailShape("customer@example.c")
  {
    var s := "customer@example.c";
    if EmailShape(s) {
      var a, d :| MatchesAt(s, a, d);
    }
  }

  // ---------------------------------------------------------------------
  // Validators: the first failing check's message, or None
  // ---------------------------------------------------------------------

  /** A field that is neither null nor blank. */
  predicate Present(v: Option<string>)
  {
    v.Some? && !Blank(v.value)
  }

  /** The message of the invalid-format check; `+` prints a null as "null". */
  function InvalidEmailMessage(email: Option<string>): string
  {
    INVALID_EMAIL + (if email.Some? then email.value else "null")
  }

  /** `validatePaymentCompletedEvent`: number, email and name present, in
      that order, then the e-mail pattern. */
  function ValidatePaymentCompleted(e: PaymentCompletedEvent): (r: Option<string>)
    ensures r.None? <==>
      Present(e.orderNumber) && Present(e.shipTo.customerEmail) && Present(e.shipTo.customerName)
      && EmailShape(e.shipTo.customerEmail.value)
    ensures !Present(e.orderNumber) ==> r == Some(ORDER_NUMBER_MISSING)
    ensures Present(e.orderNumber) && !Present(e.shipTo.customerEmail) ==> r == Some(EMAIL_MISSING)
    ensures Present(e.orderNumber) && Present(e.shipTo.customerEmail) && !Present(e.shipTo.customerName)
      ==> r == Some(NAME_MISSING)
    ensures r.Some? && Present(e.shipTo.customerName) && Present(e.shipTo.customerEmail) && Present(e.orderNumber)
      ==> r == Some(InvalidEmailMessage(e.shipTo.customerEmail))
  {
    if !Present(e.orderNumber) then Some(ORDER_NUMBER_MISSING)
    else if !Present(e.shipTo.customerEmail) then Some(EMAIL_MISSING)
    else if !Present(e.shipTo.customerName) then Some(NAME_MISSING)
    else if !IsValidEmail(e.shipTo.customerEmail) then Some(InvalidEmailMessage(e.shipTo.customerEmail))
    else None
  }

  /** `validateOrderReadyForDeliveryEvent`: as for a payment, and the
      street line must be non-null (it may be blank); the street is checked
      before the e-mail pattern. */
  function ValidateReadyForDelivery(e: ReadyForDeliveryEvent): (r: Option<string>)
    ensures r.None? <==>
      Present(e.orderNumber) && Present(e.shipTo.customerEmail) && Present(e.shipTo.customerName)
      && e.shipTo.shippingAddress.Some? && EmailShape(e.shipTo.customerEmail.value)
    ensures !Present(e.orderNumber) ==> r == Some(ORDER_NUMBER_MISSING)
    ensures Present(e.orderNumber) && !Present(e.shipTo.customerEmail) ==> r == Some(EMAIL_MISSING)
    ensures Present(e.orderNumber) && Present(e.shipTo.customerEmail) && !Present(e.shipTo.customerName)
      ==> r == Some(NAME_MISSING)
    ensures (Present(e.orderNumber) && Present(e.shipTo.customerEmail) && Present(e.shipTo.customerName)
             && e.shipTo.shippingAddress.None?) ==> r == Some(ADDRESS_MISSING)
    ensures (r.Some? && Present(e.shipTo.customerName) && Present(e.shipTo.customerEmail) && Present(e.orderNumber)
             && e.shipTo.shippingAddress.Some?) ==> r == Some(InvalidEmailMessage(e.shipTo.customerEmail))
  {
    if !Present(e.orderNumber) then Some(ORDER_NUMBER_MISSING)
    else if !Present(e.shipTo.customerEmail) then Some(EMAIL_MISSING)
    else if !Present(e.shipTo.customerName) then Some(NAME_MISSING)
    else if e.shipTo.shippingAddress.None? then Some(ADDRESS_MISSING)
    else if !IsValidEmail(e.shipTo.customerEmail) then Some(InvalidEmailMessage(e.shipTo.customerEmail))
    else None
  }

  /** `validateOrderStatusUpdateEvent`: number, email and status present,
      then the e-mail pattern; the customer name is not required. */
  function ValidateStatusUpdate(e: StatusUpdateEvent): (r: Option<string>)
    ensures r.None? <==>
      Present(e.orderNumber) && Present(e.customerEmail) && Present(e.status) && EmailShape(e.customerEmail.value)
    ensures !Present(e.orderNumber) ==> r == Some(ORDER_NUMBER_MISSING)
    ensures Present(e.orderNumber) && !Present(e.customerEmail) ==> r == Some(EMAIL_MISSING)
    ensures Present(e.orderNumber) && Present(e.customerEmail) && !Present(e.status) ==> r == Some(STATUS_MISSING)
    ensures r.Some? && Present(e.orderNumber) && Present(e.customerEmail) && Present(e.status)
      ==> r == Some(InvalidEmailMessage(e.customerEmail))
  {
    if !Present(e.orderNumber) then Some(ORDER_NUMBER_MISSING)
    else if !Present(e.customerEmail) then Some(EMAIL_MISSING)
    else if !Present(e.status) then Some(STATUS_MISSING)
    else if !IsValidEmail(e.customerEmail) then Some(InvalidEmailMessage(e.customerEmail))
    else None
  }

  /** The customer name plays no part in validating a status update. */
  lemma StatusUpdateIgnoresName(e: StatusUpdateEvent, name: Option<string>)
    ensures ValidateStatusUpdate(e.(customerName := name)) == ValidateStatusUpdate(e)
  {
  }

  // ---------------------------------------------------------------------
  // The five process operations
  // ---------------------------------------------------------------------

  /** `convertToDeliveryEvent`: identity, number, e-mail and name are copied;
      the address is five fixed placeholders; everything else stays null. */
  function ConvertToDeliveryEvent(e: StatusUpdateEvent): (r: ReadyForDeliveryEvent)
    ensures r.orderId == e.orderId && r.orderNumber == e.orderNumber
    ensures r.shipTo.customerEmail == e.customerEmail && r.shipTo.customerName == e.customerName
    ensures r.shipTo.shippingAddress == Some("Shipping address") && r.shipTo.shippingCity == Some("City")
    ensures r.shipTo.shippingState == Some("State") && r.shipTo.shippingZip == Some("ZIP")
    ensures r.shipTo.shippingCountry == Some("Country") && r.shipTo.phoneNumber.None?
    ensures r.totalAmount.None? && r.currency.None? && r.parcel == NO_PARCEL
  {
    ReadyForDeliveryEvent(
      e.orderId, e.orderNumber,
      ShipTo(e.customerEmail, e.customerName, Some("Shipping address"), Some("City"), Some("State"),
             Some("ZIP"), Some("Country"), None),
      None, None, NO_PARCEL)
  }

  /** A status update that validates converts into a delivery event that
      validates too, so the shipping-initiated e-mail is never refused for
      its address. */
  lemma ConvertedEventValidates(e: StatusUpdateEvent)
    requires ValidateStatusUpdate(e).None? && Present(e.customerName)
    ensures ValidateReadyForDelivery(ConvertToDeliveryEvent(e)).None?
  {
  }

  /** The caught-and-rethrown form of a send: the attempts are kept and any
      failure becomes `failure`. */
  function Wrapped(s: Sending, failure: string): (w: Sending)
    ensures w.attempted == s.attempted
    ensures w.result.Ok? <==> s.result.Ok?
    ensures w.result.Err? ==> w.result.error == Runtime(failure)
  {
    Sending(s.attempted, if s.result.Ok? then Ok(()) else Err(Runtime(failure)))
  }

  /** `processPaymentCompleted`: nothing is sent for a null or invalid
      event; a valid one gets exactly the payment e-mail. */
  function ProcessPaymentCompleted(event: Option<PaymentCompletedEvent>, ses: Email -> bool): (s: Sending)
    ensures s.result.Err? ==> s.result.error == Runtime(PAYMENT_NOTIFICATION_FAILED)
    ensures event.None? || ValidatePaymentCompleted(event.value).Some? ==> s.attempted == [] && s.result.Err?
    ensures event.Some? && ValidatePaymentCompleted(event.value).None? ==>
      s.attempted == SendPaymentCompletedEmail(event.value, ses).attempted
      && (s.result.Ok? <==> SendPaymentCompletedEmail(event.value, ses).result.Ok?)
  {
    if event.None? || ValidatePaymentCompleted(event.value).Some? then
      Sending([], Err(Runtime(PAYMENT_NOTIFICATION_FAILED)))
    else
      Wrapped(SendPaymentCompletedEmail(event.value, ses), PAYMENT_NOTIFICATION_FAILED)
  }

  /** `processOrderReadyForDelivery`: the same shape with the delivery
      validator and e-mail. */
  function ProcessOrderReadyForDelivery(event: Option<ReadyForDeliveryEvent>, ses: Email -> bool): (s: Sending)
    ensures s.result.Err? ==> s.result.error == Runtime(READY_NOTIFICATION_FAILED)
    ensures event.None? || ValidateReadyForDelivery(event.value).Some? ==> s.attempted == [] && s.result.Err?
    ensures event.Some? && ValidateReadyForDelivery(event.value).None? ==>
      s.attempted == SendOrderReadyForDeliveryEmail(event.value, ses).attempted
      && (s.result.Ok? <==> SendOrderReadyForDeliveryEmail(event.value, ses).result.Ok?)
  {
    if event.None? || ValidateReadyForDelivery(event.value).Some? then
      Sending([], Err(Runtime(READY_NOTIFICATION_FAILED)))
    else
      Wrapped(SendOrderReadyForDeliveryEmail(event.value, ses), READY_NOTIFICATION_FAILED)
  }

  /** The validate-then-send shape shared by the three operations on a
      status update: `send` runs only on a valid event. */
  function ProcessStatusEvent(event: Option<StatusUpdateEvent>, send: StatusUpdateEvent -> Sending,
                              failure: string): (s: Sending)
    ensures s.result.Err? ==> s.result.error == Runtime(failure)
    ensures event.None? || ValidateStatusUpdate(event.value).Some? ==> s.attempted == [] && s.result.Err?
    ensures event.Some? && ValidateStatusUpdate(event.value).None? ==>
      s.attempted == send(event.value).attempted && (s.result.Ok? <==> send(event.value).result.Ok?)
  {
    if event.None? || ValidateStatusUpdate(event.value).Some? then Sending([], Err(Runtime(failure)))
    else Wrapped(send(event.value), failure)
  }

  /** The status e-mail for an event. */
  function StatusEmail(ses: Email -> bool): StatusUpdateEvent -> Sending
  {
    e => SendOrderStatusUpdatedEmail(e, ses)
  }

  /** The delivery e-mail for the placeholder event built from a status
      update. */
  function InitiatedEmail(ses: Email -> bool): StatusUpdateEvent -> Sending
  {
    e => SendOrderReadyForDeliveryEmail(ConvertToDeliveryEvent(e), ses)
  }

  /** `processOrderStatusUpdated`. */
  function ProcessOrderStatusUpdated(event: Option<StatusUpdateEvent>, ses: Email -> bool): (s: Sending)
    ensures |s.attempted| <= 1
    ensures s.result.Err? ==> s.result.error == Runtime(STATUS_NOTIFICATION_FAILED)
    ensures s.attempted != [] <==> event.Some? && ValidateStatusUpdate(event.value).None?
    ensures s.attempted != [] ==> s.attempted[0].subject == StatusSubject(event.value.orderNumber)
  {
    ProcessStatusEvent(event, StatusEmail(ses), STATUS_NOTIFICATION_FAILED)
  }

  /** `processShippingInitiated`: a valid status update is announced with the
      ready-for-shipment e-mail, addressed to the event's customer and
      printing the placeholder address. A null event fails on its first read
      and is wrapped like any other failure. */
  function ProcessShippingInitiated(event: Option<StatusUpdateEvent>, ses: Email -> bool): (s: Sending)
    ensures |s.attempted| <= 1
    ensures s.result.Err? ==> s.result.error == Runtime(SHIPPING_INITIATED_FAILED)
    ensures s.attempted != [] <==> event.Some? && ValidateStatusUpdate(event.value).None?
    ensures s.attempted != [] ==>
      s.attempted[0].to == event.value.customerEmail
      && s.attempted[0].subject == ReadySubject(event.value.orderNumber)
  {
    ProcessStatusEvent(event, InitiatedEmail(ses), SHIPPING_INITIATED_FAILED)
  }

  /** `processShippingError`: a valid status update is sent as the status
      e-mail. */
  function ProcessShippingError(event: Option<StatusUpdateEvent>, ses: Email -> bool): (s: Sending)
    ensures |s.attempted| <= 1
    ensures s.result.Err? ==> s.result.error == Runtime(SHIPPING_ERROR_FAILED)
    ensures s.attempted != [] <==> event.Some? && ValidateStatusUpdate(event.value).None?
    ensures s.attempted != [] ==> s.attempted[0].subject == StatusSubject(event.value.orderNumber)
  {
    ProcessStatusEvent(event, StatusEmail(ses), SHIPPING_ERROR_FAILED)
  }

  /** A shipping error sends the very e-mail a status update would; only
      the wrapping message differs. */
  lemma ShippingErrorIsStatusEmail(event: Option<StatusUpdateEvent>, ses: Email -> bool)
    ensures ProcessShippingError(event, ses).attempted == ProcessOrderStatusUpdated(event, ses).attempted
    ensures ProcessShippingError(event, ses).result.Ok? <==> ProcessOrderStatusUpdated(event, ses).result.Ok?
  {
  }

  /** When SES accepts everything, each operation succeeds exactly on the
      events its validator accepts. */
  lemma SucceedsIffValid(p: Option<PaymentCompletedEvent>, r: Option<ReadyForDeliveryEvent>,
                         u: Option<StatusUpdateEvent>)
    ensures ProcessPaymentCompleted(p, _ => true).result.Ok? <==> p.Some? && ValidatePaymentCompleted(p.value).None?
    ensures ProcessOrderReadyForDelivery(r, _ => true).result.Ok?
      <==> r.Some? && ValidateReadyForDelivery(r.value).None?
    ensures ProcessOrderStatusUpdated(u, _ => true).result.Ok? <==> u.Some? && ValidateStatusUpdate(u.value).None?
    ensures ProcessShippingInitiated(u, _ => true).result.Ok? <==> u.Some? && ValidateStatusUpdate(u.value).None?
  {
  }
}
