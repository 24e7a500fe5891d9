/** The Lambda `ShippoService`: creates a Shippo shipment for an order that is
    ready for delivery, retrying temporary failures with exponential back-off,
    and announces SHIPPING_INITIATED. The Shippo HTTP call is a parameter:
    `shippo(shipment, k)` is the outcome of the `k`-th call (counting from 0)
    for that shipment. The sleeps between calls are recorded, not slept. */
module ShippoDelivery {
  import opened Wrappers
  import opened Failures
  import opened JavaLang
  import opened JavaStrings
  import opened LambdaModels
  import opened AddressFormatting

  const MAX_RETRIES := 3
  const INITIAL_RETRY_DELAY_MS := 1000
  const DELIVERY_FAILED := "Failed to process delivery"
  const SHIPPING_INITIATED := "SHIPPING_INITIATED"
  const SHIPMENT_FAILED := "Failed to create shipment: "

  /** `ShippoParcelDto`. */
  datatype ShippoParcel = ShippoParcel(
    length: real, width: real, height: real, distanceUnit: string, weight: real, massUnit: string)

  /** `ShippoShipmentDto`: sender, recipient and the parcels. */
  datatype Shipment = Shipment(addressFrom: ShippoAddress, addressTo: Option<ShippoAddress>, parcels: seq<ShippoParcel>)

  /** The fields of `ShippoResponseDto` the service reads. */
  datatype ShippoResponse = ShippoResponse(status: Option<string>, message: Option<string>, trackingNumber: Option<string>)

  /** The outcome of one `createShipment` call: a parsed response, an HTTP
      error status, or another I/O failure with its (possibly null) message. */
  datatype Attempt = Created(response: ShippoResponse) | HttpError(code: int) | TransportError(message: Option<string>)

  /** `createParcelDtoFromEvent`: null dimensions and weight become 0.0, the
      units default to "cm" and "kg". */
  function CreateParcelDtoFromEvent(e: ReadyForDeliveryEvent): (p: ShippoParcel)
    ensures Some(p.length) == if e.parcel.length.Some? then e.parcel.length else Some(0.0)
    ensures Some(p.width) == if e.parcel.width.Some? then e.parcel.width else Some(0.0)
    ensures Some(p.height) == if e.parcel.height.Some? then e.parcel.height else Some(0.0)
    ensures Some(p.weight) == if e.parcel.weight.Some? then e.parcel.weight else Some(0.0)
    ensures Some(p.distanceUnit) == if e.parcel.distanceUnit.Some? then e.parcel.distanceUnit else Some("cm")
    ensures Some(p.massUnit) == if e.parcel.massUnit.Some? then e.parcel.massUnit else Some("kg")
  {
    var q := e.parcel;
    ShippoParcel(q.length.GetOr(0.0), q.width.GetOr(0.0), q.height.GetOr(0.0),
                 q.distanceUnit.GetOr("cm"), q.weight.GetOr(0.0), q.massUnit.GetOr("kg"))
  }

  /** The shipment built for an event: the configured sender, the event's
      recipient and its single parcel. */
  function ShipmentFor(fromAddress: ShippoAddress, e: ReadyForDeliveryEvent): (s: Shipment)
    ensures s.addressFrom == fromAddress && s.addressTo == ConvertToShippoAddress(Some(e))
    ensures s.parcels == [CreateParcelDtoFromEvent(e)]
  {
    Shipment(fromAddress, ConvertToShippoAddress(Some(e)), [CreateParcelDtoFromEvent(e)])
  }

  /** The message of the I/O exception a failed call throws. */
  function FailureMessage(a: Attempt): Option<string>
    requires !a.Created?
  {
    if a.HttpError? then Some(SHIPMENT_FAILED + IntToString(a.code)) else a.message
  }

  /** The retry test as the code writes it: the failure message contains
      "429" or "5" (a null message is a null pointer). */
  function RetriesAsWritten(a: Attempt): (r: Result<bool, Failure>)
    requires !a.Created?
    ensures r.Err? <==> FailureMessage(a).None?
    ensures r.Ok? ==> r.value == (Contains(FailureMessage(a).value, "429") || Contains(FailureMessage(a).value, "5"))
  {
    match FailureMessage(a)
    case None => Err(NullPointer)
    case Some(m) => Ok(Contains(m, "429") || Contains(m, "5"))
  }

  /** As written, a 405 Method Not Allowed is retried as though it were a
      server error, because its message contains a '5'. */
  lemma ClientErrorRetriedAsWritten()
    ensures RetriesAsWritten(HttpError(405)) == Ok(true)
    ensures !IsTemporary(HttpError(405))
  {
    assert IntToString(405) == "405";
    var m := SHIPMENT_FAILED + "405";
    assert m[|m| - 1..] == "5";
    ContainsIffOccurs(m, "5");
    assert OccursAt(m, "5", |m| - 1);
  }

  /** The retry test the code means ("429 or 5xx"): a rate limit or a server
      error status. */
  predicate IsTemporary(a: Attempt)
  {
    a.HttpError? && (a.code == 429 || 500 <= a.code <= 599)
  }

  /** The back-off waits starting from `delay`, doubling each time. */
  function Delays(delay: int, n: nat): (ds: seq<int>)
    ensures |ds| == n
    decreases n
  {
    if n == 0 then [] else [delay] + Delays(2 * delay, n - 1)
  }

  /** The calls Shippo answers for one shipment. */
  function CallsFor(shippo: (Shipment, nat) -> Attempt, shipment: Shipment): nat -> Attempt
  {
    (k: nat) => shippo(shipment, k)
  }

  /** What the retry loop ends with: the response or the last failure, the
      number of calls made and the waits between them. */
  datatype Retried = Retried(result: Result<ShippoResponse, Attempt>, calls: nat, waits: seq<int>)

  /** `createShipmentWithRetry` from the `retryCount`-th call on: a response
      ends the loop; a failure is rethrown once MAX_RETRIES retries are spent
      or when it is not temporary; otherwise the loop waits and doubles the
      delay. */
  function RetryFrom(call: nat -> Attempt, retryCount: nat, delayMs: int): Retried
    requires retryCount <= MAX_RETRIES
    decreases MAX_RETRIES - retryCount
  {
    var a := call(retryCount);
    if a.Created? then Retried(Ok(a.response), retryCount + 1, [])
    else if retryCount >= MAX_RETRIES || !IsTemporary(a) then Retried(Err(a), retryCount + 1, [])
    else
      var rest := RetryFrom(call, retryCount + 1, 2 * delayMs);
      Retried(rest.result, rest.calls, [delayMs] + rest.waits)
  }

  /** The shape of every run of the loop from call `k` on: between k + 1
      and MAX_RETRIES + 1 calls in total, one doubling wait before each call
      after the first, every call but the last a temporary failure, and the
      outcome that of the last call. */
  lemma {:induction false} RetryFromShape(call: nat -> Attempt, k: nat, delay: int)
    requires k <= MAX_RETRIES
    ensures var r := RetryFrom(call, k, delay);
      k + 1 <= r.calls <= MAX_RETRIES + 1
      && r.waits == Delays(delay, r.calls - 1 - k)
      && (forall j :: k <= j < r.calls - 1 ==> IsTemporary(call(j)))
      && (r.result.Ok? <==> call(r.calls - 1).Created?)
      && (r.result.Ok? ==> r.result.value == call(r.calls - 1).response)
      && (r.result.Err? ==> r.result.error == call(r.calls - 1))
    decreases MAX_RETRIES - k
  {
    var a := call(k);
    if !a.Created? && k < MAX_RETRIES && IsTemporary(a) {
      RetryFromShape(call, k + 1, 2 * delay);
    }
  }

  /** From the first call: at most four calls, waits of 1000, 2000 and 4000
      ms in that order, retries only after temporary failures, and a
      non-temporary failure ends the loop at once. */
  lemma RetryBounds(call: nat -> Attempt)
    ensures var r := RetryFrom(call, 0, INITIAL_RETRY_DELAY_MS);
      1 <= r.calls <= 4
      && r.waits == [1000, 2000, 4000][..r.calls - 1]
      && (forall j :: 0 <= j < r.calls - 1 ==> IsTemporary(call(j)))
      && (!call(0).Created? && !IsTemporary(call(0)) ==> r.calls == 1 && r.result == Err(call(0)))
  {
    RetryFromShape(call, 0, INITIAL_RETRY_DELAY_MS);
    var r := RetryFrom(call, 0, INITIAL_RETRY_DELAY_MS);
    assert Delays(1000, 3) == [1000, 2000, 4000];
    assert Delays(1000, 2) == [1000, 2000];
    assert Delays(1000, 1) == [1000];
  }

  /** The outcome of `processDelivery` for an event, as the status update it
      publishes: a null event is a null pointer (the error handler reads its
      order number again); a failed shipment, a non-null response status
      other than "SUCCESS", or a failed serialization or publish ends as
      "Failed to process delivery". */
  function DeliveryOutcome(statusTopic: string, fromAddress: ShippoAddress, event: Option<ReadyForDeliveryEvent>,
                           shippo: (Shipment, nat) -> Attempt, serialize: StatusUpdateEvent -> Option<string>,
                           delivered: Publication -> bool): (r: Result<Publication, Failure>)
    ensures event.None? ==> r == Err(NullPointer)
    ensures event.Some? && r.Err? ==> r.error == Runtime(DELIVERY_FAILED)
  {
    if event.None? then Err(NullPointer)
    else
      var e := event.value;
      var shipment := ShipmentFor(fromAddress, e);
      var retried := RetryFrom(CallsFor(shippo, shipment), 0, INITIAL_RETRY_DELAY_MS);
      if retried.result.Err? then Err(Runtime(DELIVERY_FAILED))
      else
        var response := retried.result.value;
        if response.status.Some? && response.status.value != "SUCCESS" then Err(Runtime(DELIVERY_FAILED))
        else
          match serialize(StatusUpdate(e.orderId, Some(SHIPPING_INITIATED), response.trackingNumber))
          case None => Err(Runtime(DELIVERY_FAILED))
          case Some(message) =>
            if delivered(Publication(statusTopic, message)) then Ok(Publication(statusTopic, message))
            else Err(Runtime(DELIVERY_FAILED))
  }

  /** A successful delivery publishes exactly the SHIPPING_INITIATED update
      for the order, carrying the tracking number of a response whose status
      is null or "SUCCESS". */
  lemma DeliverySuccessPublishesTracking(statusTopic: string, fromAddress: ShippoAddress, e: ReadyForDeliveryEvent,
                                         shippo: (Shipment, nat) -> Attempt, serialize: StatusUpdateEvent -> Option<string>,
                                         delivered: Publication -> bool)
    requires DeliveryOutcome(statusTopic, fromAddress, Some(e), shippo, serialize, delivered).Ok?
    ensures var shipment := ShipmentFor(fromAddress, e);
      var retried := RetryFrom(CallsFor(shippo, shipment), 0, INITIAL_RETRY_DELAY_MS);
      retried.result.Ok?
      && (retried.result.value.status.None? || retried.result.value.status == Some("SUCCESS"))
      && DeliveryOutcome(statusTopic, fromAddress, Some(e), shippo, serialize, delivered)
         == Ok(Publication(statusTopic,
                 serialize(StatusUpdate(e.orderId, Some(SHIPPING_INITIATED), retried.result.value.trackingNumber)).value))
  {
  }

  /** A response with a status other than "SUCCESS" publishes nothing, and a
      null status is accepted like "SUCCESS". */
  lemma ResponseStatusDecides(statusTopic: string, fromAddress: ShippoAddress, e: ReadyForDeliveryEvent,
                              shippo: (Shipment, nat) -> Attempt, serialize: StatusUpdateEvent -> Option<string>,
                              delivered: Publication -> bool, response: ShippoResponse)
    requires RetryFrom(CallsFor(shippo, ShipmentFor(fromAddress, e)), 0, INITIAL_RETRY_DELAY_MS).result == Ok(response)
    ensures response.status.Some? && response.status.value != "SUCCESS" ==>
      DeliveryOutcome(statusTopic, fromAddress, Some(e), shippo, serialize, delivered) == Err(Runtime(DELIVERY_FAILED))
    ensures response.status.None? && (forall p :: delivered(p))
            && serialize(StatusUpdate(e.orderId, Some(SHIPPING_INITIATED), response.trackingNumber)).Some? ==>
      DeliveryOutcome(statusTopic, fromAddress, Some(e), shippo, serialize, delivered).Ok?
  {
  }

  class ShippoService {
    const statusTopic: string
    const fromAddress: ShippoAddress
    /** The status updates delivered to SNS, oldest first. */
    var published: seq<Publication>

    constructor (statusTopic: string, fromAddress: ShippoAddress)
      ensures this.statusTopic == statusTopic && this.fromAddress == fromAddress && published == []
    {
      this.statusTopic := statusTopic;
      this.fromAddress := fromAddress;
      published := [];
    }

    /** `createShipmentWithRetry`: the `while (true)` loop over the retry
        count and the doubling delay. */
    method CreateShipmentWithRetry(call: nat -> Attempt) returns (r: Result<ShippoResponse, Attempt>, calls: nat, waits: seq<int>)
      ensures Retried(r, calls, waits) == RetryFrom(call, 0, INITIAL_RETRY_DELAY_MS)
    {
      var retryCount := 0;
      var delayMs := INITIAL_RETRY_DELAY_MS;
      waits := [];
      while true
        invariant 0 <= retryCount <= MAX_RETRIES
        invariant var rest := RetryFrom(call, retryCount, delayMs);
          RetryFrom(call, 0, INITIAL_RETRY_DELAY_MS) == Retried(rest.result, rest.calls, waits + rest.waits)
        decreases MAX_RETRIES - retryCount
      {
        var a := call(retryCount);
        if a.Created? {
          return Ok(a.response), retryCount + 1, waits;
        }
        if retryCount >= MAX_RETRIES || !IsTemporary(a) {
          return Err(a), retryCount + 1, waits;
        }
        ghost var rest := RetryFrom(call, retryCount + 1, delayMs * 2);
        assert RetryFrom(call, retryCount, delayMs).waits == [delayMs] + rest.waits;
        assert waits + ([delayMs] + rest.waits) == waits + [delayMs] + rest.waits;
        waits := waits + [delayMs];
        delayMs := delayMs * 2;
        retryCount := retryCount + 1;
      }
    }

    /** `processDelivery`: builds the shipment, creates it with retries,
        checks the response status and publishes the status update. */
    method ProcessDelivery(event: Option<ReadyForDeliveryEvent>, shippo: (Shipment, nat) -> Attempt,
                           serialize: StatusUpdateEvent -> Option<string>, delivered: Publication -> bool)
      returns (r: Result<(), Failure>)
      modifies this`published
      ensures var o := DeliveryOutcome(statusTopic, fromAddress, event, shippo, serialize, delivered);
        (o.Ok? ==> r == Ok(()) && published == old(published) + [o.value])
        && (o.Err? ==> r == Err(o.error) && published == old(published))
    {
      if event.None? {
        return Err(NullPointer);
      }
      var e := event.value;
      var shipment := Shipment(fromAddress, ConvertToShippoAddress(event), [CreateParcelDtoFromEvent(e)]);
      var response, calls, waits := CreateShipmentWithRetry(CallsFor(shippo, shipment));
      if response.Err? {
        return Err(Runtime(DELIVERY_FAILED));
      }
      var status := response.value.status;
      if status.Some? && status.value != "SUCCESS" {
        return Err(Runtime(DELIVERY_FAILED));
      }
      var message := serialize(StatusUpdate(e.orderId, Some(SHIPPING_INITIATED), response.value.trackingNumber));
      if message.None? || !delivered(Publication(statusTopic, message.value)) {
        return Err(Runtime(DELIVERY_FAILED));
      }
      published := published + [Publication(statusTopic, message.value)];
      r := Ok(());
    }
  }
}
