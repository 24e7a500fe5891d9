/** `NotificationHandler`: the Lambda entry point for e-mail notifications.
    Each SNS record is routed by its topic ARN, decoded and handed to the
    notification service; the records are handled in order and the first
    failure ends the request. The JSON decoders are parameters: a decoder
    gives `None` when the text cannot be read, and `Some(None)` for the JSON
    literal null. */
module NotificationRouting {
  import opened Wrappers
  import opened Failures
  import opened JavaStrings
  import opened LambdaModels
  import opened EmailTexts
  import opened Notifications

  const RECORD_FAILED := "Failed to process notification record"
  const EVENT_FAILED := "Failed to process SNS notification event"

  /** Where a record goes. */
  datatype Route = ToPayment | ToDelivery | ToStatus | Skip

  /** The SNS fields the handler reads. */
  datatype SnsRecord = SnsRecord(topicArn: Option<string>, message: Option<string>)

  /** The object mapper, one reader per event class. */
  datatype Decoders = Decoders(
    payment: string -> Option<Option<PaymentCompletedEvent>>,
    ready: string -> Option<Option<ReadyForDeliveryEvent>>,
    status: string -> Option<Option<StatusUpdateEvent>>)

  /** Routing by substring of the topic ARN, checked in this order: payment
      completed, then ready for delivery, then status updated. */
  function RouteOf(topic: string): (r: Route)
    ensures r == ToPayment <==> Contains(topic, "PaymentCompleted")
    ensures r == ToDelivery <==> !Contains(topic, "PaymentCompleted") && Contains(topic, "order-ready-for-delivery")
    ensures r == ToStatus <==>
      !Contains(topic, "PaymentCompleted") && !Contains(topic, "order-ready-for-delivery")
      && Contains(topic, "OrderStatusUpdated")
  {
    if Contains(topic, "PaymentCompleted") then ToPayment
    else if Contains(topic, "order-ready-for-delivery") then ToDelivery
    else if Contains(topic, "OrderStatusUpdated") then ToStatus
    else Skip
  }

  /** A decoded event handed to its service operation; a decoding failure
      sends nothing and fails. */
  function Deliver<T>(decoded: Option<Option<T>>, process: Option<T> -> Sending): (s: Sending)
    ensures decoded.None? ==> s == Sending([], Err(Runtime(RECORD_FAILED)))
    ensures decoded.Some? ==>
      s.attempted == process(decoded.value).attempted && (s.result.Ok? <==> process(decoded.value).result.Ok?)
    ensures s.result.Err? ==> s.result.error == Runtime(RECORD_FAILED)
  {
    if decoded.None? then Sending([], Err(Runtime(RECORD_FAILED)))
    else Wrapped(process(decoded.value), RECORD_FAILED)
  }

  function PaymentOp(ses: Email -> bool): Option<PaymentCompletedEvent> -> Sending
  {
    e => ProcessPaymentCompleted(e, ses)
  }

  function ReadyOp(ses: Email -> bool): Option<ReadyForDeliveryEvent> -> Sending
  {
    e => ProcessOrderReadyForDelivery(e, ses)
  }

  function StatusOp(ses: Email -> bool): Option<StatusUpdateEvent> -> Sending
  {
    e => ProcessOrderStatusUpdated(e, ses)
  }

  /** `processRecord`: a null topic or message fails (the former on
      `contains`, the latter in the mapper) unless the topic is skipped; an
      unknown topic is skipped without a call; otherwise exactly the routed
      operation runs. At most one e-mail is sent, and any failure is wrapped
      as "Failed to process notification record". */
  function ProcessRecord(r: SnsRecord, dec: Decoders, ses: Email -> bool): (s: Sending)
    ensures |s.attempted| <= 1
    ensures s.result.Err? ==> s.result.error == Runtime(RECORD_FAILED)
    ensures r.topicArn.None? ==> s == Sending([], Err(Runtime(RECORD_FAILED)))
    ensures r.topicArn.Some? && RouteOf(r.topicArn.value) == Skip ==> s == Sending([], Ok(()))
    ensures r.topicArn.Some? && RouteOf(r.topicArn.value) == ToPayment && r.message.Some?
              && dec.payment(r.message.value).Some? ==>
      var e := dec.payment(r.message.value).value;
      s.attempted == ProcessPaymentCompleted(e, ses).attempted
      && (s.result.Ok? <==> ProcessPaymentCompleted(e, ses).result.Ok?)
    ensures r.topicArn.Some? && RouteOf(r.topicArn.value) == ToStatus && r.message.Some?
              && dec.status(r.message.value).Some? ==>
      var e := dec.status(r.message.value).value;
      s.attempted == ProcessOrderStatusUpdated(e, ses).attempted
      && (s.result.Ok? <==> ProcessOrderStatusUpdated(e, ses).result.Ok?)
    ensures r.topicArn.Some? && RouteOf(r.topicArn.value) == ToDelivery && r.message.Some?
              && dec.ready(r.message.value).Some? ==>
      var e := dec.ready(r.message.value).value;
      s.attempted == ProcessOrderReadyForDelivery(e, ses).attempted
      && (s.result.Ok? <==> ProcessOrderReadyForDelivery(e, ses).result.Ok?)
    ensures r.topicArn.Some? && RouteOf(r.topicArn.value) != Skip && r.message.None? ==>
      s == Sending([], Err(Runtime(RECORD_FAILED)))
    ensures r.topicArn.Some? && r.message.Some?
            && ((RouteOf(r.topicArn.value) == ToPayment && dec.payment(r.message.value).None?)
                || (RouteOf(r.topicArn.value) == ToDelivery && dec.ready(r.message.value).None?)
                || (RouteOf(r.topicArn.value) == ToStatus && dec.status(r.message.value).None?)) ==>
      s == Sending([], Err(Runtime(RECORD_FAILED)))
  {
    if r.topicArn.None? then Sending([], Err(Runtime(RECORD_FAILED)))
    else
      match RouteOf(r.topicArn.value)
      case Skip => Sending([], Ok(()))
      case ToPayment =>
        if r.message.None? then Sending([], Err(Runtime(RECORD_FAILED)))
        else Deliver(dec.payment(r.message.value), PaymentOp(ses))
      case ToDelivery =>
        if r.message.None? then Sending([], Err(Runtime(RECORD_FAILED)))
        else Deliver(dec.ready(r.message.value), ReadyOp(ses))
      case ToStatus =>
        if r.message.None? then Sending([], Err(Runtime(RECORD_FAILED)))
        else Deliver(dec.status(r.message.value), StatusOp(ses))
  }

  /** The records handled in order, stopping at the first failure, which is
      rethrown as "Failed to process SNS notification event". */
  function HandleAll(rs: seq<SnsRecord>, dec: Decoders, ses: Email -> bool): (s: Sending)
    ensures s.result.Err? ==> s.result.error == Runtime(EVENT_FAILED)
    ensures |s.attempted| <= |rs|
    decreases |rs|
  {
    if rs == [] then Sending([], Ok(()))
    else
      var first := ProcessRecord(rs[0], dec, ses);
      if first.result.Err? then Sending(first.attempted, Err(Runtime(EVENT_FAILED)))
      else
        var rest := HandleAll(rs[1..], dec, ses);
        Sending(first.attempted + rest.attempted, rest.result)
  }

  /** A request: a null event fails before any record is read. */
  function HandleEvent(event: Option<seq<SnsRecord>>, dec: Decoders, ses: Email -> bool): Sending
  {
    if event.None? then Sending([], Err(Runtime(EVENT_FAILED))) else HandleAll(event.value, dec, ses)
  }

  /** `handleRequest`: the loop over the records. */
  method HandleRequest(event: Option<seq<SnsRecord>>, dec: Decoders, ses: Email -> bool) returns (s: Sending)
    ensures s == HandleEvent(event, dec, ses)
    ensures event.None? ==> s == Sending([], Err(Runtime(EVENT_FAILED)))
    ensures event == Some([]) ==> s == Sending([], Ok(()))
  {
    if event.None? {
      return Sending([], Err(Runtime(EVENT_FAILED)));
    }
    var rs := event.value;
    var sent: seq<Email> := [];
    var i := 0;
    while i < |rs|
      invariant 0 <= i <= |rs|
      invariant HandleAll(rs, dec, ses)
        == Sending(sent + HandleAll(rs[i..], dec, ses).attempted, HandleAll(rs[i..], dec, ses).result)
    {
      assert rs[i..][1..] == rs[i + 1..];
      var r := ProcessRecord(rs[i], dec, ses);
      if r.result.Err? {
        return Sending(sent + r.attempted, Err(Runtime(EVENT_FAILED)));
      }
      sent := sent + r.attempted;
      i := i + 1;
    }
    assert rs[i..] == [];
    s := Sending(sent, Ok(()));
  }

  /** The request succeeds exactly when every record does. */
  lemma {:induction false} HandleAllOkIffEachOk(rs: seq<SnsRecord>, dec: Decoders, ses: Email -> bool)
    ensures HandleAll(rs, dec, ses).result.Ok? <==>
      forall k :: 0 <= k < |rs| ==> ProcessRecord(rs[k], dec, ses).result.Ok?
    decreases |rs|
  {
    if rs != [] {
      HandleAllOkIffEachOk(rs[1..], dec, ses);
      assert forall k :: 1 <= k < |rs| ==> rs[k] == rs[1..][k - 1];
    }
  }

  /** After the first failing record nothing more happens: the records
      behind it are never processed, so the request is the same as if it
      ended at that record. */
  lemma {:induction false} HandleAllStopsAtFirstFailure(rs: seq<SnsRecord>, k: nat, dec: Decoders,
                                                          ses: Email -> bool)
    requires k < |rs| && ProcessRecord(rs[k], dec, ses).result.Err?
    requires forall j :: 0 <= j < k ==> ProcessRecord(rs[j], dec, ses).result.Ok?
    ensures HandleAll(rs, dec, ses) == HandleAll(rs[..k + 1], dec, ses)
    ensures HandleAll(rs, dec, ses).result == Err(Runtime(EVENT_FAILED))
    decreases k
  {
    if k > 0 {
      assert forall j :: 0 <= j < k - 1 ==> rs[1..][j] == rs[j + 1];
      HandleAllStopsAtFirstFailure(rs[1..], k - 1, dec, ses);
      assert rs[..k + 1][1..] == rs[1..][..k];
    }
  }

  /** Records from topics the handler does not know send nothing and do not
      fail the request. */
  lemma {:induction false} UnknownTopicsSendNothing(rs: seq<SnsRecord>, dec: Decoders, ses: Email -> bool)
    requires forall k :: 0 <= k < |rs| ==> rs[k].topicArn.Some? && RouteOf(rs[k].topicArn.value) == Skip
    ensures HandleAll(rs, dec, ses) == Sending([], Ok(()))
    decreases |rs|
  {
    if rs != [] {
      assert forall k :: 0 <= k < |rs| - 1 ==> rs[1..][k] == rs[k + 1];
      UnknownTopicsSendNothing(rs[1..], dec, ses);
    }
  }
}
