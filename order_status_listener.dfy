/** `OrderStatusUpdateListener`: applies an order-status message to the
    order's shipping record. */
module OrderStatusListener {
  import opened Wrappers
  import opened Failures
  import opened JavaStrings
  import opened JsonNodes
  import opened ShippingRecords

  /** The name of each shipping status, as the enum spells it. */
  function StatusName(s: ShippingStatus): string
  {
    match s
    case PENDING => "PENDING"
    case PROCESSING => "PROCESSING"
    case LABEL_CREATED => "LABEL_CREATED"
    case SHIPPED => "SHIPPED"
    case IN_TRANSIT => "IN_TRANSIT"
    case DELIVERED => "DELIVERED"
    case FAILED => "FAILED"
    case CANCELLED => "CANCELLED"
  }

  /** `mapToShippingStatus`: the upper-cased text is matched against the
      eight names; anything else is PENDING. */
  function MapToShippingStatus(status: string): ShippingStatus
  {
    var u := ToUpper(status);
    if u == "PENDING" then PENDING
    else if u == "PROCESSING" then PROCESSING
    else if u == "LABEL_CREATED" then LABEL_CREATED
    else if u == "SHIPPED" then SHIPPED
    else if u == "IN_TRANSIT" then IN_TRANSIT
    else if u == "DELIVERED" then DELIVERED
    else if u == "FAILED" then FAILED
    else if u == "CANCELLED" then CANCELLED
    else PENDING
  }

  /** Every status name is already upper case. */
  lemma StatusNameIsUpper(s: ShippingStatus)
    ensures IsUpper(StatusName(s))
  {
  }

  /** A status's own name maps back to it. */
  lemma MapStatusNameRoundTrip(s: ShippingStatus)
    ensures MapToShippingStatus(StatusName(s)) == s
  {
    StatusNameIsUpper(s);
    ToUpperOfUpper(StatusName(s));
    MapByUpper(StatusName(s), s);
  }

  /** A text whose upper-case form is a status's name maps to that status. */
  lemma MapByUpper(t: string, s: ShippingStatus)
    requires ToUpper(t) == StatusName(s)
    ensures MapToShippingStatus(t) == s
  {
    match s
    case PENDING =>
    case PROCESSING => assert "PROCESSING"[1] != "PENDING"[1];
    case LABEL_CREATED =>
    case SHIPPED => assert "SHIPPED"[0] != "PENDING"[0];
    case IN_TRANSIT => assert "IN_TRANSIT"[0] != "PROCESSING"[0];
    case DELIVERED =>
    case FAILED =>
    case CANCELLED => assert "CANCELLED"[0] != "DELIVERED"[0];
  }

  /** The mapping gives a status other than PENDING exactly when the text is
      that status's name in some mix of cases; texts that differ only in case
      map alike. */
  lemma MapToShippingStatusExactly(text: string, other: string, s: ShippingStatus)
    requires s != PENDING
    ensures MapToShippingStatus(text) == s <==> ToUpper(text) == StatusName(s)
    ensures EqualsIgnoreCase(text, other) ==> MapToShippingStatus(text) == MapToShippingStatus(other)
  {
  }

  /** What the listener read from a message: the order id, the status text
      and the tracking number if the field is present. */
  datatype StatusMessage = StatusMessage(orderId: string, status: string, trackingNumber: Option<string>)

  /** The failure every problem in the listener is rethrown as. */
  const FAILED_TO_PROCESS := Runtime("Failed to process order status update")

  /** Reading the message: an unparsable body, or one without `orderId` or
      `status`, fails. */
  function ReadMessage(parsed: Option<JsonNode>): (r: Result<StatusMessage, Failure>)
    ensures r.Ok? <==> parsed.Some? && Has(parsed.value, "orderId") && Has(parsed.value, "status")
    ensures r.Err? ==> r.error == FAILED_TO_PROCESS
    ensures r.Ok? ==> (r.value.trackingNumber.Some? <==> Has(parsed.value, "trackingNumber"))
  {
    if parsed.None? then Err(FAILED_TO_PROCESS)
    else
      var node := parsed.value;
      var orderId := Get(node, "orderId");
      var status := Get(node, "status");
      if orderId.None? || status.None? then Err(FAILED_TO_PROCESS)
      else
        var tracking := if Has(node, "trackingNumber") then Some(AsText(Get(node, "trackingNumber").value)) else None;
        Ok(StatusMessage(AsText(orderId.value), AsText(status.value), tracking))
  }

  /** The record after the message is applied: the mapped status, and the
      tracking number only when the message carries a non-empty one. */
  function Applied(info: ShippingInfo, m: StatusMessage): (r: ShippingInfo)
    ensures r.status == Some(MapToShippingStatus(m.status))
    ensures r.trackingNumber == (if m.trackingNumber.Some? && m.trackingNumber.value != "" then m.trackingNumber
                                 else info.trackingNumber)
    ensures r.(status := info.status, trackingNumber := info.trackingNumber) == info
  {
    var withStatus := info.(status := Some(MapToShippingStatus(m.status)));
    if m.trackingNumber.Some? && m.trackingNumber.value != "" then withStatus.(trackingNumber := m.trackingNumber)
    else withStatus
  }

  /** The table after a well-formed message: the order's record updated, or
      the table untouched when the order has none. */
  function AfterMessage(rs: seq<ShippingInfo>, m: StatusMessage): (r: seq<ShippingInfo>)
    ensures !HasOrder(rs, m.orderId) ==> r == rs
    ensures |r| == |rs|
    ensures forall k :: 0 <= k < |rs| && rs[k].orderId != m.orderId ==> r[k] == rs[k]
    ensures forall k :: 0 <= k < |rs| ==> r[k].orderId == rs[k].orderId
  {
    match IndexOfOrder(rs, m.orderId)
    case None => rs
    case Some(i) => rs[i := Applied(rs[i], m)]
  }

  /** With one record per order, the message reaches exactly the order's
      record, and the table keeps one record per order. */
  lemma AfterMessageUpdatesTheOrder(rs: seq<ShippingInfo>, m: StatusMessage, i: nat)
    requires OnePerOrder(rs)
    requires i < |rs| && rs[i].orderId == m.orderId
    ensures AfterMessage(rs, m) == rs[i := Applied(rs[i], m)]
    ensures OnePerOrder(AfterMessage(rs, m))
  {
    IndexOfOrderUnique(rs, m.orderId, i);
  }

  class OrderStatusUpdateListener {
    const repository: ShippingInfoRepository

    constructor (repository: ShippingInfoRepository)
      ensures this.repository == repository
    {
      this.repository := repository;
    }

    /** `handleOrderStatusUpdate`, with `parse` standing for the object
        mapper: a message that cannot be read fails and changes nothing; a
        readable one is applied (a missing record is no error). */
    method HandleOrderStatusUpdate(parse: Parser, messageBody: string) returns (r: Result<(), Failure>)
      modifies repository`records
      ensures var m := ReadMessage(parse(messageBody));
        (m.Err? ==> r == Err(FAILED_TO_PROCESS) && repository.records == old(repository.records))
        && (m.Ok? ==> r == Ok(()) && repository.records == AfterMessage(old(repository.records), m.value))
    {
      var m := ReadMessage(parse(messageBody));
      if m.Err? {
        return Err(FAILED_TO_PROCESS);
      }
      var found := IndexOfOrder(repository.records, m.value.orderId);
      if found.Some? {
        var info := Applied(repository.records[found.value], m.value);
        repository.records := repository.records[found.value := info];
      }
      r := Ok(());
    }
  }
}
