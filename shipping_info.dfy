/** The `ShippingInfo` table shared by the shipping services, the status
    listener and the Shippo webhook. A record is identified by its position in
    the table; the `order_id` column is unique. */
module ShippingRecords {
  import opened Wrappers
  import opened Failures

  /** `ShippingStatus`. */
  datatype ShippingStatus = PENDING | PROCESSING | LABEL_CREATED | SHIPPED | IN_TRANSIT | DELIVERED | FAILED | CANCELLED

  /** `ShippingInfo`: every column but the generated id and the timestamps. */
  datatype ShippingInfo = ShippingInfo(
    orderId: string,
    shippoShipmentId: Option<string>,
    shippoRateId: Option<string>,
    shippoTransactionId: Option<string>,
    trackingNumber: Option<string>,
    trackingUrl: Option<string>,
    labelUrl: Option<string>,
    carrier: Option<string>,
    service: Option<string>,
    amount: Option<string>,
    currency: Option<string>,
    estimatedDays: Option<string>,
    status: Option<ShippingStatus>)

  /** A fresh entity carrying only its order id. */
  function Blank(orderId: string): (r: ShippingInfo)
    ensures r.orderId == orderId && r.status.None?
    ensures r.shippoShipmentId.None? && r.shippoRateId.None? && r.shippoTransactionId.None?
    ensures r.trackingNumber.None? && r.trackingUrl.None? && r.labelUrl.None?
    ensures r.carrier.None? && r.service.None? && r.amount.None?
    ensures r.currency.None? && r.estimatedDays.None?
  {
    ShippingInfo(orderId, None, None, None, None, None, None, None, None, None, None, None, None)
  }

  /** The table keeps at most one record per order id. */
  predicate OnePerOrder(rs: seq<ShippingInfo>)
  {
    forall i, j :: 0 <= i < j < |rs| ==> rs[i].orderId != rs[j].orderId
  }

  /** `existsByOrderId`. */
  predicate HasOrder(rs: seq<ShippingInfo>, orderId: string)
  {
    exists i :: 0 <= i < |rs| && rs[i].orderId == orderId
  }

  /** `findByOrderId`: the position of the first record for the order. */
  function IndexOfOrder(rs: seq<ShippingInfo>, orderId: string): (r: Option<nat>)
    ensures r.None? <==> !HasOrder(rs, orderId)
    ensures r.Some? ==> r.value < |rs| && rs[r.value].orderId == orderId
    ensures r.Some? ==> forall j :: 0 <= j < r.value ==> rs[j].orderId != orderId
  {
    if rs == [] then None
    else if rs[0].orderId == orderId then Some(0)
    else
      match IndexOfOrder(rs[1..], orderId)
      case None =>
        assert forall j :: 1 <= j < |rs| ==> rs[j] == rs[1..][j - 1];
        None
      case Some(k) => Some(k + 1)
  }

  /** With one record per order id, the record found is the only one. */
  lemma IndexOfOrderUnique(rs: seq<ShippingInfo>, orderId: string, j: nat)
    requires OnePerOrder(rs)
    requires j < |rs| && rs[j].orderId == orderId
    ensures IndexOfOrder(rs, orderId) == Some(j)
  {
    var r := IndexOfOrder(rs, orderId);
    assert r.Some?;
  }

  /** Whether a record answers the tracking query
      `trackingNumber = :tn OR shippoShipmentId = :sid`: a null parameter, like
      a null column, never compares equal. */
  predicate AnswersTracking(r: ShippingInfo, trackingNumber: Option<string>, shipmentId: Option<string>)
  {
    (trackingNumber.Some? && r.trackingNumber == trackingNumber)
    || (shipmentId.Some? && r.shippoShipmentId == shipmentId)
  }

  /** The positions of every record answering the tracking query, in table
      order. */
  function TrackingMatches(rs: seq<ShippingInfo>, trackingNumber: Option<string>, shipmentId: Option<string>): (m: seq<nat>)
    ensures forall k :: 0 <= k < |m| ==> m[k] < |rs| && AnswersTracking(rs[m[k]], trackingNumber, shipmentId)
    ensures forall i :: 0 <= i < |rs| && AnswersTracking(rs[i], trackingNumber, shipmentId) ==> i in m
    ensures forall k, l :: 0 <= k < l < |m| ==> m[k] < m[l]
  {
    if rs == [] then []
    else
      var n := |rs| - 1;
      var init := TrackingMatches(rs[..n], trackingNumber, shipmentId);
      assert forall i :: 0 <= i < n ==> rs[..n][i] == rs[i];
      init + (if AnswersTracking(rs[n], trackingNumber, shipmentId) then [n] else [])
  }

  /** The message a single-result query fails with when several rows match. */
  const NOT_UNIQUE := "query did not return a unique result"

  /** `findByTrackingNumberOrShippoShipmentId`: no match gives nothing, one
      match gives it, and several matches fail, as a single-result query does. */
  function FindByTracking(rs: seq<ShippingInfo>, trackingNumber: Option<string>, shipmentId: Option<string>)
    : (r: Result<Option<nat>, Failure>)
    ensures r == Ok(None) <==> forall i :: 0 <= i < |rs| ==> !AnswersTracking(rs[i], trackingNumber, shipmentId)
    ensures r.Ok? && r.value.Some? ==>
      r.value.value < |rs| && AnswersTracking(rs[r.value.value], trackingNumber, shipmentId)
      && forall i :: 0 <= i < |rs| && i != r.value.value ==> !AnswersTracking(rs[i], trackingNumber, shipmentId)
    ensures r.Err? ==> r.error == Runtime(NOT_UNIQUE)
    ensures r.Err? ==>
              exists i, j :: 0 <= i < j < |rs| && AnswersTracking(rs[i], trackingNumber, shipmentId)
                                                && AnswersTracking(rs[j], trackingNumber, shipmentId)
  {
    var m := TrackingMatches(rs, trackingNumber, shipmentId);
    if |m| == 0 then
      Ok(None)
    else if |m| == 1 then
      assert forall i :: 0 <= i < |rs| && AnswersTracking(rs[i], trackingNumber, shipmentId) ==> i == m[0];
      Ok(Some(m[0]))
    else
      assert AnswersTracking(rs[m[0]], trackingNumber, shipmentId) && AnswersTracking(rs[m[1]], trackingNumber, shipmentId);
      Err(Runtime(NOT_UNIQUE))
  }

  /** The Spring Data repository over the table. */
  class ShippingInfoRepository {
    var records: seq<ShippingInfo>

    constructor ()
      ensures records == []
    {
      records := [];
    }
  }
}
