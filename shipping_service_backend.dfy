/** The backend `ShippingService`: one shipping record per order, created
    PENDING when the order is placed and filled in (or created) when a label
    is bought. */
module BackendShipping {
  import opened Wrappers
  import opened Failures
  import opened ShippingRecords

  /** The nine values `updateShippingInfo` writes, in parameter order. */
  datatype LabelDetails = LabelDetails(
    shippoShipmentId: Option<string>,
    trackingNumber: Option<string>,
    trackingUrl: Option<string>,
    labelUrl: Option<string>,
    carrier: Option<string>,
    service: Option<string>,
    amount: Option<string>,
    currency: Option<string>,
    estimatedDays: Option<string>)

  /** The nine label columns of a record. */
  function DetailsOf(info: ShippingInfo): LabelDetails
  {
    LabelDetails(info.shippoShipmentId, info.trackingNumber, info.trackingUrl, info.labelUrl,
                 info.carrier, info.service, info.amount, info.currency, info.estimatedDays)
  }

  /** The setter sequence of `updateShippingInfo` on one record: the nine
      label columns take the given values and the status becomes
      LABEL_CREATED; the order id, rate and transaction ids are kept. */
  function WithLabel(info: ShippingInfo, d: LabelDetails): (r: ShippingInfo)
    ensures DetailsOf(r) == d && r.status == Some(LABEL_CREATED)
    ensures r.orderId == info.orderId
    ensures r.shippoRateId == info.shippoRateId && r.shippoTransactionId == info.shippoTransactionId
  {
    info.(shippoShipmentId := d.shippoShipmentId, trackingNumber := d.trackingNumber,
          trackingUrl := d.trackingUrl, labelUrl := d.labelUrl, carrier := d.carrier,
          service := d.service, amount := d.amount, currency := d.currency,
          estimatedDays := d.estimatedDays, status := Some(LABEL_CREATED))
  }

  /** The table after `createShippingInfo(orderId)`: unchanged when the order
      already has a record, otherwise one PENDING record for it at the end. */
  function Created(rs: seq<ShippingInfo>, orderId: string): (r: seq<ShippingInfo>)
    ensures HasOrder(r, orderId)
    ensures HasOrder(rs, orderId) ==> r == rs
    ensures !HasOrder(rs, orderId) ==>
      |r| == |rs| + 1 && r[..|rs|] == rs && r[|rs|] == Blank(orderId).(status := Some(PENDING))
    ensures OnePerOrder(rs) ==> OnePerOrder(r)
  {
    if HasOrder(rs, orderId) then rs
    else
      var r := rs + [Blank(orderId).(status := Some(PENDING))];
      assert r[|rs|].orderId == orderId;
      r
  }

  /** The table after `updateShippingInfo`: the order's record, or a new one
      appended for it, carries the label details with status LABEL_CREATED;
      every other record is kept. */
  function Upserted(rs: seq<ShippingInfo>, orderId: string, d: LabelDetails): (r: seq<ShippingInfo>)
    ensures |r| == (if HasOrder(rs, orderId) then |rs| else |rs| + 1)
    ensures forall k :: 0 <= k < |rs| && rs[k].orderId != orderId ==> r[k] == rs[k]
    ensures forall k :: 0 <= k < |r| && r[k].orderId == orderId && (k < |rs| ==> k == IndexOfOrder(rs, orderId).value) ==>
      DetailsOf(r[k]) == d && r[k].status == Some(LABEL_CREATED)
    ensures forall k :: 0 <= k < |r| ==> r[k].orderId == (if k < |rs| then rs[k].orderId else orderId)
    ensures OnePerOrder(rs) ==> OnePerOrder(r)
  {
    match IndexOfOrder(rs, orderId)
    case Some(i) => rs[i := WithLabel(rs[i], d)]
    case None => rs + [WithLabel(Blank(orderId), d)]
  }

  /** Creating twice is creating once. */
  lemma CreateIdempotent(rs: seq<ShippingInfo>, orderId: string)
    ensures Created(Created(rs, orderId), orderId) == Created(rs, orderId)
  {
  }

  /** After an upsert the order has exactly one record (given one per order
      before), and looking the order up finds the label details. */
  lemma UpsertThenFind(rs: seq<ShippingInfo>, orderId: string, d: LabelDetails)
    requires OnePerOrder(rs)
    ensures var r := Upserted(rs, orderId, d);
      IndexOfOrder(r, orderId).Some?
      && DetailsOf(r[IndexOfOrder(r, orderId).value]) == d
      && r[IndexOfOrder(r, orderId).value].status == Some(LABEL_CREATED)
  {
    var r := Upserted(rs, orderId, d);
    var k := if HasOrder(rs, orderId) then IndexOfOrder(rs, orderId).value else |rs|;
    assert r[k].orderId == orderId;
    IndexOfOrderUnique(r, orderId, k);
  }

  /** A later `createShippingInfo` for an order that got its label does not
      reset the record to PENDING. */
  lemma CreateAfterUpsertKeepsLabel(rs: seq<ShippingInfo>, orderId: string, d: LabelDetails)
    ensures Created(Upserted(rs, orderId, d), orderId) == Upserted(rs, orderId, d)
  {
    var r := Upserted(rs, orderId, d);
    var k := if HasOrder(rs, orderId) then IndexOfOrder(rs, orderId).value else |rs|;
    assert r[k].orderId == orderId;
  }

  class ShippingService {
    const repository: ShippingInfoRepository

    constructor (repository: ShippingInfoRepository)
      ensures this.repository == repository
    {
      this.repository := repository;
    }

    /** `getShippingInfo`. */
    function GetShippingInfo(orderId: string): (r: Result<ShippingInfo, Failure>)
      reads this, repository
      ensures r.Err? <==> !HasOrder(repository.records, orderId)
      ensures r.Err? ==> r.error == ShippingInfoNotFound("Shipping info not found for order: " + orderId)
      ensures r.Ok? ==> r.value in repository.records && r.value.orderId == orderId
    {
      match IndexOfOrder(repository.records, orderId)
      case None => Err(ShippingInfoNotFound("Shipping info not found for order: " + orderId))
      case Some(i) => Ok(repository.records[i])
    }

    /** `getShippingInfoByTracking`: the shipment-id half of the query is
        given null and so never matches. */
    function GetShippingInfoByTracking(trackingNumber: string): (r: Result<ShippingInfo, Failure>)
      reads this, repository
      ensures (forall i :: 0 <= i < |repository.records| ==> repository.records[i].trackingNumber != Some(trackingNumber))
        <==> r == Err(ShippingInfoNotFound("Shipping info not found for tracking: " + trackingNumber))
      ensures r.Ok? ==> r.value in repository.records && r.value.trackingNumber == Some(trackingNumber)
    {
      match FindByTracking(repository.records, Some(trackingNumber), None)
      case Err(e) => Err(e)
      case Ok(None) => Err(ShippingInfoNotFound("Shipping info not found for tracking: " + trackingNumber))
      case Ok(Some(i)) => Ok(repository.records[i])
    }

    /** `createShippingInfo`. */
    method CreateShippingInfo(orderId: string)
      modifies repository`records
      ensures repository.records == Created(old(repository.records), orderId)
    {
      if IndexOfOrder(repository.records, orderId).Some? {
        return;
      }
      var info := Blank(orderId).(status := Some(PENDING));
      repository.records := repository.records + [info];
    }

    /** `updateShippingInfo`. */
    method UpdateShippingInfo(orderId: string, d: LabelDetails)
      modifies repository`records
      ensures repository.records == Upserted(old(repository.records), orderId, d)
    {
      var found := IndexOfOrder(repository.records, orderId);
      var info := if found.Some? then repository.records[found.value] else Blank(orderId);
      info := WithLabel(info, d);
      if found.Some? {
        repository.records := repository.records[found.value := info];
      } else {
        repository.records := repository.records + [info];
      }
    }
  }
}
