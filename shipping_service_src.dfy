/** The older `ShippingService`: a record is created only together with a
    purchased label, and its status can be moved afterwards. */
module SrcShipping {
  import opened Wrappers
  import opened Failures
  import opened ShippingRecords

  /** The parts of a label request the service reads. */
  datatype LabelRequest = LabelRequest(orderId: string, rateId: Option<string>)

  /** The parts of Shippo's transaction response the service reads. */
  datatype LabelResponse = LabelResponse(
    objectId: Option<string>, trackingNumber: Option<string>, trackingUrlProvider: Option<string>, labelUrl: Option<string>)

  /** The record stored for a purchased label: order id and rate id from the
      request, transaction id, tracking number, tracking URL and label URL
      from the response, status LABEL_CREATED, nothing else set. */
  function LabelRecord(request: LabelRequest, response: LabelResponse): (r: ShippingInfo)
    ensures r.orderId == request.orderId && r.shippoRateId == request.rateId
    ensures r.shippoTransactionId == response.objectId && r.trackingNumber == response.trackingNumber
    ensures r.trackingUrl == response.trackingUrlProvider && r.labelUrl == response.labelUrl
    ensures r.status == Some(LABEL_CREATED)
    ensures r.shippoShipmentId.None? && r.carrier.None? && r.service.None?
    ensures r.amount.None? && r.currency.None? && r.estimatedDays.None?
  {
    Blank(request.orderId).(shippoRateId := request.rateId, shippoTransactionId := response.objectId,
                            trackingNumber := response.trackingNumber, trackingUrl := response.trackingUrlProvider,
                            labelUrl := response.labelUrl, status := Some(LABEL_CREATED))
  }

  /** The message of the duplicate-label refusal. */
  function AlreadyExists(orderId: string): Failure
  {
    ShippingInfoAlreadyExists("Shipping info already exists for order: " + orderId)
  }

  /** The message of a missing record. */
  function NotFound(orderId: string): Failure
  {
    ShippingInfoNotFound("Shipping info not found for order: " + orderId)
  }

  class ShippingService {
    const repository: ShippingInfoRepository

    constructor (repository: ShippingInfoRepository)
      ensures this.repository == repository
    {
      this.repository := repository;
    }

    /** `generateShippingLabel`, with `response` standing for what the Shippo
        call returns or throws (consulted only when the order has no record).
        A duplicate is refused before the call; a failed call stores
        nothing; otherwise exactly one LABEL_CREATED record is added and the
        response is returned unchanged. */
    method GenerateShippingLabel(request: LabelRequest, response: Result<LabelResponse, Failure>)
      returns (r: Result<LabelResponse, Failure>)
      modifies repository`records
      ensures HasOrder(old(repository.records), request.orderId) ==>
        r == Err(AlreadyExists(request.orderId)) && repository.records == old(repository.records)
      ensures !HasOrder(old(repository.records), request.orderId) && response.Err? ==>
        r == response && repository.records == old(repository.records)
      ensures !HasOrder(old(repository.records), request.orderId) && response.Ok? ==>
        r == response && repository.records == old(repository.records) + [LabelRecord(request, response.value)]
      ensures OnePerOrder(old(repository.records)) ==> OnePerOrder(repository.records)
    {
      if IndexOfOrder(repository.records, request.orderId).Some? {
        return Err(AlreadyExists(request.orderId));
      }
      if response.Err? {
        return response;
      }
      var info := LabelRecord(request, response.value);
      repository.records := repository.records + [info];
      r := response;
    }

    /** `getShippingInfo`. */
    function GetShippingInfo(orderId: string): (r: Result<ShippingInfo, Failure>)
      reads this, repository
      ensures r.Err? <==> !HasOrder(repository.records, orderId)
      ensures r.Err? ==> r.error == NotFound(orderId)
      ensures r.Ok? ==> r.value in repository.records && r.value.orderId == orderId
    {
      match IndexOfOrder(repository.records, orderId)
      case None => Err(NotFound(orderId))
      case Some(i) => Ok(repository.records[i])
    }

    /** `updateShippingStatus`: a missing record is an error and changes
        nothing; otherwise only the status of the order's record changes. */
    method UpdateShippingStatus(orderId: string, status: Option<ShippingStatus>) returns (r: Result<(), Failure>)
      modifies repository`records
      ensures !HasOrder(old(repository.records), orderId) ==>
        r == Err(NotFound(orderId)) && repository.records == old(repository.records)
      ensures HasOrder(old(repository.records), orderId) ==> r == Ok(())
      ensures HasOrder(old(repository.records), orderId) ==>
        var i := IndexOfOrder(old(repository.records), orderId).value;
        repository.records == old(repository.records)[i := old(repository.records)[i].(status := status)]
    {
      var found := IndexOfOrder(repository.records, orderId);
      if found.None? {
        return Err(NotFound(orderId));
      }
      var info := repository.records[found.value];
      repository.records := repository.records[found.value := info.(status := status)];
      r := Ok(());
    }
  }

  /** A status update moves only the status: every other column of every
      record, and the set of order ids, stay as they were. */
  lemma StatusUpdateKeepsColumns(rs: seq<ShippingInfo>, i: nat, status: Option<ShippingStatus>)
    requires i < |rs|
    ensures var r := rs[i := rs[i].(status := status)];
      |r| == |rs| && r[i].(status := rs[i].status) == rs[i]
      && (OnePerOrder(rs) ==> OnePerOrder(r))
  {
  }
}
