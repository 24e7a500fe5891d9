/** `ShippoWebhookController`: a Shippo tracking webhook moves the status of
    the shipping record it names by tracking number or shipment id. */
module ShippoWebhook {
  import opened Wrappers
  import opened Failures
  import opened JavaStrings
  import opened JsonNodes
  import opened ShippingRecords

  /** `mapShippoStatusToShippingStatus`, on the upper-cased text. */
  function MapShippoStatus(shippoStatus: string): (s: ShippingStatus)
    ensures s in {PENDING, DELIVERED, IN_TRANSIT, FAILED, CANCELLED}
  {
    var u := ToUpper(shippoStatus);
    if u == "UNKNOWN" then PENDING
    else if u == "DELIVERED" then DELIVERED
    else if u == "TRANSIT" then IN_TRANSIT
    else if u == "FAILURE" then FAILED
    else if u == "RETURNED" then CANCELLED
    else PENDING
  }

  /** The table of Shippo statuses, in any mix of cases; and PENDING for
      every text that is none of the four others. */
  lemma MapShippoStatusTable(text: string)
    ensures MapShippoStatus(text) == DELIVERED <==> ToUpper(text) == "DELIVERED"
    ensures MapShippoStatus(text) == IN_TRANSIT <==> ToUpper(text) == "TRANSIT"
    ensures MapShippoStatus(text) == FAILED <==> ToUpper(text) == "FAILURE"
    ensures MapShippoStatus(text) == CANCELLED <==> ToUpper(text) == "RETURNED"
    ensures MapShippoStatus(text) == PENDING <==>
      ToUpper(text) !in {"DELIVERED", "TRANSIT", "FAILURE", "RETURNED"}
  {
  }

  /** The three values read from the payload; a missing one reads as "". */
  datatype WebhookFields = WebhookFields(trackingNumber: string, status: string, shipmentId: string)

  function ReadFields(node: JsonNode): WebhookFields
  {
    WebhookFields(PathText(Path(Some(node), "tracking_number")),
                  PathText(Path(Path(Some(node), "tracking_status"), "status")),
                  PathText(Path(Some(node), "shipment_id")))
  }

  const PROCESSED := Reply(200, "Webhook processed successfully")
  const NO_MATCH := Reply(200, "Webhook received but no matching shipping info found")
  const WEBHOOK_ERROR := Reply(500, "Error processing webhook")

  /** The reply and the table after a webhook: an unparsable payload or a
      query with several matches is a 500 and changes nothing; no match is a
      200 that changes nothing; the one match gets the mapped status. */
  function WebhookOutcome(rs: seq<ShippingInfo>, parsed: Option<JsonNode>): (o: (Reply, seq<ShippingInfo>))
    ensures o.0 in {PROCESSED, NO_MATCH, WEBHOOK_ERROR}
    ensures o.0 != PROCESSED ==> o.1 == rs
    ensures parsed.None? ==> o.0 == WEBHOOK_ERROR
    ensures |o.1| == |rs|
    ensures o.0 == PROCESSED ==>
      var f := ReadFields(parsed.value);
      exists i :: 0 <= i < |rs| && AnswersTracking(rs[i], Some(f.trackingNumber), Some(f.shipmentId))
        && o.1 == rs[i := rs[i].(status := Some(MapShippoStatus(f.status)))]
  {
    if parsed.None? then (WEBHOOK_ERROR, rs)
    else
      var f := ReadFields(parsed.value);
      match FindByTracking(rs, Some(f.trackingNumber), Some(f.shipmentId))
      case Err(_) => (WEBHOOK_ERROR, rs)
      case Ok(None) => (NO_MATCH, rs)
      case Ok(Some(i)) => (PROCESSED, rs[i := rs[i].(status := Some(MapShippoStatus(f.status)))])
  }

  /** A record the webhook does not name keeps its status: no record moves
      unless it is the only one answering the query. */
  lemma WebhookTouchesOnlyTheMatch(rs: seq<ShippingInfo>, parsed: Option<JsonNode>, k: nat)
    requires k < |rs|
    requires parsed.Some?
    requires !AnswersTracking(rs[k], Some(ReadFields(parsed.value).trackingNumber),
                              Some(ReadFields(parsed.value).shipmentId))
    ensures WebhookOutcome(rs, parsed).1[k] == rs[k]
  {
  }

  class ShippoWebhookController {
    const repository: ShippingInfoRepository

    constructor (repository: ShippingInfoRepository)
      ensures this.repository == repository
    {
      this.repository := repository;
    }

    /** `handleShippoWebhook`, with `parse` standing for the object mapper. */
    method HandleShippoWebhook(parse: Parser, payload: string) returns (reply: Reply)
      modifies repository`records
      ensures (reply, repository.records) == WebhookOutcome(old(repository.records), parse(payload))
    {
      var parsed := parse(payload);
      if parsed.None? {
        return WEBHOOK_ERROR;
      }
      var f := ReadFields(parsed.value);
      var found := FindByTracking(repository.records, Some(f.trackingNumber), Some(f.shipmentId));
      if found.Err? {
        return WEBHOOK_ERROR;
      }
      if found.value.None? {
        return NO_MATCH;
      }
      var i := found.value.value;
      repository.records := repository.records[i := repository.records[i].(status := Some(MapShippoStatus(f.status)))];
      reply := PROCESSED;
    }
  }
}
