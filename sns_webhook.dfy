/** `SnsWebhookController`: SNS deliveries over HTTP, routed on the message
    type header and the subject. */
module SnsWebhook {
  import opened Wrappers
  import opened Failures
  import opened JsonNodes
  import opened ShippingRecords
  import OrderStatusListener

  const SUBSCRIPTION_CONFIRMED := Reply(200, "Subscription confirmed")
  const NOTIFICATION_PROCESSED := Reply(200, "Notification processed")
  const WEBHOOK_RECEIVED := Reply(200, "Webhook received")
  const WEBHOOK_ERROR := Reply(500, "Error processing webhook")

  /** What the controller does with a delivery, before the listener runs. */
  datatype Route =
    | Reply200(reply: Reply)   // answered without calling the listener
    | Failed                   // parsing or a missing field failed
    | Forward(message: string) // the listener is called with this message

  /** The routing decision: SubscriptionConfirmation needs a parsable body
      with `SubscribeURL`; Notification needs a parsable body with `Message`
      and forwards it only under the subject "OrderStatusUpdated"; any other
      or missing type is merely acknowledged. */
  function RouteOf(parse: Parser, payload: string, messageType: Option<string>): (r: Route)
    ensures messageType != Some("SubscriptionConfirmation") && messageType != Some("Notification") ==>
      r == Reply200(WEBHOOK_RECEIVED)
    ensures messageType == Some("SubscriptionConfirmation") ==> r in {Reply200(SUBSCRIPTION_CONFIRMED), Failed}
    ensures r.Forward? ==>
      messageType == Some("Notification") && parse(payload).Some?
      && Get(parse(payload).value, "Subject") == Some(Scalar("OrderStatusUpdated"))
  {
    if messageType == Some("SubscriptionConfirmation") then
      var parsed := parse(payload);
      if parsed.None? || Get(parsed.value, "SubscribeURL").None? then Failed
      else Reply200(SUBSCRIPTION_CONFIRMED)
    else if messageType == Some("Notification") then
      var parsed := parse(payload);
      if parsed.None? || Get(parsed.value, "Message").None? then Failed
      else
        var message := AsText(Get(parsed.value, "Message").value);
        var subject := if Has(parsed.value, "Subject") then Some(AsText(Get(parsed.value, "Subject").value)) else None;
        if subject == Some("OrderStatusUpdated") then Forward(message) else Reply200(NOTIFICATION_PROCESSED)
    else Reply200(WEBHOOK_RECEIVED)
  }

  /** Only a Scalar subject can read as "OrderStatusUpdated": `asText` of
      null is "null" and of an object is "". */
  lemma SubjectText(node: JsonNode)
    requires AsText(node) == "OrderStatusUpdated"
    ensures node == Scalar("OrderStatusUpdated")
  {
  }

  class SnsWebhookController {
    const listener: OrderStatusListener.OrderStatusUpdateListener

    constructor (listener: OrderStatusListener.OrderStatusUpdateListener)
      ensures this.listener == listener
    {
      this.listener := listener;
    }

    /** `handleSnsWebhook`: the listener runs only on a forwarded
        notification; a failure anywhere is a 500. */
    method HandleSnsWebhook(parse: Parser, payload: string, messageType: Option<string>) returns (reply: Reply)
      modifies listener.repository`records
      ensures var route := RouteOf(parse, payload, messageType);
        (route.Reply200? ==> reply == route.reply && listener.repository.records == old(listener.repository.records))
        && (route.Failed? ==> reply == WEBHOOK_ERROR && listener.repository.records == old(listener.repository.records))
      ensures var route := RouteOf(parse, payload, messageType);
        route.Forward? ==>
          var m := OrderStatusListener.ReadMessage(parse(route.message));
          (m.Err? ==> reply == WEBHOOK_ERROR && listener.repository.records == old(listener.repository.records))
          && (m.Ok? ==> reply == NOTIFICATION_PROCESSED)
          && (m.Ok? ==> listener.repository.records
                          == OrderStatusListener.AfterMessage(old(listener.repository.records), m.value))
    {
      var route := RouteOf(parse, payload, messageType);
      match route
      case Reply200(r) =>
        reply := r;
      case Failed =>
        reply := WEBHOOK_ERROR;
      case Forward(message) =>
        var handled := listener.HandleOrderStatusUpdate(parse, message);
        reply := if handled.Ok? then NOTIFICATION_PROCESSED else WEBHOOK_ERROR;
    }
  }
}
