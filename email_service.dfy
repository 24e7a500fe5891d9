/** `SimpleEmailService`: the three notification e-mails and the status texts
    they print. SES is a parameter: `ses(email)` says whether the send call
    succeeds. An e-mail is modelled by its recipient, its subject and the
    values filled into its body template, in template order; the template's
    fixed wording is not modelled. */
module EmailTexts {
  import opened Wrappers
  import opened Failures
  import opened LambdaModels
  import LambdaEvents
  import AddressFormatting

  /** A send request handed to SES. */
  datatype Email = Email(to: Option<string>, subject: string, fields: seq<string>)

  /** The send requests made by one call, and how the call ended. */
  datatype Sending = Sending(attempted: seq<Email>, result: Result<(), Failure>)

  const PAYMENT_EMAIL_FAILED := "Failed to send payment completed email"
  const READY_EMAIL_FAILED := "Failed to send order ready email"
  const STATUS_EMAIL_FAILED := "Failed to send order status updated email"

  /** The five statuses with their own wording. */
  const KNOWN_STATUSES: set<string> := {"PAYMENT_COMPLETED", "READY_FOR_DELIVERY", "IN_DELIVERY", "DELIVERED", "CANCELLED"}

  /** The same five, in the order the e-mail service tests them. */
  const STATUS_ORDER: seq<string> := ["PAYMENT_COMPLETED", "READY_FOR_DELIVERY", "IN_DELIVERY", "DELIVERED", "CANCELLED"]

  const GENERIC_DESCRIPTION := "Your order status has been updated."

  /** `getStatusDisplayName`: the customer-facing name of a status; an
      unknown status is shown as it is. */
  function StatusDisplayName(status: string): (r: string)
    ensures status !in KNOWN_STATUSES ==> r == status
  {
    if status == "PAYMENT_COMPLETED" then "Paid"
    else if status == "READY_FOR_DELIVERY" then "Ready for Shipment"
    else if status == "IN_DELIVERY" then "In Transit"
    else if status == "DELIVERED" then "Delivered"
    else if status == "CANCELLED" then "Cancelled"
    else status
  }

  /** `getStatusDescription`: one sentence per known status, and a generic
      sentence for any other. */
  function StatusDescription(status: string): (r: string)
    ensures status !in KNOWN_STATUSES ==> r == GENERIC_DESCRIPTION
    ensures status in KNOWN_STATUSES ==> r != GENERIC_DESCRIPTION
  {
    if status == "PAYMENT_COMPLETED" then "Your order has been successfully paid and is being processed."
    else if status == "READY_FOR_DELIVERY" then
      "Your order is ready for shipment and will be handed over to the shipping service soon."
    else if status == "IN_DELIVERY" then "Your order is on its way. Track the status using the tracking number."
    else if status == "DELIVERED" then "Your order has been successfully delivered. Thank you for your purchase!"
    else if status == "CANCELLED" then
      "Your order has been cancelled. If you did not initiate this cancellation, please contact customer support."
    else GENERIC_DESCRIPTION
  }

  /** The display names of the known statuses, and they are pairwise
      different, so the e-mail tells them apart. */
  lemma StatusDisplayNames()
    ensures StatusDisplayName("PAYMENT_COMPLETED") == "Paid"
    ensures StatusDisplayName("READY_FOR_DELIVERY") == "Ready for Shipment"
    ensures StatusDisplayName("IN_DELIVERY") == "In Transit"
    ensures StatusDisplayName("DELIVERED") == "Delivered"
    ensures StatusDisplayName("CANCELLED") == "Cancelled"
    ensures forall i, j :: 0 <= i < j < |STATUS_ORDER| ==>
      StatusDisplayName(STATUS_ORDER[i]) != StatusDisplayName(STATUS_ORDER[j])
  {
    KnownDisplayNames();
    assert "Delivered"[0] != "Cancelled"[0];
  }

  /** The five display names, one status at a time. */
  lemma KnownDisplayNames()
    ensures StatusDisplayName(STATUS_ORDER[0]) == "Paid"
    ensures StatusDisplayName(STATUS_ORDER[1]) == "Ready for Shipment"
    ensures StatusDisplayName(STATUS_ORDER[2]) == "In Transit"
    ensures StatusDisplayName(STATUS_ORDER[3]) == "Delivered"
    ensures StatusDisplayName(STATUS_ORDER[4]) == "Cancelled"
  {
    assert "CANCELLED"[0] != "DELIVERED"[0];
  }

  /** The three subject lines, each around the order number as `+` prints it
      ("null" for a null number). */
  function PaymentSubject(orderNumber: Option<string>): string
  {
    "Payment for Order #" + LambdaEvents.JavaText(orderNumber) + " Successfully Completed"
  }

  function ReadySubject(orderNumber: Option<string>): string
  {
    "Order #" + LambdaEvents.JavaText(orderNumber) + " Ready for Shipment"
  }

  function StatusSubject(orderNumber: Option<string>): string
  {
    "Order #" + LambdaEvents.JavaText(orderNumber) + " Status Updated"
  }

  /** The order number can be read back from each subject. */
  lemma SubjectsCarryOrderNumber(n: string)
    ensures PaymentSubject(Some(n))[19..19 + |n|] == n
    ensures ReadySubject(Some(n))[7..7 + |n|] == n
    ensures StatusSubject(Some(n))[7..7 + |n|] == n
  {
    assert PaymentSubject(Some(n)) == "Payment for Order #" + n + " Successfully Completed";
    assert ReadySubject(Some(n)) == "Order #" + n + " Ready for Shipment";
    assert StatusSubject(Some(n)) == "Order #" + n + " Status Updated";
  }

  /** Hands `email` to SES; a failure becomes `failure`. */
  function Send(email: Email, ses: Email -> bool, failure: string): (s: Sending)
    ensures s.attempted == [email]
    ensures s.result.Ok? <==> ses(email)
    ensures s.result.Err? ==> s.result.error == Runtime(failure)
  {
    Sending([email], if ses(email) then Ok(()) else Err(Runtime(failure)))
  }

  /** `sendPaymentCompletedEmail`: to the customer, with name, number,
      currency and payment id (the amount's locale formatting is not
      modelled). */
  function SendPaymentCompletedEmail(e: PaymentCompletedEvent, ses: Email -> bool): (s: Sending)
    ensures |s.attempted| == 1 && s.attempted[0].to == e.shipTo.customerEmail
    ensures s.attempted[0].subject == PaymentSubject(e.orderNumber)
    ensures s.attempted[0].fields
            == [LambdaEvents.JavaText(e.shipTo.customerName), LambdaEvents.JavaText(e.orderNumber),
                LambdaEvents.JavaText(e.currency), LambdaEvents.JavaText(e.paymentId)]
    ensures s.result.Ok? <==> ses(s.attempted[0])
    ensures s.result.Err? ==> s.result.error == Runtime(PAYMENT_EMAIL_FAILED)
  {
    var J := LambdaEvents.JavaText;
    Send(Email(e.shipTo.customerEmail, PaymentSubject(e.orderNumber),
               [J(e.shipTo.customerName), J(e.orderNumber), J(e.currency), J(e.paymentId)]),
         ses, PAYMENT_EMAIL_FAILED)
  }

  /** `sendOrderReadyForDeliveryEmail`: to the customer, with name, number
      and the printed address. */
  function SendOrderReadyForDeliveryEmail(e: ReadyForDeliveryEvent, ses: Email -> bool): (s: Sending)
    ensures |s.attempted| == 1 && s.attempted[0].to == e.shipTo.customerEmail
    ensures s.attempted[0].subject == ReadySubject(e.orderNumber)
    ensures s.attempted[0].fields
            == [LambdaEvents.JavaText(e.shipTo.customerName), LambdaEvents.JavaText(e.orderNumber),
                AddressFormatting.FormattedAddress(Some(e))]
    ensures s.result.Ok? <==> ses(s.attempted[0])
    ensures s.result.Err? ==> s.result.error == Runtime(READY_EMAIL_FAILED)
  {
    var J := LambdaEvents.JavaText;
    Send(Email(e.shipTo.customerEmail, ReadySubject(e.orderNumber),
               [J(e.shipTo.customerName), J(e.orderNumber), AddressFormatting.FormattedAddress(Some(e))]),
         ses, READY_EMAIL_FAILED)
  }

  /** `sendOrderStatusUpdatedEmail`: to the customer, with number, the
      status's display name, the update time and the status's description. A
      null status cannot be switched on, so nothing is sent. */
  function SendOrderStatusUpdatedEmail(e: StatusUpdateEvent, ses: Email -> bool): (s: Sending)
    ensures e.status.None? ==> s == Sending([], Err(Runtime(STATUS_EMAIL_FAILED)))
    ensures e.status.Some? ==>
      |s.attempted| == 1 && s.attempted[0].to == e.customerEmail
      && s.attempted[0].subject == StatusSubject(e.orderNumber)
      && s.attempted[0].fields
         == [LambdaEvents.JavaText(e.orderNumber), StatusDisplayName(e.status.value),
             LambdaEvents.JavaText(e.updatedAt), StatusDescription(e.status.value)]
      && (s.result.Ok? <==> ses(s.attempted[0]))
    ensures s.result.Err? ==> s.result.error == Runtime(STATUS_EMAIL_FAILED)
  {
    if e.status.None? then Sending([], Err(Runtime(STATUS_EMAIL_FAILED)))
    else
      var J := LambdaEvents.JavaText;
      Send(Email(e.customerEmail, StatusSubject(e.orderNumber),
                 [J(e.orderNumber), StatusDisplayName(e.status.value), J(e.updatedAt),
                  StatusDescription(e.status.value)]),
           ses, STATUS_EMAIL_FAILED)
  }
}
