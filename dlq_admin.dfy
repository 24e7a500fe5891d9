/** `DlqAdminController` (backend): the admin endpoints over the shipping
    dead-letter queue. The DLQ processor's answers are parameters: each call
    either returns a value or throws an exception with a (possibly null)
    message. */
module DlqAdmin {
  import opened Wrappers
  import opened JavaLang

  /** What a call into the DLQ processor did. */
  datatype Outcome<T> = Returned(value: T) | Threw(message: Option<string>)

  /** A value of a response map. */
  datatype Value = Num(n: int) | Text(s: string) | Flag(b: bool)

  /** A response: HTTP status and body map. */
  datatype Reply = Reply(status: int, body: map<string, Value>)
  {
    /** The body maps `key` to `v`. */
    predicate Has(key: string, v: Value)
    {
      key in body && body[key] == v
    }
  }

  /** `getDlqMessageCount`: the queue attribute as a 32-bit number; a
      failed request or an attribute that does not parse gives -1. */
  function MessageCount(attribute: Option<string>): (n: int)
    ensures n == -1 || n >= -TWO_POW_31
    ensures attribute.Some? && ParseLong(attribute.value).Some?
            && -TWO_POW_31 <= ParseLong(attribute.value).value < TWO_POW_31 ==>
      n == ParseLong(attribute.value).value
  {
    if attribute.None? then -1
    else
      match ParseLong(attribute.value)
      case None => -1
      case Some(v) => if -TWO_POW_31 <= v < TWO_POW_31 then v else -1
  }

  /** The status of `getDlqStatus`: none, fewer than ten, or more. */
  function DlqStatus(count: int): (s: string)
    ensures s == "HEALTHY" <==> count == 0
    ensures s == "WARNING" <==> count != 0 && count < 10
    ensures s == "CRITICAL" <==> count >= 10
  {
    if count == 0 then "HEALTHY" else if count < 10 then "WARNING" else "CRITICAL"
  }

  /** The status of `getDlqCount`: any message is a warning. */
  function CountStatus(count: int): (s: string)
    ensures s == "WARNING" <==> count > 0
    ensures s == "OK" <==> count <= 0
  {
    if count > 0 then "WARNING" else "OK"
  }

  /** How bad a status is. */
  function Severity(s: string): nat
  {
    if s == "CRITICAL" then 2 else if s == "WARNING" then 1 else 0
  }

  /** More messages never make the status better, and on real counts the
      two endpoints agree on whether anything is wrong. */
  lemma StatusMonotone(a: int, b: int)
    requires 0 <= a <= b
    ensures Severity(DlqStatus(a)) <= Severity(DlqStatus(b))
    ensures (DlqStatus(a) == "HEALTHY") <==> (CountStatus(a) == "OK")
  {
  }

  /** The failed count -1 is a warning for the status endpoint but "OK"
      for the count endpoint. */
  lemma FailedCountDisagrees()
    ensures MessageCount(None) == -1
    ensures DlqStatus(-1) == "WARNING" && CountStatus(-1) == "OK"
  {
  }

  /** A 500 body; a null exception message makes `Map.of` itself throw, so
      nothing is answered from the controller (`None`). */
  function ServerError(entries: map<string, Value>, message: Option<string>): (r: Option<Reply>)
    ensures r.Some? <==> message.Some?
    ensures r.Some? ==> r.value.status == 500 && r.value.body == entries["message" := Text(message.value)]
  {
    if message.None? then None else Some(Reply(500, entries["message" := Text(message.value)]))
  }

  /** `getDlqCount`. */
  function CountReply(count: Outcome<int>): (r: Option<Reply>)
    ensures count.Returned? ==>
      r.Some? && r.value.status == 200 && r.value.Has("dlqMessageCount", Num(count.value))
      && r.value.Has("status", Text(CountStatus(count.value)))
    ensures count.Returned? && count.value <= 0 ==> r.value.Has("message", Text("DLQ is empty"))
    ensures count.Threw? ==> r == ServerError(map["error" := Text("Failed to get DLQ count")], count.message)
  {
    match count
    case Returned(n) =>
      Some(Reply(200, map["dlqMessageCount" := Num(n), "status" := Text(CountStatus(n)),
                          "message" := Text(if n > 0 then "Found " + IntToString(n) + " messages in DLQ!"
                                            else "DLQ is empty")]))
    case Threw(m) => ServerError(map["error" := Text("Failed to get DLQ count")], m)
  }

  /** `getDlqStatus`: the health check holds exactly for an empty queue. */
  function StatusReply(count: Outcome<int>, nowMillis: int): (r: Option<Reply>)
    ensures count.Returned? ==>
      r.Some? && r.value.status == 200 && r.value.Has("status", Text(DlqStatus(count.value)))
      && r.value.Has("healthCheck", Flag(count.value == 0)) && r.value.Has("lastCheck", Num(nowMillis))
    ensures count.Threw? ==> (r.Some? <==> count.message.Some?)
    ensures count.Threw? && r.Some? ==>
      r.value.status == 500 && r.value.Has("status", Text("ERROR")) && r.value.Has("healthCheck", Flag(false))
  {
    match count
    case Returned(n) =>
      Some(Reply(200, map["dlqMessageCount" := Num(n), "status" := Text(DlqStatus(n)),
                          "healthCheck" := Flag(n == 0), "lastCheck" := Num(nowMillis),
                          "recommendations" := Text(if n > 0 then "Check logs for errors and consider reprocessing messages"
                                                    else "DLQ is empty - system operating normally")]))
    case Threw(m) =>
      if m.None? then None
      else Some(Reply(500, map["status" := Text("ERROR"), "healthCheck" := Flag(false), "error" := Text(m.value)]))
  }

  /** The reply shape the two message actions share: 200 with success true when
      the processor reports success, 400 with success false when it reports
      failure, 500 when it throws. */
  function ActionReply(done: Outcome<bool>, succeeded: string, failed: string, error: string)
    : (r: Option<Reply>)
    ensures done == Returned(true) ==>
      r == Some(Reply(200, map["success" := Flag(true), "message" := Text(succeeded)]))
    ensures done == Returned(false) ==>
      r == Some(Reply(400, map["success" := Flag(false), "message" := Text(failed)]))
    ensures done.Threw? ==> r == ServerError(map["success" := Flag(false), "error" := Text(error)], done.message)
  {
    match done
    case Returned(ok) =>
      if ok then Some(Reply(200, map["success" := Flag(true), "message" := Text(succeeded)]))
      else Some(Reply(400, map["success" := Flag(false), "message" := Text(failed)]))
    case Threw(m) => ServerError(map["success" := Flag(false), "error" := Text(error)], m)
  }

  /** The two actions on one dead-lettered message. */
  datatype MessageAction = Reprocess | Requeue

  /** `reprocessMessage` and `requeueMessage`: the reply to the action on
      the message with that id, worded for the action. The status is 200
      exactly when the action succeeded. */
  function MessageActionReply(action: MessageAction, done: Outcome<bool>, messageId: string): (r: Option<Reply>)
    ensures done.Returned? ==> r.Some? && (r.value.status == 200 <==> done.value)
    ensures done.Returned? ==> r.value.Has("success", Flag(done.value))
    ensures done == Returned(true) ==>
      r.value.Has("message", Text(if action == Reprocess then "Message " + messageId + " successfully reprocessed"
                                  else "Message " + messageId + " successfully requeued to main queue"))
  {
    match action
    case Reprocess =>
      ActionReply(done, "Message " + messageId + " successfully reprocessed",
                  "Failed to reprocess message " + messageId, "Failed to reprocess message")
    case Requeue =>
      ActionReply(done, "Message " + messageId + " successfully requeued to main queue",
                  "Failed to requeue message " + messageId, "Failed to requeue message")
  }

  /** `checkDlq`: the manual check, then a fresh count; a throwing check
      means no count is read. */
  function CheckReply(check: Outcome<()>, count: int): (r: Option<Reply>)
    ensures check.Returned? ==>
      r == Some(Reply(200, map["success" := Flag(true), "message" := Text("DLQ check completed"),
                               "dlqMessageCount" := Num(count)]))
    ensures check.Threw? ==> r == ServerError(map["success" := Flag(false), "error" := Text("Failed to check DLQ")],
                                              check.message)
  {
    match check
    case Returned(_) =>
      Some(Reply(200, map["success" := Flag(true), "message" := Text("DLQ check completed"),
                          "dlqMessageCount" := Num(count)]))
    case Threw(m) => ServerError(map["success" := Flag(false), "error" := Text("Failed to check DLQ")], m)
  }
}
