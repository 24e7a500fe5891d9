/** The exception event the monitoring Lambda receives, and the two keys it is
    stored and grouped under. */
module LambdaEvents {
  import opened Wrappers
  import opened JavaLang
  import opened ExceptionLevels

  /** Context values are kept as their text. */
  type Context = map<string, string>

  /** `ExceptionEvent` after JSON decoding; every field may be null. The timestamp
      is an instant in epoch milliseconds. */
  datatype ExceptionEvent = ExceptionEvent(
    service: Option<string>,
    timestamp: Option<int>,
    exceptionType: Option<string>,
    message: Option<string>,
    stackTrace: Option<string>,
    context: Option<Context>,
    level: Option<ExceptionLevel>,
    environment: Option<string>,
    version: Option<string>,
    tags: Option<seq<string>>,
    correlationId: Option<string>,
    userId: Option<string>)

  /** Java string concatenation renders a null reference as "null". */
  function JavaText(s: Option<string>): string
  {
    s.GetOr("null")
  }

  /** `getPartitionKey()`: service and type joined by '#'. */
  function PartitionKey(e: ExceptionEvent): string
  {
    JavaText(e.service) + "#" + JavaText(e.exceptionType)
  }

  /** The message hash used for grouping: `hashCode()` of the message, 0 for null. */
  function MessageHash(m: Option<string>): int
  {
    if m.Some? then HashCode(m.value) else 0
  }

  /** `getGroupingKey()`: service, type and message hash joined by '#'. */
  function GroupingKey(e: ExceptionEvent): string
  {
    JavaText(e.service) + "#" + JavaText(e.exceptionType) + "#" + IntToString(MessageHash(e.message))
  }

  /** The grouping key always extends the partition key with '#' and the decimal
      message hash. */
  lemma GroupingKeyExtendsPartitionKey(e: ExceptionEvent)
    ensures GroupingKey(e) == PartitionKey(e) + "#" + IntToString(MessageHash(e.message))
    ensures |GroupingKey(e)| > |PartitionKey(e)| + 1
    ensures GroupingKey(e)[..|PartitionKey(e)| + 1] == PartitionKey(e) + "#"
  {
    var p := PartitionKey(e);
    var g := GroupingKey(e);
    assert g == (p + "#") + IntToString(MessageHash(e.message));
  }

  /** Two events that differ only in timestamp, level, context, tags, stack trace,
      environment, version, correlation id or user id share both keys. */
  lemma KeysIgnoreOccurrenceDetails(a: ExceptionEvent, b: ExceptionEvent)
    requires a.service == b.service && a.exceptionType == b.exceptionType && a.message == b.message
    ensures PartitionKey(a) == PartitionKey(b)
    ensures GroupingKey(a) == GroupingKey(b)
  {
  }

  /** A null message and an empty message get the same grouping key, because the
      empty string hashes to 0. */
  lemma EmptyMessageGroupsWithNullMessage(e: ExceptionEvent)
    ensures GroupingKey(e.(message := Some(""))) == GroupingKey(e.(message := None))
  {
    assert HashCode("") == 0;
  }

  /** Text form of an instant (`Instant.toString`). The model renders the epoch
      milliseconds in decimal; all that the services need of the format is that
      `ParseInstant` reads it back. */
  function InstantText(ms: int): string
  {
    IntToString(ms)
  }

  /** `Instant.parse`: `None` stands for a `DateTimeParseException`. */
  function ParseInstant(s: string): Option<int>
  {
    ParseLong(s)
  }

  /** Parsing the text of an instant gives the instant back. */
  lemma ParseInstantText(ms: int)
    ensures ParseInstant(InstantText(ms)) == Some(ms)
  {
    ParseLongOfIntToString(ms);
  }
}
