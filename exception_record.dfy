/** `ExceptionRecord`: the stored form of a reported exception, built from an
    event, with a bounded stack trace and a 30-day expiry. */
module ExceptionRecords {
  import opened Wrappers
  import opened ExceptionLevels
  import opened LambdaEvents

  /** Stack traces longer than this are cut. */
  const MAX_STACK_TRACE_LENGTH: nat := 4000
  /** What is appended to a cut stack trace. */
  const TRUNCATION_SUFFIX: string := "... [truncated]"
  /** Records expire 30 days after creation, in seconds. */
  const TTL_SECONDS: int := 30 * 24 * 60 * 60

  datatype ExceptionRecord = ExceptionRecord(
    partitionKey: string,
    timestamp: string,
    service: string,
    exceptionType: string,
    message: Option<string>,
    stackTrace: Option<string>,
    context: Option<Context>,
    level: string,
    environment: Option<string>,
    version: Option<string>,
    tags: Option<seq<string>>,
    count: int,
    firstOccurrence: string,
    lastOccurrence: string,
    ttl: int)

  /** `truncateStackTrace`: null stays null, a trace of at most 4000 characters is
      kept, a longer one keeps its first 4000 characters followed by the suffix. */
  function TruncateStackTrace(st: Option<string>): (r: Option<string>)
    ensures r.None? <==> st.None?
    ensures st.Some? && |st.value| <= MAX_STACK_TRACE_LENGTH ==> r == st
    ensures st.Some? ==> |r.value| <= MAX_STACK_TRACE_LENGTH + |TRUNCATION_SUFFIX|
    ensures st.Some? && |st.value| > MAX_STACK_TRACE_LENGTH ==>
      |r.value| == MAX_STACK_TRACE_LENGTH + |TRUNCATION_SUFFIX| &&
      r.value[..MAX_STACK_TRACE_LENGTH] == st.value[..MAX_STACK_TRACE_LENGTH] &&
      r.value[MAX_STACK_TRACE_LENGTH..] == TRUNCATION_SUFFIX
  {
    match st
    case None => None
    case Some(s) =>
      if |s| > MAX_STACK_TRACE_LENGTH then Some(s[..MAX_STACK_TRACE_LENGTH] + TRUNCATION_SUFFIX)
      else Some(s)
  }

  /** Truncating an already truncated trace changes nothing. */
  lemma TruncateStackTraceIdempotent(st: Option<string>)
    ensures TruncateStackTrace(TruncateStackTrace(st)) == TruncateStackTrace(st)
  {
    if st.Some? && |st.value| > MAX_STACK_TRACE_LENGTH {
      var t := TruncateStackTrace(st).value;
      assert t[..MAX_STACK_TRACE_LENGTH] + TRUNCATION_SUFFIX == t;
    }
  }

  /** `fromEvent`, with the creation time `nowEpochSecond` as a parameter. */
  function FromEvent(e: ExceptionEvent, nowEpochSecond: int): (r: ExceptionRecord)
    requires e.service.Some? && e.exceptionType.Some? && e.level.Some? && e.timestamp.Some?
    ensures r.count == 1
    ensures r.timestamp == r.firstOccurrence == r.lastOccurrence == InstantText(e.timestamp.value)
    ensures ParseInstant(r.lastOccurrence) == Some(e.timestamp.value)
    ensures r.partitionKey == PartitionKey(e)
    ensures LevelByConstantName(r.level) == e.level
    ensures r.ttl == nowEpochSecond + 2592000
    ensures r.stackTrace == TruncateStackTrace(e.stackTrace)
    ensures r.service == e.service.value && r.exceptionType == e.exceptionType.value
    ensures r.message == e.message && r.context == e.context && r.environment == e.environment
    ensures r.version == e.version && r.tags == e.tags
  {
    var ts := InstantText(e.timestamp.value);
    ParseInstantText(e.timestamp.value);
    LevelNameIsConstantName(e.level.value, "");
    ExceptionRecord(
      PartitionKey(e), ts, e.service.value, e.exceptionType.value, e.message,
      TruncateStackTrace(e.stackTrace), e.context, LevelName(e.level.value),
      e.environment, e.version, e.tags, 1, ts, ts, nowEpochSecond + TTL_SECONDS)
  }

  /** A value in the generic attribute map; Java `null` is `NullValue`. */
  datatype AttributeObject =
    | NullValue
    | TextValue(text: string)
    | NumberValue(number: int)
    | ContextValue(entries: Context)
    | TagsValue(tags: seq<string>)

  function TextOrNull(s: Option<string>): AttributeObject
  {
    if s.Some? then TextValue(s.value) else NullValue
  }

  /** The fifteen attribute names of a record. */
  const ATTRIBUTE_NAMES: set<string> := {
    "partitionKey", "timestamp", "service", "exceptionType", "message",
    "stackTrace", "context", "level", "environment", "version", "tags",
    "count", "firstOccurrence", "lastOccurrence", "ttl"}

  /** `toAttributeMap()`: every attribute under its own name, null ones included. */
  function ToAttributeMap(r: ExceptionRecord): (m: map<string, AttributeObject>)
    ensures m.Keys == ATTRIBUTE_NAMES
  {
    map[
      "partitionKey" := TextValue(r.partitionKey),
      "timestamp" := TextValue(r.timestamp),
      "service" := TextValue(r.service),
      "exceptionType" := TextValue(r.exceptionType),
      "message" := TextOrNull(r.message),
      "stackTrace" := TextOrNull(r.stackTrace),
      "context" := (if r.context.Some? then ContextValue(r.context.value) else NullValue),
      "level" := TextValue(r.level),
      "environment" := TextOrNull(r.environment),
      "version" := TextOrNull(r.version),
      "tags" := (if r.tags.Some? then TagsValue(r.tags.value) else NullValue),
      "count" := NumberValue(r.count),
      "firstOccurrence" := TextValue(r.firstOccurrence),
      "lastOccurrence" := TextValue(r.lastOccurrence),
      "ttl" := NumberValue(r.ttl)]
  }
}
