/** `ExceptionProcessor`: validates an exception event, drops noise, groups it
    with a similar record seen within five minutes or stores a new record, and
    publishes the metrics. */
module ExceptionProcessing {
  import opened Wrappers
  import opened JavaLang
  import opened JavaStrings
  import opened ExceptionLevels
  import opened LambdaEvents
  import opened ExceptionRecords
  import opened ExceptionStore
  import opened Metrics

  /** Events within this many whole minutes of the record's last occurrence are grouped. */
  const GROUPING_WINDOW_MINUTES := 5

  const MILLIS_PER_MINUTE := 60000

  /** Exception types that are known to be temporary. */
  const TEMPORARY_ERROR_TYPES: seq<string> := [
    "java.net.SocketTimeoutException",
    "java.net.ConnectException",
    "software.amazon.awssdk.services.dynamodb.model.ProvisionedThroughputExceededException"]

  /** Exception types that are never worth recording. */
  const BLACKLISTED_ERROR_TYPES: seq<string> := [
    "java.lang.InterruptedException",
    "java.util.concurrent.CancellationException",
    "org.springframework.web.context.request.async.AsyncRequestTimeoutException"]

  /** What `processException` rethrows. */
  datatype ProcessError =
    | NullEvent                          // the event reference was null
    | RepositoryError(message: string)   // a save or count update failed
    | TimestampParseError                // the stored lastOccurrence did not parse

  /** The outcomes of the calls the processor makes to AWS and the clock. */
  datatype Outcomes = Outcomes(
    queryResponse: Option<seq<Item>>,   // what the DynamoDB query returned, None when it failed
    putFails: bool,                     // the PutItem call fails
    updateFails: bool,                  // the UpdateItem call fails
    metricsSendFails: bool,             // putMetricData fails for the exception metrics
    groupedSendFails: bool,             // putMetricData fails for the grouped metrics
    nowEpochSecond: int)                // the clock when a record is built

  /** The state the processor changes: the exception table and the CloudWatch log. */
  datatype Store = Store(items: Table, sent: seq<PutRequest>)

  predicate NonBlank(s: Option<string>)
  {
    s.Some? && !Blank(s.value)
  }

  /** `isValidEvent`: service and type present and not blank, level and
      timestamp present. */
  predicate IsValidEvent(e: ExceptionEvent)
  {
    NonBlank(e.service) && NonBlank(e.exceptionType) && e.level.Some? && e.timestamp.Some?
  }

  /** `isKnownTemporaryError`: a listed temporary type, or a message that
      mentions a connection timeout, a temporary failure or an exceeded rate limit. */
  predicate IsKnownTemporaryError(e: ExceptionEvent)
  {
    (e.exceptionType.Some? && e.exceptionType.value in TEMPORARY_ERROR_TYPES)
    || (e.message.Some? &&
        (Contains(e.message.value, "connection timeout")
         || Contains(e.message.value, "temporary failure")
         || Contains(e.message.value, "rate limit exceeded")))
  }

  /** `isBlacklistedError`: a listed unimportant type. */
  predicate IsBlacklistedError(e: ExceptionEvent)
  {
    e.exceptionType.Some? && e.exceptionType.value in BLACKLISTED_ERROR_TYPES
  }

  /** TRACE or DEBUG in the environment named exactly "production". */
  predicate IsProductionNoise(e: ExceptionEvent)
  {
    e.environment == Some("production") && (e.level == Some(TRACE) || e.level == Some(DEBUG))
  }

  /** `shouldFilterOut`. */
  predicate ShouldFilterOut(e: ExceptionEvent)
  {
    IsProductionNoise(e) || IsKnownTemporaryError(e) || IsBlacklistedError(e)
  }

  /** `ChronoUnit.MINUTES.between(from, to)`: whole minutes, truncated toward zero. */
  function MinutesBetween(from: int, to: int): int
  {
    TruncDiv(to - from, MILLIS_PER_MINUTE)
  }

  /** An event is within the grouping window iff it comes less than six minutes
      after the last occurrence; in particular an event that is not later than
      the last occurrence is always within it. */
  lemma GroupingWindow(from: int, to: int)
    ensures MinutesBetween(from, to) <= GROUPING_WINDOW_MINUTES <==> to - from < 6 * MILLIS_PER_MINUTE
    ensures to <= from ==> MinutesBetween(from, to) <= 0
  {
    var q := MinutesBetween(from, to);
    if to - from >= 0 {
      assert q * MILLIS_PER_MINUTE <= to - from < q * MILLIS_PER_MINUTE + MILLIS_PER_MINUTE;
    } else {
      assert q * MILLIS_PER_MINUTE - MILLIS_PER_MINUTE < to - from <= q * MILLIS_PER_MINUTE;
    }
  }

  /** The record the query finds for the event, if any. */
  function SimilarRecord(e: ExceptionEvent, o: Outcomes): (found: Option<ExceptionRecord>)
    ensures found.Some? ==> IsSimilar(found.value, GroupingKey(e))
  {
    if o.queryResponse.None? then None else FirstSimilar(o.queryResponse.value, GroupingKey(e))
  }

  /** A `putMetricData` request that reaches CloudWatch unless the send fails. */
  function SentUnless(fails: bool, request: PutRequest): seq<PutRequest>
  {
    if fails then [] else [request]
  }

  /** `handleNewException`: build the record and save it. */
  function SaveNew(s: Store, e: ExceptionEvent, o: Outcomes, tableName: Option<string>): (Result<(), ProcessError>, Store)
    requires IsValidEvent(e)
  {
    var record := FromEvent(e, o.nowEpochSecond);
    if tableName.None? || o.putFails then (Err(RepositoryError(SAVE_FAILED)), s)
    else (Ok(()), s.(items := s.items[(record.partitionKey, record.timestamp) := ToItem(record)]))
  }

  /** The grouping step: raise the stored count, move lastOccurrence to the
      event's time and send the grouped metrics with the found count + 1. */
  function UpdateGrouped(s: Store, existing: ExceptionRecord, e: ExceptionEvent, o: Outcomes,
                         tableName: Option<string>, namespace: string): (Result<(), ProcessError>, Store)
    requires IsValidEvent(e)
  {
    var key := (existing.partitionKey, existing.timestamp);
    if o.updateFails || tableName.None? || key !in s.items || GetN(s.items[key], CountAttr).None? then
      (Err(RepositoryError(UPDATE_FAILED)), s)
    else
      var item := s.items[key];
      var bumped := BumpCount(item, GetN(item, CountAttr).value, InstantText(e.timestamp.value));
      (Ok(()), Store(s.items[key := bumped],
                     s.sent + SentUnless(o.groupedSendFails, PutRequest(namespace, GroupedMetrics(e, existing.count + 1)))))
  }

  /** `handleExistingException`: group with the found record when the event is
      within the window of its last occurrence, otherwise store a new record. */
  function GroupWith(s: Store, existing: ExceptionRecord, e: ExceptionEvent, o: Outcomes,
                     tableName: Option<string>, namespace: string): (Result<(), ProcessError>, Store)
    requires IsValidEvent(e)
  {
    var last := ParseInstant(existing.lastOccurrence);
    if last.None? then (Err(TimestampParseError), s)
    else if MinutesBetween(last.value, e.timestamp.value) <= GROUPING_WINDOW_MINUTES then
      UpdateGrouped(s, existing, e, o, tableName, namespace)
    else SaveNew(s, e, o, tableName)
  }

  /** Storage for an admitted event, then its exception metrics once storage
      succeeded. */
  function ProcessAdmitted(s: Store, e: ExceptionEvent, o: Outcomes,
                           tableName: Option<string>, namespace: string): (Result<(), ProcessError>, Store)
    requires IsValidEvent(e)
  {
    var found := SimilarRecord(e, o);
    var stored := if found.Some? then GroupWith(s, found.value, e, o, tableName, namespace) else SaveNew(s, e, o, tableName);
    if stored.0.Err? then stored
    else (Ok(()), stored.1.(sent := stored.1.sent + SentUnless(o.metricsSendFails, PutRequest(namespace, ExceptionMetrics(e)))))
  }

  /** `processException` as a function of the state before it: the error it
      rethrows, if any, and the state after it. */
  function Process(s: Store, event: Option<ExceptionEvent>, o: Outcomes,
                   tableName: Option<string>, namespace: string): (Result<(), ProcessError>, Store)
  {
    if event.None? then (Err(NullEvent), s)
    else if !IsValidEvent(event.value) || ShouldFilterOut(event.value) then (Ok(()), s)
    else ProcessAdmitted(s, event.value, o, tableName, namespace)
  }

  /** An invalid or filtered event is dropped: no save, no update, no metric. */
  lemma DroppedEventChangesNothing(s: Store, e: ExceptionEvent, o: Outcomes, tableName: Option<string>, namespace: string)
    requires !IsValidEvent(e) || ShouldFilterOut(e)
    ensures Process(s, Some(e), o, tableName, namespace) == (Ok(()), s)
  {
  }

  /** The event reaches storage exactly when it is valid and not filtered. */
  predicate Admitted(e: ExceptionEvent)
  {
    IsValidEvent(e) && !ShouldFilterOut(e)
  }

  /** Apart from the temporary and blacklisted types and messages, the only
      events filtered are TRACE and DEBUG ones from "production". */
  lemma LowLevelsDroppedOnlyInProduction(e: ExceptionEvent)
    requires !IsKnownTemporaryError(e) && !IsBlacklistedError(e)
    ensures ShouldFilterOut(e) <==>
      e.environment == Some("production") && e.level.Some? && e.level.value in {TRACE, DEBUG}
  {
  }

  /** With no similar record, exactly one record (built from the event) is
      saved, nothing else in the table changes, and exactly the exception
      metrics follow. */
  lemma NewExceptionSavedOnce(s: Store, e: ExceptionEvent, o: Outcomes, tableName: Option<string>, namespace: string)
    requires Admitted(e) && SimilarRecord(e, o).None?
    requires tableName.Some? && !o.putFails
    ensures var record := FromEvent(e, o.nowEpochSecond);
      Process(s, Some(e), o, tableName, namespace) ==
        (Ok(()), Store(s.items[(record.partitionKey, record.timestamp) := ToItem(record)],
                       s.sent + SentUnless(o.metricsSendFails, PutRequest(namespace, ExceptionMetrics(e)))))
  {
  }

  /** The grouping step on a record that reads back from the table: the
      stored item is bumped and the grouped metrics carry count + 1. */
  lemma UpdateGroupedOnStored(s: Store, r: ExceptionRecord, e: ExceptionEvent, o: Outcomes,
                              tableName: Option<string>, namespace: string)
    requires IsValidEvent(e)
    requires (r.partitionKey, r.timestamp) in s.items && FromItem(s.items[(r.partitionKey, r.timestamp)]) == Some(r)
    requires tableName.Some? && !o.updateFails
    ensures var key := (r.partitionKey, r.timestamp);
      UpdateGrouped(s, r, e, o, tableName, namespace)
      == (Ok(()), Store(s.items[key := BumpCount(s.items[key], r.count, InstantText(e.timestamp.value))],
                        s.sent + SentUnless(o.groupedSendFails, PutRequest(namespace, GroupedMetrics(e, r.count + 1)))))
  {
    assert GetN(s.items[(r.partitionKey, r.timestamp)], CountAttr) == Some(r.count);
  }

  /** Grouping: when the similar record was last seen within five minutes, its
      stored count goes up by exactly one and its lastOccurrence becomes the
      event's time, every other item is unchanged, no record is added, and the
      grouped metrics carry count + 1 ahead of the exception metrics. */
  lemma GroupedWithinWindow(s: Store, e: ExceptionEvent, o: Outcomes, tableName: Option<string>, namespace: string,
                            r: ExceptionRecord, last: int)
    requires Admitted(e) && SimilarRecord(e, o) == Some(r)
    requires ParseInstant(r.lastOccurrence) == Some(last)
    requires MinutesBetween(last, e.timestamp.value) <= GROUPING_WINDOW_MINUTES
    requires (r.partitionKey, r.timestamp) in s.items && FromItem(s.items[(r.partitionKey, r.timestamp)]) == Some(r)
    requires tableName.Some? && !o.updateFails
    ensures var (res, after) := Process(s, Some(e), o, tableName, namespace);
      var key := (r.partitionKey, r.timestamp);
      && res == Ok(())
      && after.items.Keys == s.items.Keys
      && FromItem(after.items[key]) == Some(r.(count := r.count + 1, lastOccurrence := InstantText(e.timestamp.value)))
      && (forall k :: k in s.items && k != key ==> after.items[k] == s.items[k])
      && after.sent == s.sent
           + SentUnless(o.groupedSendFails, PutRequest(namespace, GroupedMetrics(e, r.count + 1)))
           + SentUnless(o.metricsSendFails, PutRequest(namespace, ExceptionMetrics(e)))
  {
    var key := (r.partitionKey, r.timestamp);
    UpdateGroupedOnStored(s, r, e, o, tableName, namespace);
    BumpCountReadBack(s.items[key], r, InstantText(e.timestamp.value));
  }

  /** An event more than five minutes after the similar record's last
      occurrence starts a new record; the old record is not updated and no
      grouped metric is sent. */
  lemma StaleRecordStartsNewOne(s: Store, e: ExceptionEvent, o: Outcomes, tableName: Option<string>, namespace: string,
                                r: ExceptionRecord, last: int)
    requires Admitted(e) && SimilarRecord(e, o) == Some(r)
    requires ParseInstant(r.lastOccurrence) == Some(last)
    requires MinutesBetween(last, e.timestamp.value) > GROUPING_WINDOW_MINUTES
    ensures Process(s, Some(e), o, tableName, namespace) ==
      var saved := SaveNew(s, e, o, tableName);
      if saved.0.Err? then saved
      else (Ok(()), saved.1.(sent := s.sent + SentUnless(o.metricsSendFails, PutRequest(namespace, ExceptionMetrics(e)))))
    ensures var record := FromEvent(e, o.nowEpochSecond);
      SaveNew(s, e, o, tableName).1.items ==
        if tableName.None? || o.putFails then s.items
        else s.items[(record.partitionKey, record.timestamp) := ToItem(record)]
  {
  }

  /** A failure anywhere (null event, save, update, unparsable timestamp) leaves
      the table and the metrics exactly as they were: in particular no metric is
      published for an event whose storage failed. */
  lemma FailureChangesNothing(s: Store, event: Option<ExceptionEvent>, o: Outcomes, tableName: Option<string>, namespace: string)
    ensures Process(s, event, o, tableName, namespace).0.Err? ==> Process(s, event, o, tableName, namespace).1 == s
  {
    if event.Some? && Admitted(event.value) {
      var found := SimilarRecord(event.value, o);
      if found.Some? {
        var g := GroupWith(s, found.value, event.value, o, tableName, namespace);
        assert g.0.Err? ==> g.1 == s;
      }
    }
  }

  /** A successfully stored event ends with exactly one request of exception
      metrics (unless that send fails), and at most one grouped request
      precedes it. */
  lemma ExceptionMetricsComeLast(s: Store, e: ExceptionEvent, o: Outcomes, tableName: Option<string>, namespace: string)
    requires Admitted(e) && !o.metricsSendFails
    requires Process(s, Some(e), o, tableName, namespace).0.Ok?
    ensures var after := Process(s, Some(e), o, tableName, namespace).1;
      && |s.sent| < |after.sent| <= |s.sent| + 2
      && after.sent[..|s.sent|] == s.sent
      && after.sent[|after.sent| - 1] == PutRequest(namespace, ExceptionMetrics(e))
  {
    var found := SimilarRecord(e, o);
    var stored := if found.Some? then GroupWith(s, found.value, e, o, tableName, namespace) else SaveNew(s, e, o, tableName);
    assert |stored.1.sent| <= |s.sent| + 1 && stored.1.sent[..|s.sent|] == s.sent;
  }

  /** The processor, wired to its repository and metrics publisher. */
  class ExceptionProcessor {
    const repository: ExceptionRepository
    const metricsPublisher: MetricsPublisher

    constructor(repository: ExceptionRepository, metricsPublisher: MetricsPublisher)
      ensures this.repository == repository && this.metricsPublisher == metricsPublisher
    {
      this.repository := repository;
      this.metricsPublisher := metricsPublisher;
    }

    /** `processException`. The alert for FATAL events is only logged and is
        not modelled. */
    method ProcessException(event: Option<ExceptionEvent>, o: Outcomes) returns (res: Result<(), ProcessError>)
      modifies repository`items, metricsPublisher`sent
      ensures (res, Store(repository.items, metricsPublisher.sent))
        == Process(Store(old(repository.items), old(metricsPublisher.sent)), event, o,
                   repository.tableName, metricsPublisher.namespace)
    {
      if event.None? {
        return Err(NullEvent);
      }
      var e := event.value;
      if !IsValidEvent(e) {
        return Ok(());
      }
      if ShouldFilterOut(e) {
        return Ok(());
      }
      res := ProcessAdmittedEvent(e, o);
    }

    method ProcessAdmittedEvent(e: ExceptionEvent, o: Outcomes) returns (res: Result<(), ProcessError>)
      requires IsValidEvent(e)
      modifies repository`items, metricsPublisher`sent
      ensures (res, Store(repository.items, metricsPublisher.sent))
        == ProcessAdmitted(Store(old(repository.items), old(metricsPublisher.sent)), e, o,
                           repository.tableName, metricsPublisher.namespace)
    {
      ghost var before := Store(repository.items, metricsPublisher.sent);
      var existing := repository.FindSimilarException(PartitionKey(e), GroupingKey(e), o.queryResponse);
      assert existing == SimilarRecord(e, o);
      if existing.Some? {
        res := HandleExistingException(existing.value, e, o);
      } else {
        res := HandleNewException(e, o);
      }
      ghost var stored := Store(repository.items, metricsPublisher.sent);
      assert (res, stored) == if existing.Some? then GroupWith(before, existing.value, e, o, repository.tableName, metricsPublisher.namespace)
        else SaveNew(before, e, o, repository.tableName);
      if res.Err? {
        return;
      }
      metricsPublisher.PublishExceptionMetrics(Some(e), o.metricsSendFails);
      assert metricsPublisher.sent == stored.sent + SentUnless(o.metricsSendFails, PutRequest(metricsPublisher.namespace, ExceptionMetrics(e)));
      assert repository.items == stored.items;
    }

    method HandleNewException(e: ExceptionEvent, o: Outcomes) returns (res: Result<(), ProcessError>)
      requires IsValidEvent(e)
      modifies repository`items
      ensures (res, Store(repository.items, metricsPublisher.sent))
        == SaveNew(Store(old(repository.items), metricsPublisher.sent), e, o, repository.tableName)
    {
      var record := FromEvent(e, o.nowEpochSecond);
      var saved := repository.SaveException(record, o.putFails);
      if saved.Err? {
        return Err(RepositoryError(saved.error));
      }
      return Ok(());
    }

    method HandleExistingException(existing: ExceptionRecord, e: ExceptionEvent, o: Outcomes)
      returns (res: Result<(), ProcessError>)
      requires IsValidEvent(e)
      modifies repository`items, metricsPublisher`sent
      ensures (res, Store(repository.items, metricsPublisher.sent))
        == GroupWith(Store(old(repository.items), old(metricsPublisher.sent)), existing, e, o,
                     repository.tableName, metricsPublisher.namespace)
    {
      var existingTime := ParseInstant(existing.lastOccurrence);
      if existingTime.None? {
        return Err(TimestampParseError);
      }
      var currentTime := e.timestamp.value;
      if MinutesBetween(existingTime.value, currentTime) <= GROUPING_WINDOW_MINUTES {
        res := UpdateGroupedRecord(existing, e, o);
      } else {
        res := HandleNewException(e, o);
      }
    }

    /** The grouping branch of `handleExistingException`. */
    method UpdateGroupedRecord(existing: ExceptionRecord, e: ExceptionEvent, o: Outcomes)
      returns (res: Result<(), ProcessError>)
      requires IsValidEvent(e)
      modifies repository`items, metricsPublisher`sent
      ensures (res, Store(repository.items, metricsPublisher.sent))
        == UpdateGrouped(Store(old(repository.items), old(metricsPublisher.sent)), existing, e, o,
                         repository.tableName, metricsPublisher.namespace)
    {
      ghost var before := Store(repository.items, metricsPublisher.sent);
      ghost var expected := UpdateGrouped(before, existing, e, o, repository.tableName, metricsPublisher.namespace);
      var updated := existing.(lastOccurrence := InstantText(e.timestamp.value));
      var result := repository.UpdateExceptionCount(updated, o.updateFails);
      if result.Err? {
        return Err(RepositoryError(result.error));
      }
      assert metricsPublisher.sent == before.sent;
      assert repository.items == expected.1.items;
      metricsPublisher.PublishGroupedExceptionMetrics(e, updated.count + 1, o.groupedSendFails);
      assert repository.items == expected.1.items;
      assert metricsPublisher.sent == expected.1.sent;
      return Ok(());
    }
  }
}
