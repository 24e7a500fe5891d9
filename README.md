# ecommerce-microservices, modelled in Dafny

This project models the decision-making core of the ecommerce-microservices
system, with proofs. The Java sources it follows fall into three parts:
the Spring backend (`backend/…`), its older copy (`src/…`), and the AWS
Lambda functions (`shipping-lambda/…`). The model covers four areas:

- **Exception monitoring.** The backend classifies an escaping exception
  (`ExceptionEvent`, `GlobalExceptionHandler`) and publishes it
  (`ExceptionPublisher`). The Lambda then validates the event, filters
  noise, and groups it with a similar record from the last five minutes or
  stores a new record (`ExceptionProcessor`, `ExceptionRepository`,
  `ExceptionRecord`). It emits CloudWatch metrics (`MetricsPublisher`) and
  counts its successes and failures (`ExceptionWatcherHandler`).
- **Orders, stock, reservations and shipping.**
  - `Order` keeps its totals in step with its items.
  - The shipping, tax and total rules.
  - The two `OrderService`s: creation, status moves that deduct stock, cancellation and the PayPal steps.
  - Stock reservations (`ProductReservationService`) and order reservations (`ReservationService`).
  - The shipping record per order, kept by the two `ShippingService`s, the status listener and the Shippo and SNS webhooks.
  - Products, their images (at most one main image) and their reviews (only the author may change one).
  - Users: the Cognito-backed `UserService` and the in-memory `LocalUserController`, with its plain-text tokens.
- **Event routing and delivery on Lambda.**
  - The PayPal dispatch and the order of its publications.
  - The delivery event with parcel defaults.
  - The Shippo shipment, with bounded exponential retry.
  - Address formatting.
  - Validation of notification events, the e-mails they trigger, and routing by SNS topic.
- **Admin and health.** The dashboard figures: the today window,
  average order value rounded half-up to cents, and the top-N products.
  The system status thresholds, the uptime text and cache clearing. The
  DLQ admin replies.

**How Java is modelled.**
- Java `null` is `Option`, and a thrown exception is a `Result` error.
- `BigDecimal` and `double` amounts are `real`.
- Instants are integers: epoch milliseconds, or nanoseconds for local date-times.
- AWS, PayPal, Cognito, Shippo, the JSON mappers and the clock become
  parameters that give an answer or a failure; the few calls whose failure
  is not modelled are named under "Left out".
- Each `@Transactional` operation is atomic: a failure leaves the tables as they were.
- Java's string and number semantics the code relies on are defined once
  in `JavaStrings` and `JavaLang`: `trim`, `toUpperCase` on ASCII letters, `contains`,
  `String.valueOf`, `Long.parseLong`, `String.hashCode` over UTF-16 code
  units with 32-bit wrap-around, and division that truncates toward zero.

**How the code is modelled.**
- Expression-only code becomes functions over datatypes.
- Code that mutates state becomes classes. Their fields are the tables or
  logs, their methods carry `modifies` clauses and loops with invariants, and
  each method is proved equal to a specification function. The lemmas
  about those functions state what the source promises.

## Model

| member | source | states |
|---|---|---|
| ExceptionLevels.Priority | shipping-lambda/src/main/java/com/ecommerce/lambda/model/ExceptionLevel.java:7-12 | each level's priority, 0 for TRACE up to 5 for FATAL in declaration order |
| ExceptionLevels.PriorityIsBijective | shipping-lambda/src/main/java/com/ecommerce/lambda/model/ExceptionLevel.java:7-28 | priorities are distinct and strictly increasing in declaration order; every value 0..5 is the priority of exactly one level |
| ExceptionLevels.LevelNameIsConstantName | shipping-lambda/src/main/java/com/ecommerce/lambda/model/ExceptionLevel.java:7-24 | `getLevel`/`toString` give the constant's own name, so looking a name up gives the level back and no other name does |
| ExceptionLevels.CriticalByPriority | shipping-lambda/src/main/java/com/ecommerce/lambda/model/ExceptionLevel.java:33-42 | `isCritical` holds exactly at priority >= 4 (ERROR, FATAL); `requiresImmediateAlert` exactly for FATAL, and it implies `isCritical` |
| LambdaEvents.GroupingKeyExtendsPartitionKey | shipping-lambda/src/main/java/com/ecommerce/lambda/model/ExceptionEvent.java:99-108 | the grouping key is the partition key, then '#', then the decimal message hash |
| LambdaEvents.KeysIgnoreOccurrenceDetails | shipping-lambda/src/main/java/com/ecommerce/lambda/model/ExceptionEvent.java:99-108 | events that differ only in timestamp, level, context, tags, trace, environment, version, correlation or user id get the same partition and grouping keys |
| LambdaEvents.EmptyMessageGroupsWithNullMessage | shipping-lambda/src/main/java/com/ecommerce/lambda/model/ExceptionEvent.java:106-108 | a null message and an empty one give the same grouping key, because "".hashCode() is 0 |
| JavaLang.CodeUnits | shipping-lambda/src/main/java/com/ecommerce/lambda/model/ExceptionEvent.java:106-108 | the message is hashed as Java stores it: a character of the Basic Multilingual Plane is one code unit, any other is a high then a low surrogate that together give back the character |
| JavaLang.HashCodeStep | shipping-lambda/src/main/java/com/ecommerce/lambda/model/ExceptionEvent.java:106-108 | appending a Basic Multilingual Plane character takes the hash `h` to `31 * h + c` wrapped to 32 bits, as `String.hashCode` computes it step by step |
| JavaLang.HashCodeOfSurrogatePair | shipping-lambda/src/main/java/com/ecommerce/lambda/model/ExceptionEvent.java:106-108 | a message holding U+1F600 hashes to 0xD83D * 31 + 0xDE00 = 1772899, from its two surrogates and not from its code point |
| LambdaEvents.ParseInstantText | shipping-lambda/src/main/java/com/ecommerce/lambda/model/ExceptionRecord.java:100-121 | the instant written into a record parses back to the same instant |
| ExceptionRecords.TruncateStackTrace | shipping-lambda/src/main/java/com/ecommerce/lambda/model/ExceptionRecord.java:151-160 | null stays null; a trace of at most 4000 characters is kept; a longer one becomes its first 4000 characters plus the truncation suffix |
| ExceptionRecords.TruncateStackTraceIdempotent | shipping-lambda/src/main/java/com/ecommerce/lambda/model/ExceptionRecord.java:151-160 | truncating a truncated trace changes nothing |
| ExceptionRecords.FromEvent | shipping-lambda/src/main/java/com/ecommerce/lambda/model/ExceptionRecord.java:100-121 | count 1; timestamp = first = last occurrence = the event's instant; partition key from the event; ttl = now + 30 days; trace truncated; the other fields copied |
| ExceptionRecords.ToAttributeMap | shipping-lambda/src/main/java/com/ecommerce/lambda/model/ExceptionRecord.java:126-146 | the map has exactly the fifteen attribute names, null values included |
| ExceptionStore.ToItemAttributes | shipping-lambda/src/main/java/com/ecommerce/lambda/repository/ExceptionRepository.java:124-156 | a written item always has the eleven required attributes; a null message is written as "" and a null environment as "unknown"; stackTrace and version only when present; context and tags only when present and non-empty |
| ExceptionStore.FromItemReadsFields | shipping-lambda/src/main/java/com/ecommerce/lambda/repository/ExceptionRepository.java:161-177 | any item holding a record's attributes converts to that record |
| ExceptionStore.ReadBackAfterWrite | shipping-lambda/src/main/java/com/ecommerce/lambda/repository/ExceptionRepository.java:124-177 | write then read keeps keys, service, type, level, count, occurrences, ttl, stack trace and version |
| ExceptionStore.StoredRecordSimilarToItsEvent | shipping-lambda/src/main/java/com/ecommerce/lambda/repository/ExceptionRepository.java:124-186 | a record made from an event, stored and read back, is similar to that event's grouping key, even when the event's message is null |
| ExceptionStore.FirstSimilar | shipping-lambda/src/main/java/com/ecommerce/lambda/repository/ExceptionRepository.java:60-90 | the first item that converts to a record similar to the grouping key; an item that fails to convert ends the search with nothing found |
| ExceptionStore.FirstSimilarOccurs | shipping-lambda/src/main/java/com/ecommerce/lambda/repository/ExceptionRepository.java:60-90 | what the search finds is the conversion of one of the response's items |
| ExceptionStore.FirstSimilarSkips | shipping-lambda/src/main/java/com/ecommerce/lambda/repository/ExceptionRepository.java:60-90 | past items that all convert and are not similar, the search ends with nothing at the end or at an unconvertible item, and returns the next item's record when it is similar |
| ExceptionStore.FirstSimilarIsFirst | shipping-lambda/src/main/java/com/ecommerce/lambda/repository/ExceptionRepository.java:60-90 | what is found is the record of an item before which every item converts and is not similar |
| ExceptionStore.FoundRecordIsStoredAndSimilar | shipping-lambda/src/main/java/com/ecommerce/lambda/repository/ExceptionRepository.java:60-90 | on a genuine query answer, the record found is stored under the partition key and similar to the grouping key (also lines 182-186) |
| ExceptionStore.BumpCountReadBack | shipping-lambda/src/main/java/com/ecommerce/lambda/repository/ExceptionRepository.java:95-119 | after the update the item reads back as the same record, with count one higher and the new lastOccurrence |
| ExceptionStore.ExceptionRepository.SaveException | shipping-lambda/src/main/java/com/ecommerce/lambda/repository/ExceptionRepository.java:29-55 | the table gains exactly the converted item under its key; with no table name or a failed put nothing is stored and an error is returned |
| ExceptionStore.ExceptionRepository.FindSimilarException | shipping-lambda/src/main/java/com/ecommerce/lambda/repository/ExceptionRepository.java:60-90 | the result is `FirstSimilar` of the query answer, or nothing when the query fails; the table is unchanged |
| ExceptionStore.ExceptionRepository.UpdateExceptionCount | shipping-lambda/src/main/java/com/ecommerce/lambda/repository/ExceptionRepository.java:95-119 | the item under the record's key gets count + 1 and the new lastOccurrence and nothing else changes; a failed call, a missing table name, a missing item or a non-numeric count change nothing |
| Metrics.TagMetricsPerTag | shipping-lambda/src/main/java/com/ecommerce/lambda/service/MetricsPublisher.java:80-183 | exactly one tag counter per tag, in the tags' order, each naming its tag and counting 1 |
| Metrics.MetricCount | shipping-lambda/src/main/java/com/ecommerce/lambda/service/MetricsPublisher.java:80-183 | the number of metrics is 3, plus one each for a critical level, for FATAL and for a version, plus one per tag |
| Metrics.BaseMetricsAlwaysEmitted | shipping-lambda/src/main/java/com/ecommerce/lambda/service/MetricsPublisher.java:80-183 | the first three metrics are always ExceptionCount (Service and Environment dimensions), ExceptionCountByType and ExceptionCountByLevel, each counting 1; every metric is a count stamped with the event's time |
| Metrics.ExceptionMetricNames | shipping-lambda/src/main/java/com/ecommerce/lambda/service/MetricsPublisher.java:80-183 | the metric names in the order `createMetrics` adds them |
| Metrics.ConditionalMetrics | shipping-lambda/src/main/java/com/ecommerce/lambda/service/MetricsPublisher.java:80-183 | CriticalExceptionCount iff the level is critical, FatalExceptionCount iff FATAL, ExceptionCountByVersion iff a version is set |
| Metrics.TagMetricsComeLast | shipping-lambda/src/main/java/com/ecommerce/lambda/service/MetricsPublisher.java:80-183 | the tag counters come last, in tag order |
| Metrics.GroupedMetricsShape | shipping-lambda/src/main/java/com/ecommerce/lambda/service/MetricsPublisher.java:188-221 | ExceptionFrequency carries the count; HighFrequencyException is emitted iff the count is above 10 |
| Metrics.CreateMetrics | shipping-lambda/src/main/java/com/ecommerce/lambda/service/MetricsPublisher.java:80-183 | the list built step by step, with the tag loop, equals the specified metric list; a null level gives no list (the exception) |
| Metrics.MetricsPublisher.PublishExceptionMetrics | shipping-lambda/src/main/java/com/ecommerce/lambda/service/MetricsPublisher.java:30-53 | a null event, a null level or a failed send leaves the sent requests as they were; otherwise exactly one request with the exception metrics is appended |
| Metrics.MetricsPublisher.PublishGroupedExceptionMetrics | shipping-lambda/src/main/java/com/ecommerce/lambda/service/MetricsPublisher.java:58-75 | exactly one request with the grouped metrics is appended, or none when the send fails |
| ExceptionProcessing.GroupingWindow | shipping-lambda/src/main/java/com/ecommerce/lambda/service/ExceptionProcessor.java:178-205 | an event is grouped iff it comes less than six whole minutes after the last occurrence; an event not later than it is always grouped |
| ExceptionProcessing.DroppedEventChangesNothing | shipping-lambda/src/main/java/com/ecommerce/lambda/service/ExceptionProcessor.java:33-119 | an invalid or filtered event succeeds with no save, no update and no metric |
| ExceptionProcessing.LowLevelsDroppedOnlyInProduction | shipping-lambda/src/main/java/com/ecommerce/lambda/service/ExceptionProcessor.java:101-157 | apart from temporary and blacklisted errors, only TRACE and DEBUG events from "production" are filtered |
| ExceptionProcessing.NewExceptionSavedOnce | shipping-lambda/src/main/java/com/ecommerce/lambda/service/ExceptionProcessor.java:33-85 | with no similar record exactly one record built from the event is saved, nothing else in the table changes, and the exception metrics follow (also lines 162-173) |
| ExceptionProcessing.GroupedWithinWindow | shipping-lambda/src/main/java/com/ecommerce/lambda/service/ExceptionProcessor.java:178-205 | within the window the stored count goes up by one and lastOccurrence becomes the event's time, no record is added, and grouped metrics with count + 1 precede the exception metrics |
| ExceptionProcessing.StaleRecordStartsNewOne | shipping-lambda/src/main/java/com/ecommerce/lambda/service/ExceptionProcessor.java:178-205 | outside the window a new record is saved, the old one is not updated and no grouped metric is sent |
| ExceptionProcessing.FailureChangesNothing | shipping-lambda/src/main/java/com/ecommerce/lambda/service/ExceptionProcessor.java:33-85 | any failure (null event, save, update, unparsable timestamp) leaves table and metrics as they were |
| ExceptionProcessing.ExceptionMetricsComeLast | shipping-lambda/src/main/java/com/ecommerce/lambda/service/ExceptionProcessor.java:33-85 | a stored event ends with exactly one exception-metrics request (unless the send fails), preceded by at most one grouped request |
| ExceptionProcessing.ExceptionProcessor.ProcessException | shipping-lambda/src/main/java/com/ecommerce/lambda/service/ExceptionProcessor.java:33-85 | the result and the new table and metrics are those of the specification `Process` |
| ExceptionProcessing.ExceptionProcessor.ProcessAdmittedEvent | shipping-lambda/src/main/java/com/ecommerce/lambda/service/ExceptionProcessor.java:55-80 | a valid, unfiltered event: lookup, new or grouped handling, then metrics, as `ProcessAdmitted` specifies |
| ExceptionProcessing.ExceptionProcessor.HandleNewException | shipping-lambda/src/main/java/com/ecommerce/lambda/service/ExceptionProcessor.java:162-173 | the table becomes `SaveNew` of the old one |
| ExceptionProcessing.ExceptionProcessor.HandleExistingException | shipping-lambda/src/main/java/com/ecommerce/lambda/service/ExceptionProcessor.java:178-205 | the table and metrics become `GroupWith` of the old ones |
| ExceptionProcessing.ExceptionProcessor.UpdateGroupedRecord | shipping-lambda/src/main/java/com/ecommerce/lambda/service/ExceptionProcessor.java:186-197 | the count update and grouped metrics, as `UpdateGrouped` specifies |
| ExceptionWatcher.TallyBounded | shipping-lambda/src/main/java/com/ecommerce/lambda/ExceptionWatcherHandler.java:66-88 | each record adds at most one to exactly one counter, so processed + errors <= number of records |
| ExceptionWatcher.RunAppend | shipping-lambda/src/main/java/com/ecommerce/lambda/ExceptionWatcherHandler.java:66-88 | handling a + b is handling a, then b from a's final state: a failure never stops later records, and the counters add up |
| ExceptionWatcher.BlankMessageSkipped | shipping-lambda/src/main/java/com/ecommerce/lambda/ExceptionWatcherHandler.java:94-126 | a null or blank message counts as neither processed nor failed and changes nothing |
| ExceptionWatcher.UndecodableIsAnError | shipping-lambda/src/main/java/com/ecommerce/lambda/ExceptionWatcherHandler.java:94-126 | an undecodable message counts as one error and never reaches the processor |
| ExceptionWatcher.InvalidEventCountsAsProcessed | shipping-lambda/src/main/java/com/ecommerce/lambda/ExceptionWatcherHandler.java:94-126 | an event the processor rejects as invalid still counts as processed |
| ExceptionWatcher.SummaryDeterminesCounts | shipping-lambda/src/main/java/com/ecommerce/lambda/ExceptionWatcherHandler.java:82-87 | the summary text determines both counters |
| ExceptionWatcher.ExceptionWatcherHandler.ProcessRecord | shipping-lambda/src/main/java/com/ecommerce/lambda/ExceptionWatcherHandler.java:94-126 | outcome and new state are those of one `Step` |
| ExceptionWatcher.ExceptionWatcherHandler.HandleRequest | shipping-lambda/src/main/java/com/ecommerce/lambda/ExceptionWatcherHandler.java:66-88 | the counting loop returns the summary of `Run` over all records and leaves the state `Run` gives |
| BackendEvents.DetermineLevel | backend/src/main/java/com/ecommerce/common/exception/ExceptionEvent.java:204-233 | FATAL fragments are tried first, then ERROR, then WARN; a class name matching none of them is ERROR |
| BackendEvents.DetermineLevelPrecedence | backend/src/main/java/com/ecommerce/common/exception/ExceptionEvent.java:204-233 | a FATAL fragment beats every other and an ERROR fragment beats a WARN one; only a WARN fragment keeps an exception out of the critical levels |
| BackendEvents.DetermineLevelExamples | backend/src/main/java/com/ecommerce/common/exception/ExceptionEvent.java:204-233 | a connection-validation failure is ERROR although it mentions "Validation"; an SQL driver's out-of-memory error is FATAL although it mentions "SQL" |
| BackendEvents.ExceptionEvent.FromException | backend/src/main/java/com/ecommerce/common/exception/ExceptionEvent.java:103-115 | type = simple class name, context and tags empty, level = `DetermineLevel` of the class name, timestamp = now |
| BackendEvents.ExceptionEvent.FromExceptionWithContext | backend/src/main/java/com/ecommerce/common/exception/ExceptionEvent.java:120-127 | as `FromException`, except that a non-null context replaces the empty one |
| BackendEvents.ExceptionEvent.Custom | backend/src/main/java/com/ecommerce/common/service/ExceptionPublisher.java:105-120 | the builder sets only service, timestamp, type, message, level and environment |
| BackendEvents.ExceptionEvent.WithContext | backend/src/main/java/com/ecommerce/common/exception/ExceptionEvent.java:132-138 | a null map becomes empty first; then exactly one key is added or overwritten |
| BackendEvents.ExceptionEvent.WithTag | backend/src/main/java/com/ecommerce/common/exception/ExceptionEvent.java:143-149 | a null list becomes empty first; then the tag is appended |
| BackendEvents.ExceptionEvent.WithLevel | backend/src/main/java/com/ecommerce/common/exception/ExceptionEvent.java:154-157 | only the level changes |
| BackendEvents.ExceptionEvent.WithVersion | backend/src/main/java/com/ecommerce/common/exception/ExceptionEvent.java:162-165 | only the version changes |
| BackendEvents.ExceptionEvent.KeysAgreeWithLambda | backend/src/main/java/com/ecommerce/common/exception/ExceptionEvent.java:89-98 | the backend's partition and grouping keys equal the Lambda's keys of the event it receives |
| BackendEvents.ContextText | backend/src/main/java/com/ecommerce/common/exception/ExceptionEvent.java:120-138 | the Lambda sees the same context keys, with null values as the text "null" |
| ExceptionPublishing.Subject | backend/src/main/java/com/ecommerce/common/service/ExceptionPublisher.java:125-148 | "Exception: <type> in <service>", with "null" for null parts |
| ExceptionPublishing.Sent | backend/src/main/java/com/ecommerce/common/service/ExceptionPublisher.java:125-148 | no request when serialization fails, otherwise exactly one, carrying the subject and the serialized event |
| ExceptionPublishing.ExplicitEvent | backend/src/main/java/com/ecommerce/common/service/ExceptionPublisher.java:68-100 | the explicit level, even null, replaces the derived one; the tags follow in argument order |
| ExceptionPublishing.CustomEvent | backend/src/main/java/com/ecommerce/common/service/ExceptionPublisher.java:105-120 | only service, timestamp, type, message, level and environment are set |
| ExceptionPublishing.ExceptionPublisher.PublishEvent | backend/src/main/java/com/ecommerce/common/service/ExceptionPublisher.java:125-148 | the requests grow by `Sent` of the event; every failure is swallowed |
| ExceptionPublishing.ExceptionPublisher.PublishException | backend/src/main/java/com/ecommerce/common/service/ExceptionPublisher.java:44-51 | publishes `fromException` of the exception |
| ExceptionPublishing.ExceptionPublisher.PublishExceptionWithContext | backend/src/main/java/com/ecommerce/common/service/ExceptionPublisher.java:56-63 | publishes `fromExceptionWithContext` |
| ExceptionPublishing.ExceptionPublisher.PublishExceptionWithLevel | backend/src/main/java/com/ecommerce/common/service/ExceptionPublisher.java:68-81 | publishes the event with the explicit level and the tags in order |
| ExceptionPublishing.ExceptionPublisher.PublishExceptionWithLevelAndContext | backend/src/main/java/com/ecommerce/common/service/ExceptionPublisher.java:86-100 | the same, starting from the event with context |
| ExceptionPublishing.ExceptionPublisher.PublishCustomError | backend/src/main/java/com/ecommerce/common/service/ExceptionPublisher.java:105-120 | publishes `CustomEvent` |
| ExceptionPublishing.AddTags | backend/src/main/java/com/ecommerce/common/service/ExceptionPublisher.java:74-78 | the tag loop appends the tags in argument order and changes nothing else |
| GlobalHandling.HandlerTable | backend/src/main/java/com/ecommerce/common/exception/GlobalExceptionHandler.java:29-92 | missing resources and failed validation are WARN client errors; every 500 is critical; only the catch-all handler is FATAL and it alone hides the message |
| GlobalHandling.Respond | backend/src/main/java/com/ecommerce/common/exception/GlobalExceptionHandler.java:29-92 | each handler's status; error bodies repeat the status; only the two validation handlers answer a field map, built from the errors |
| GlobalHandling.FieldErrorMapDomain | backend/src/main/java/com/ecommerce/common/exception/GlobalExceptionHandler.java:50-71 | exactly the reported fields have an entry |
| GlobalHandling.FieldErrorMapLastWins | backend/src/main/java/com/ecommerce/common/exception/GlobalExceptionHandler.java:50-71 | a field reported several times keeps its last message |
| GlobalHandling.RequestContextKeys | backend/src/main/java/com/ecommerce/common/exception/GlobalExceptionHandler.java:112-130 | no request, no context; otherwise the six request keys, plus `userId` exactly when a principal is authenticated |
| GlobalHandling.CreateRequestContext | backend/src/main/java/com/ecommerce/common/exception/GlobalExceptionHandler.java:112-130 | the puts into a fresh map give `RequestContext` |
| GlobalHandling.CollectFieldErrors | backend/src/main/java/com/ecommerce/common/exception/GlobalExceptionHandler.java:50-71 | the loop over the errors builds `FieldErrorMap` |
| GlobalHandling.Reported | backend/src/main/java/com/ecommerce/common/exception/GlobalExceptionHandler.java:97-107 | one request, with the handler's level, the request context and the "web-request" tag, when publishing is enabled and the event serializes; none otherwise |
| GlobalHandling.GlobalExceptionHandler.Handle | backend/src/main/java/com/ecommerce/common/exception/GlobalExceptionHandler.java:29-92 | reports as `Reported` says, then answers `Respond` whatever the reporting did |
| GlobalHandling.GlobalExceptionHandler.PublishException | backend/src/main/java/com/ecommerce/common/exception/GlobalExceptionHandler.java:97-107 | publishes only when enabled, with the request context and one tag |
| Orders.SubtotalAppend | src/main/java/com/ecommerce/order/entity/Order.java:91-117 | appending an item adds exactly its total to the subtotal |
| Orders.SubtotalRemoveFirst | src/main/java/com/ecommerce/order/entity/Order.java:91-125 | removing a present item takes exactly its total away |
| Orders.SubtotalNonNegative | src/main/java/com/ecommerce/order/entity/Order.java:91-108 | with no negative item totals the subtotal is never negative |
| Orders.RemoveFirst | src/main/java/com/ecommerce/order/entity/Order.java:119-125 | `List.remove(Object)`: the first occurrence goes, and only it |
| Orders.WithTotals | src/main/java/com/ecommerce/order/entity/Order.java:91-108 | the columns after `calculateTotals`: items, shipping cost and tax defaulted, subtotal summed, total the sum of the three, every other column unchanged |
| Orders.WithTotalsIdempotent | src/main/java/com/ecommerce/order/entity/Order.java:91-108 | recomputing the totals a second time changes nothing |
| Orders.Flushed | src/main/java/com/ecommerce/order/entity/Order.java:85-89 | an edit that changes no column leaves the order exactly as stored; otherwise the edited columns with the totals recomputed and the update instant stamped |
| Orders.Order.constructor | src/main/java/com/ecommerce/order/entity/Order.java:28-60 | a new order is PENDING with payment PENDING, no items and every amount zero |
| Orders.Order.CalculateTotals | src/main/java/com/ecommerce/order/entity/Order.java:91-108 | a null item list becomes empty, null shipping cost or tax becomes zero; subtotal = sum of item totals, total = subtotal + shipping + tax; the columns are `WithTotals` of the old ones |
| Orders.Order.AddItem | src/main/java/com/ecommerce/order/entity/Order.java:110-117 | the item is appended and points at this order; the subtotal grows by its total |
| Orders.Order.RemoveItem | src/main/java/com/ecommerce/order/entity/Order.java:119-125 | with a list: first occurrence removed, back-reference cleared, every column as `WithTotals` of the shortened list gives; with no list no column and no back-reference changes |
| Orders.Order.OnCreate | src/main/java/com/ecommerce/order/entity/Order.java:79-83 | both instants stamped, totals recomputed |
| Orders.Order.OnUpdate | src/main/java/com/ecommerce/order/entity/Order.java:86-89 | the update instant stamped, totals recomputed, every other column kept (`WithTotals`) |
| Orders.Order.Save | src/main/java/com/ecommerce/order/entity/Order.java:85-89 | the hook runs exactly when the edit changed a column: the new columns are `Flushed` of the loaded and the edited ones |
| OrderCalculation.ShippingCost | src/main/java/com/ecommerce/order/service/OrderCalculationService.java:10-13 | free above 100, otherwise the flat charge |
| OrderCalculation.Tax | src/main/java/com/ecommerce/order/service/OrderCalculationService.java:15-18 | 10% of the subtotal: between 0 and the subtotal for a non-negative subtotal |
| OrderCalculation.TotalBounds | src/main/java/com/ecommerce/order/service/OrderCalculationService.java:10-22 | a subtotal of exactly 100 still pays shipping; a non-negative subtotal's total lies between the subtotal and 1.1 x subtotal + flat charge; above 100 it is exactly 1.1 x subtotal |
| BackendOrderCalculation.ShippingCostOf | backend/src/main/java/com/ecommerce/order/service/OrderCalculationService.java:12-15 | the backend rule on an order reads only its subtotal |
| BackendOrderCalculation.AgreesWithSubtotalRules | backend/src/main/java/com/ecommerce/order/service/OrderCalculationService.java:12-24 | the backend's shipping, tax and total equal the older rules applied to the order's subtotal |
| OrderProcessing.PlaceItemsOk | src/main/java/com/ecommerce/order/service/OrderService.java:84-104 | a successful item loop validated every line and added exactly one active reservation per line, in order |
| OrderProcessing.PlaceItemsWithinStock | src/main/java/com/ecommerce/order/service/OrderService.java:84-104 | a successful item loop keeps every product's active reservations within its stock |
| OrderProcessing.SubtotalOfUnpriced | src/main/java/com/ecommerce/order/service/OrderService.java:84-107 | lines without a total price add nothing, so a new order's subtotal is zero |
| OrderProcessing.DeductStock | src/main/java/com/ecommerce/order/service/OrderService.java:134-148 | a successful deduction lowers each product's stock by exactly the quantities ordered of it and touches nothing else (also lines 229-240); this is the intended stock update (see Findings) |
| OrderProcessing.ReleaseAllEffect | src/main/java/com/ecommerce/order/service/OrderService.java:173-176 | afterwards no reservation of an ordered product by the user is active; other users' reservations are untouched |
| OrderProcessing.ReleaseAllKeepsInactive | src/main/java/com/ecommerce/order/service/OrderService.java:173-176 | a release never reactivates a reservation |
| OrderProcessing.OrderService.CreateOrder | src/main/java/com/ecommerce/order/service/OrderService.java:69-124 | an empty request is refused before the user lookup; a null shipping address is a NullPointerException; lines validated and reserved one by one; the saved order (`NewOrder`) carries the address and is PENDING/PENDING with shipping, tax and total from the rules; any failure changes nothing |
| OrderProcessing.OrderService.PlaceOrder | src/main/java/com/ecommerce/order/service/OrderService.java:78-121 | a new order with the converted address gets the lines and is saved; on failure of the item loop the reservations are as before |
| OrderProcessing.OrderService.SaveNewOrder | src/main/java/com/ecommerce/order/service/OrderService.java:107-121 | the two saves: stamped, then costs from the rules on the subtotal, totals recomputed |
| OrderProcessing.OrderService.AddItems | src/main/java/com/ecommerce/order/service/OrderService.java:84-104 | the loop validates, reserves and appends each line; a failure undoes the reservations made so far |
| OrderProcessing.OrderService.DeductForItems | src/main/java/com/ecommerce/order/service/OrderService.java:134-148 | each line's stock is set through `SetStockQuantity` and its reservations released; a failure restores both tables; this is the intended stock update (see Findings) |
| OrderProcessing.OrderService.UpdateOrderStatus | src/main/java/com/ecommerce/order/service/OrderService.java:128-160 | moving to CONFIRMED from another status deducts stock first (the intended stock update, see Findings); the status is set, payment status and tracking number only when given; when that changes a column, the row is written with the recomputed totals and the update instant and every other column kept (`Flushed`); when it changes none, nothing is written |
| OrderProcessing.OrderService.CancelOrder | src/main/java/com/ecommerce/order/service/OrderService.java:164-179 | only a PENDING order can be cancelled; the user's reservations of its products are released and it becomes CANCELLED; every other column is kept, up to the recomputed totals and the update instant |
| OrderProcessing.OrderService.CreatePayment | src/main/java/com/ecommerce/order/service/OrderService.java:183-212 | the payment must be PENDING with no payment id; when PayPal's `createPayment` throws, that failure is returned and the order is unchanged; otherwise the PayPal id, method PAYPAL and PROCESSING are recorded and every other column kept, up to the recomputed totals and the update instant |
| OrderProcessing.OrderService.ProcessSuccessfulPayment | src/main/java/com/ecommerce/order/service/OrderService.java:216-248 | no order with the payment id is "not found", several fail the single-result query; for the one order, "approved" deducts stock (the intended stock update, see Findings) and succeeds exactly when the deduction does, giving `PaymentSettled`; any other state succeeds with the payment FAILED; other orders unchanged, and a failure changes nothing |
| OrderProcessing.OrderService.FindByPaymentId | src/main/java/com/ecommerce/order/service/OrderService.java:217-218 | none is "Order not found for payment", one is that order's key, several are a non-unique-result failure |
| OrderProcessing.OrderService.SettlePayment | src/main/java/com/ecommerce/order/service/OrderService.java:220-247 | the found order: approved payments deduct stock and confirm, other states mark the payment FAILED, saved as `PaymentSettled`; a failed deduction changes nothing |
| OrderProcessing.PaymentSettled | src/main/java/com/ecommerce/order/service/OrderService.java:220-247 | approved: payer, payment instant, COMPLETED and CONFIRMED; otherwise FAILED with "Payment was not approved: " and the state; the order is left exactly as it was when it already held those values, and otherwise stamped with the totals recomputed |
| OrderProcessing.PaymentEdit | src/main/java/com/ecommerce/order/service/OrderService.java:220-247 | approved: only payer, payment instant, payment status COMPLETED and status CONFIRMED change; otherwise only payment status FAILED and the "Payment was not approved: " message |
| OrderProcessing.RepeatedDeclineWritesNothing | src/main/java/com/ecommerce/order/service/OrderService.java:220-247 | a payment declined again in the same state leaves the order as the first decline left it |
| OrderProcessing.RepeatedPaymentFailureWritesNothing | src/main/java/com/ecommerce/order/service/OrderService.java:252-259 | a payment failure repeated with the same message leaves the order as the first left it |
| OrderProcessing.OrderService.HandlePaymentFailure | src/main/java/com/ecommerce/order/service/OrderService.java:252-259 | not found and non-unique as for payment processing; otherwise the one order's payment becomes FAILED with the message, written with the recomputed totals and the update instant only when that changes a column (`Flushed`), every other column kept; no other order changes |
| OrderProcessing.OrderService.HandlePaymentCancellation | src/main/java/com/ecommerce/order/service/OrderService.java:263-270 | the same, with "Payment was cancelled by user" |
| BackendOrderProcessing.OrderNumber | backend/src/main/java/com/ecommerce/order/service/OrderService.java:189-191 | twelve characters: "ORD-" and then eight upper-case characters taken from the UUID |
| BackendOrderProcessing.DeductStock | backend/src/main/java/com/ecommerce/order/service/OrderService.java:152-160 | per line in turn: too little stock fails, otherwise the stock becomes the difference; reservations untouched; this is the intended stock update (see Findings) |
| BackendOrderProcessing.DeductStockEffect | backend/src/main/java/com/ecommerce/order/service/OrderService.java:152-160 | a successful deduction lowers each product's stock by exactly the quantities ordered of it and touches nothing else; this is the intended stock update (see Findings) |
| BackendOrderProcessing.ConfirmTwiceDeductsTwice | backend/src/main/java/com/ecommerce/order/service/OrderService.java:136-166 | nothing stops a second confirmation: the same lines are deducted twice; this is the intended stock update (see Findings) |
| BackendOrderProcessing.OrderService.CreateOrder | backend/src/main/java/com/ecommerce/order/service/OrderService.java:74-132 | as the older service (a null address included), then exactly one shipping record for the order number and one order-created event |
| BackendOrderProcessing.OrderService.PlaceOrder | backend/src/main/java/com/ecommerce/order/service/OrderService.java:81-123 | a new order with the converted address gets the lines and is saved twice (`NewOrder`); a failed item loop leaves the reservations as before |
| BackendOrderProcessing.OrderService.StoreAndAnnounce | backend/src/main/java/com/ecommerce/order/service/OrderService.java:123-129 | the order is kept under the next id, its shipping record created and the event published |
| BackendOrderProcessing.OrderService.SaveNewOrder | backend/src/main/java/com/ecommerce/order/service/OrderService.java:111-123 | the two saves with the backend rules |
| BackendOrderProcessing.OrderService.AddItems | backend/src/main/java/com/ecommerce/order/service/OrderService.java:89-108 | the item loop; a failure undoes the reservations made so far |
| BackendOrderProcessing.OrderService.DeductForItems | backend/src/main/java/com/ecommerce/order/service/OrderService.java:152-160 | the stock loop gives `DeductStock`; a failure restores the stock; this is the intended stock update (see Findings) |
| BackendOrderProcessing.OrderService.UpdateOrderStatus | backend/src/main/java/com/ecommerce/order/service/OrderService.java:136-166 | a CANCELLED order is refused; status, payment status and tracking number all replaced and every other column kept, the row written with the recomputed totals and the update instant only when a column changed (`Flushed`); a CONFIRMED request deducts stock whatever the current status (the intended stock update, see Findings); a null status changes nothing |
| BackendOrderProcessing.OrderService.CancelOrder | backend/src/main/java/com/ecommerce/order/service/OrderService.java:170-187 | only a PENDING order can be cancelled; it becomes CANCELLED with every other column kept (up to the recomputed totals and the update instant), then the user's reservations of its products are released |
| ProductCatalog.ApplyDto | backend/src/main/java/com/ecommerce/products/service/ProductService.java:157-168 | every field overwritten from the DTO, nulls included; the category must exist; `active` is the DTO's or true; the old values play no part |
| ProductCatalog.Updated | backend/src/main/java/com/ecommerce/products/service/ProductService.java:94-100 | an unknown id first, then what `ApplyDto` reports; otherwise only the product under the id is replaced (also lines 157-168) |
| ProductCatalog.StockOnlyUpdateFails | src/main/java/com/ecommerce/order/service/OrderService.java:142-144 | as written, a stock-only DTO is always rejected (null category id); with a category it would still erase name, description, price and SKU |
| ProductCatalog.WithStock | backend/src/main/java/com/ecommerce/order/service/OrderService.java:158-160 | the intended deduction: only the product's stock quantity changes |
| ProductCatalog.CreateSort | backend/src/main/java/com/ecommerce/products/service/ProductService.java:170-181 | no property, no sort; otherwise descending exactly when the direction equals "desc" ignoring case |
| ProductCatalog.CreateSortExamples | backend/src/main/java/com/ecommerce/products/service/ProductService.java:170-181 | "DESC" sorts descending; anything else, a missing direction included, sorts ascending |
| ProductCatalog.PageRequest | backend/src/main/java/com/ecommerce/products/service/ProductService.java:71-75 | page defaults to 0 and size to 10; a negative page or a size below one is rejected |
| ProductCatalog.PagingDefaults | backend/src/main/java/com/ecommerce/products/service/ProductService.java:71-75 | a filter without paging asks for the first page of ten |
| ProductCatalog.ReviewUserName | backend/src/main/java/com/ecommerce/products/service/ProductService.java:198-211 | exactly `Trim` of the full name when it is not blank (so it starts and ends with a non-blank character), otherwise the e-mail |
| ProductCatalog.ReviewUserNameCases | backend/src/main/java/com/ecommerce/products/service/ProductService.java:198-211 | unpadded first and last names show as "first last"; a user with no names shows the e-mail |
| ProductCatalog.ProductService.Find | backend/src/main/java/com/ecommerce/products/service/ProductService.java:31-35 | the stored product, or "Product not found with id: <id>" (also lines 111-114) |
| ProductCatalog.ProductService.CreateProduct | backend/src/main/java/com/ecommerce/products/service/ProductService.java:86-90 | a new product from the DTO under a fresh id; a rejected DTO stores nothing |
| ProductCatalog.ProductService.UpdateProduct | backend/src/main/java/com/ecommerce/products/service/ProductService.java:94-100 | the table becomes `Updated`, or stays as it was on an error |
| ProductCatalog.ProductService.DeleteProduct | backend/src/main/java/com/ecommerce/products/service/ProductService.java:104-108 | an unknown id is an error; otherwise exactly that product is removed |
| ProductCatalog.ProductService.SetStockQuantity | backend/src/main/java/com/ecommerce/order/service/OrderService.java:158-160 | the corrected stock update: only that product's stock changes |
| ProductReservations.ActiveQuantityAppend | backend/src/main/java/com/ecommerce/products/service/ProductReservationService.java:31-56 | a new reservation adds what it holds to the reserved total |
| ProductReservations.ActiveQuantityReplace | backend/src/main/java/com/ecommerce/products/service/ProductReservationService.java:66-74 | replacing a reservation changes the total by the difference of what the two hold |
| ProductReservations.ReserveOutcome | backend/src/main/java/com/ecommerce/products/service/ProductReservationService.java:31-63 | product looked up first, then user; null stock fails; more than stock minus active reservations is refused; otherwise an active reservation expiring 30 minutes after now |
| ProductReservations.ReservePreservesWithinStock | backend/src/main/java/com/ecommerce/products/service/ProductReservationService.java:31-56 | a successful reservation keeps every product's reservations within its stock |
| ProductReservations.Released | backend/src/main/java/com/ecommerce/products/service/ProductReservationService.java:66-74 | an active reservation becomes inactive; an inactive one stays as it is |
| ProductReservations.ReleaseIdempotent | backend/src/main/java/com/ecommerce/products/service/ProductReservationService.java:66-74 | releasing twice is releasing once; a release frees exactly what the reservation held |
| ProductReservations.DeactivatedFor | backend/src/main/java/com/ecommerce/products/service/ProductReservationService.java:77-79 | exactly the active reservations of that product by that user become inactive |
| ProductReservations.DeactivatedForLeavesNoneActive | backend/src/main/java/com/ecommerce/products/service/ProductReservationService.java:77-79 | afterwards none of that user's reservations of the product is active; other users keep theirs |
| ProductReservations.DeactivatedExpired | backend/src/main/java/com/ecommerce/products/service/ProductReservationService.java:83-86 | exactly the active reservations expiring strictly before now become inactive |
| ProductReservations.CleanupKeepsOnlyLive | backend/src/main/java/com/ecommerce/products/service/ProductReservationService.java:83-86 | afterwards every active reservation is within its time; one expiring exactly now stays active |
| ProductReservations.ProductReservationService.Reserve | backend/src/main/java/com/ecommerce/products/service/ProductReservationService.java:31-63 | stores the outcome's reservation under the next id, or nothing |
| ProductReservations.ProductReservationService.Release | backend/src/main/java/com/ecommerce/products/service/ProductReservationService.java:66-74 | an unknown id is an error; otherwise the table becomes `Released` there |
| ProductReservations.ProductReservationService.ReleaseForOrder | backend/src/main/java/com/ecommerce/products/service/ProductReservationService.java:77-79 | the table becomes `DeactivatedFor` |
| ProductReservations.ProductReservationService.CleanupExpired | backend/src/main/java/com/ecommerce/products/service/ProductReservationService.java:83-86 | the table becomes `DeactivatedExpired` |
| OrderReservations.ReservationNumber | backend/src/main/java/com/ecommerce/order/service/ReservationService.java:127-129 | "RES-" followed by eight upper-case characters from the UUID |
| OrderReservations.IndexOfNumber | backend/src/main/java/com/ecommerce/order/service/ReservationService.java:42-46 | the position of the reservation with that number, or none when no reservation has it |
| OrderReservations.ConfirmCheck | backend/src/main/java/com/ecommerce/order/service/ReservationService.java:79-98 | it must be ACTIVE, then now must not be after its expiry |
| OrderReservations.ConfirmWindow | backend/src/main/java/com/ecommerce/order/service/ReservationService.java:79-98 | confirmable up to and including the expiry instant; CONFIRMED, CANCELLED and EXPIRED never |
| OrderReservations.ExpireAll | backend/src/main/java/com/ecommerce/order/service/ReservationService.java:113-125 | exactly the ACTIVE reservations expiring before now become EXPIRED and are stamped |
| OrderReservations.ExpireAllIdempotent | backend/src/main/java/com/ecommerce/order/service/ReservationService.java:113-125 | a second cleanup at the same instant changes nothing; numbers stay unique |
| OrderReservations.Saved | backend/src/main/java/com/ecommerce/order/entity/Reservation.java:51-54 | an unchanged reservation is not written; a changed one is written with the update instant stamped |
| OrderReservations.Cancelled | backend/src/main/java/com/ecommerce/order/service/ReservationService.java:101-110 | CANCELLED, every other column kept, and the update instant moved exactly when the status was not CANCELLED before |
| OrderReservations.CancelIdempotent | backend/src/main/java/com/ecommerce/order/service/ReservationService.java:101-110 | cancelling twice is cancelling once |
| OrderReservations.ReservationService.CreateReservation | backend/src/main/java/com/ecommerce/order/service/ReservationService.java:58-76 | a new ACTIVE reservation holding 15 minutes after now; null email or amount, or a taken number, saves nothing |
| OrderReservations.ReservationService.ConfirmReservation | backend/src/main/java/com/ecommerce/order/service/ReservationService.java:79-98 | not found, then not ACTIVE, then expired; otherwise only that reservation becomes CONFIRMED |
| OrderReservations.ReservationService.CancelReservation | backend/src/main/java/com/ecommerce/order/service/ReservationService.java:101-110 | an unknown number fails and changes nothing; any found reservation becomes CANCELLED whatever its status (`Cancelled`), stamped only when it was not CANCELLED already |
| OrderReservations.ReservationService.CleanupExpiredReservations | backend/src/main/java/com/ecommerce/order/service/ReservationService.java:113-125 | the loop gives `ExpireAll` |
| ShippingRecords.Blank | backend/src/main/java/com/ecommerce/shipping/service/ShippingService.java:37-38 | a fresh record carries only its order id; every other column, the status included, is null |
| ShippingRecords.IndexOfOrder | backend/src/main/java/com/ecommerce/shipping/repository/ShippingInfoRepository.java:13 | the position of the first record for the order, or none when no record has it |
| ShippingRecords.IndexOfOrderUnique | backend/src/main/java/com/ecommerce/shipping/repository/ShippingInfoRepository.java:13 | with one record per order id, the record found is the only one |
| ShippingRecords.TrackingMatches | backend/src/main/java/com/ecommerce/shipping/repository/ShippingInfoRepository.java:16-18 | the positions of all records whose tracking number or shipment id matches, in table order |
| ShippingRecords.FindByTracking | backend/src/main/java/com/ecommerce/shipping/repository/ShippingInfoRepository.java:16-18 | no match gives nothing, one match gives it, several matches fail as a single-result query does |
| BackendShipping.WithLabel | backend/src/main/java/com/ecommerce/shipping/service/ShippingService.java:47-70 | the nine label columns take the given values and the status becomes LABEL_CREATED; order id, rate and transaction ids are kept |
| BackendShipping.Created | backend/src/main/java/com/ecommerce/shipping/service/ShippingService.java:32-44 | unchanged when the order already has a record; otherwise one PENDING record appended |
| BackendShipping.Upserted | backend/src/main/java/com/ecommerce/shipping/service/ShippingService.java:47-70 | the order's record, or a new one, carries the label with LABEL_CREATED; every other record is kept |
| BackendShipping.CreateIdempotent | backend/src/main/java/com/ecommerce/shipping/service/ShippingService.java:32-44 | creating twice is creating once |
| BackendShipping.UpsertThenFind | backend/src/main/java/com/ecommerce/shipping/service/ShippingService.java:19-23 | after an upsert the order has exactly one record and the lookup finds the label (also lines 47-70) |
| BackendShipping.CreateAfterUpsertKeepsLabel | backend/src/main/java/com/ecommerce/shipping/service/ShippingService.java:32-70 | a later create for an order with a label does not reset it to PENDING |
| BackendShipping.ShippingService.GetShippingInfo | backend/src/main/java/com/ecommerce/shipping/service/ShippingService.java:19-23 | the order's record, or "Shipping info not found for order: <id>" |
| BackendShipping.ShippingService.GetShippingInfoByTracking | backend/src/main/java/com/ecommerce/shipping/service/ShippingService.java:25-29 | the query with a null shipment id, which therefore matches on tracking number only |
| BackendShipping.ShippingService.CreateShippingInfo | backend/src/main/java/com/ecommerce/shipping/service/ShippingService.java:32-44 | the table becomes `Created` |
| BackendShipping.ShippingService.UpdateShippingInfo | backend/src/main/java/com/ecommerce/shipping/service/ShippingService.java:47-70 | the table becomes `Upserted` |
| SrcShipping.LabelRecord | src/main/java/com/ecommerce/shipping/service/ShippingService.java:28-47 | order and rate id from the request; transaction id, tracking number and URLs from the response; status LABEL_CREATED; nothing else set |
| SrcShipping.ShippingService.GenerateShippingLabel | src/main/java/com/ecommerce/shipping/service/ShippingService.java:28-47 | a duplicate is refused before the call; a failed call stores nothing; otherwise exactly one LABEL_CREATED record is added and the response returned |
| SrcShipping.ShippingService.GetShippingInfo | src/main/java/com/ecommerce/shipping/service/ShippingService.java:49-53 | the order's record or a not-found error |
| SrcShipping.ShippingService.UpdateShippingStatus | src/main/java/com/ecommerce/shipping/service/ShippingService.java:56-61 | a missing record is an error that changes nothing; otherwise only that record's status changes |
| SrcShipping.StatusUpdateKeepsColumns | src/main/java/com/ecommerce/shipping/service/ShippingService.java:56-61 | every other column of every record, and the set of order ids, stay as they were |
| JsonNodes.AsText | backend/src/main/java/com/ecommerce/shipping/event/OrderStatusUpdateListener.java:27-30 | a scalar's text, "null" for JSON null, "" for an object |
| JsonNodes.Get | backend/src/main/java/com/ecommerce/shipping/controller/SnsWebhookController.java:29-37 | an object's field, or Java null for a missing field or a non-object |
| JsonNodes.PathText | backend/src/main/java/com/ecommerce/shipping/controller/ShippoWebhookController.java:32-34 | the missing node reads as "" |
| OrderStatusListener.StatusNameIsUpper | backend/src/main/java/com/ecommerce/shipping/event/OrderStatusUpdateListener.java:58-73 | every status name is already upper case |
| OrderStatusListener.MapStatusNameRoundTrip | backend/src/main/java/com/ecommerce/shipping/event/OrderStatusUpdateListener.java:58-73 | a status's own name maps back to it |
| OrderStatusListener.MapToShippingStatusExactly | backend/src/main/java/com/ecommerce/shipping/event/OrderStatusUpdateListener.java:58-73 | a status other than PENDING exactly when the text is its name in some mix of cases; texts equal ignoring case map alike |
| OrderStatusListener.ReadMessage | backend/src/main/java/com/ecommerce/shipping/event/OrderStatusUpdateListener.java:26-30 | an unparsable body, or one without orderId or status, fails |
| OrderStatusListener.Applied | backend/src/main/java/com/ecommerce/shipping/event/OrderStatusUpdateListener.java:34-44 | the mapped status, and the tracking number only when a non-empty one is given |
| OrderStatusListener.AfterMessage | backend/src/main/java/com/ecommerce/shipping/event/OrderStatusUpdateListener.java:22-56 | the order's record updated, or the table untouched when it has none |
| OrderStatusListener.AfterMessageUpdatesTheOrder | backend/src/main/java/com/ecommerce/shipping/event/OrderStatusUpdateListener.java:22-56 | with one record per order exactly that record changes, and the table keeps one record per order |
| OrderStatusListener.OrderStatusUpdateListener.HandleOrderStatusUpdate | backend/src/main/java/com/ecommerce/shipping/event/OrderStatusUpdateListener.java:22-56 | an unreadable message fails and changes nothing; a readable one gives `AfterMessage`; a missing record is no error |
| ShippoWebhook.MapShippoStatus | backend/src/main/java/com/ecommerce/shipping/controller/ShippoWebhookController.java:64-76 | the Shippo status text, upper-cased, as a shipping status |
| ShippoWebhook.MapShippoStatusTable | backend/src/main/java/com/ecommerce/shipping/controller/ShippoWebhookController.java:64-76 | the four Shippo statuses in any case, and PENDING for every other text |
| ShippoWebhook.WebhookOutcome | backend/src/main/java/com/ecommerce/shipping/controller/ShippoWebhookController.java:25-62 | unparsable payload or several matches: 500, no change; no match: 200, no change; one match gets the mapped status |
| ShippoWebhook.WebhookTouchesOnlyTheMatch | backend/src/main/java/com/ecommerce/shipping/controller/ShippoWebhookController.java:25-62 | no record's status moves unless it is the only one answering the query |
| ShippoWebhook.ShippoWebhookController.HandleShippoWebhook | backend/src/main/java/com/ecommerce/shipping/controller/ShippoWebhookController.java:25-62 | reply and table are those of `WebhookOutcome` |
| SnsWebhook.RouteOf | backend/src/main/java/com/ecommerce/shipping/controller/SnsWebhookController.java:21-53 | subscription confirmations need a SubscribeURL; notifications need a Message and are forwarded only under subject "OrderStatusUpdated"; other types are acknowledged |
| SnsWebhook.SubjectText | backend/src/main/java/com/ecommerce/shipping/controller/SnsWebhookController.java:37 | only a scalar subject can read as "OrderStatusUpdated" |
| SnsWebhook.SnsWebhookController.HandleSnsWebhook | backend/src/main/java/com/ecommerce/shipping/controller/SnsWebhookController.java:21-53 | the listener runs only on a forwarded notification; any failure is a 500 |
| LambdaModels.StatusUpdate | shipping-lambda/src/main/java/com/ecommerce/lambda/model/OrderStatusUpdateEvent.java:46-50 | the three-argument constructor sets order id, status and tracking number and leaves every other field null |
| OrderDispatch.StatusMessage | shipping-lambda/src/main/java/com/ecommerce/lambda/service/OrderDispatcherService.java:123-126 | the message wraps the order JSON and the status text |
| OrderDispatch.StatusMessageInjective | shipping-lambda/src/main/java/com/ecommerce/lambda/service/OrderDispatcherService.java:123-126 | two status updates about one order differ when their statuses do |
| OrderDispatch.ParcelOf | shipping-lambda/src/main/java/com/ecommerce/lambda/service/OrderDispatcherService.java:132-157 | a cube of side cbrt(500 cm³ per unit) weighing 1 kg per unit, units "cm" and "kg"; no item list counts as no units; a null quantity is a NullPointerException |
| OrderDispatch.CalculateParcelDimensions | shipping-lambda/src/main/java/com/ecommerce/lambda/service/OrderDispatcherService.java:132-157 | the item-by-item loop yields `ParcelOf` |
| OrderDispatch.PaymentEvent | shipping-lambda/src/main/java/com/ecommerce/lambda/service/OrderDispatcherService.java:66-95 | ids and payment fields from the capture, method PAYPAL, currency USD, email from the user id, street as customer name, fixed placeholders when the address is missing |
| OrderDispatch.Announce | shipping-lambda/src/main/java/com/ecommerce/lambda/service/OrderDispatcherService.java:102-130 | the first publication's failure fails the call; the status update's failure is only logged |
| OrderDispatch.ProcessOrder | shipping-lambda/src/main/java/com/ecommerce/lambda/service/OrderDispatcherService.java:34-115 | a null order is a NullPointerException in the handler; a missing total or number, a capture whose state is null, or any failure afterwards, is "Failed to process order" and publishes nothing; otherwise the announced messages |
| OrderDispatch.InvalidOrderPublishesNothing | shipping-lambda/src/main/java/com/ecommerce/lambda/service/OrderDispatcherService.java:37-45 | an order without total or number publishes nothing and never reaches PayPal |
| OrderDispatch.ApprovedPublishesTwoInOrder | shipping-lambda/src/main/java/com/ecommerce/lambda/service/OrderDispatcherService.java:64-104 | a capture whose state is "approved" publishes the payment-completed event, then PAYMENT_COMPLETED, and nothing else |
| OrderDispatch.DeclinedPublishesOrderThenFailure | shipping-lambda/src/main/java/com/ecommerce/lambda/service/OrderDispatcherService.java:105-108 | a capture in any other non-null state sends the order to the suspicious topic, then PAYMENT_FAILED |
| OrderDispatch.StatusUpdateFailureSwallowed | shipping-lambda/src/main/java/com/ecommerce/lambda/service/OrderDispatcherService.java:123-130 | once the first message is out, the call succeeds whatever the status update does |
| OrderDispatch.NeverSuspicious | shipping-lambda/src/main/java/com/ecommerce/lambda/service/OrderDispatcherService.java:49-52 | no status update says PAYMENT_SUSPICIOUS (also lines 117-121) |
| OrderDelivery.ParcelDefaults | shipping-lambda/src/main/java/com/ecommerce/lambda/service/OrderDeliveryService.java:21-57 | null dimensions and weight become 0.0, null units "cm" and "kg"; present values are kept |
| OrderDelivery.ParcelDefaultsIdempotent | shipping-lambda/src/main/java/com/ecommerce/lambda/service/OrderDeliveryService.java:21-57 | filling the gaps twice is filling them once |
| OrderDelivery.ReadyForDelivery | shipping-lambda/src/main/java/com/ecommerce/lambda/service/OrderDeliveryService.java:21-57 | identity, recipient, total and currency copied, the parcel defaulted, the phone left null |
| OrderDelivery.PrepareOrderForDelivery | shipping-lambda/src/main/java/com/ecommerce/lambda/service/OrderDeliveryService.java:21-57 | exactly one publication, the serialized event on the delivery topic; a null event is a NullPointerException; other failures are "Failed to prepare order for delivery" |
| AddressFormatting.ConvertToShippoAddress | shipping-lambda/src/main/java/com/ecommerce/lambda/util/AddressConverter.java:16-30 | null for null; otherwise name from the customer name, first street line from the address, the rest copied |
| AddressFormatting.Pieces | shipping-lambda/src/main/java/com/ecommerce/lambda/util/AddressConverter.java:37-64 | the five address fields in printing order with their separators |
| AddressFormatting.FormatAddressForEmail | shipping-lambda/src/main/java/com/ecommerce/lambda/util/AddressConverter.java:37-64 | the builder loop yields the joined pieces |
| AddressFormatting.FormattedAddressAllNull | shipping-lambda/src/main/java/com/ecommerce/lambda/util/AddressConverter.java:37-64 | no fields print as "" |
| AddressFormatting.FormattedAddressAllPresent | shipping-lambda/src/main/java/com/ecommerce/lambda/util/AddressConverter.java:37-64 | all fields print as "street, city, state zip, country" |
| AddressFormatting.JoinedExtends | shipping-lambda/src/main/java/com/ecommerce/lambda/util/AddressConverter.java:37-64 | appending never changes what was written before |
| AddressFormatting.JoinedStartsWithAValue | shipping-lambda/src/main/java/com/ecommerce/lambda/util/AddressConverter.java:37-64 | the output never starts with a separator |
| ShippoDelivery.CreateParcelDtoFromEvent | shipping-lambda/src/main/java/com/ecommerce/lambda/service/ShippoService.java:156-165 | null dimensions and weight become 0.0, units default to "cm" and "kg" |
| ShippoDelivery.ShipmentFor | shipping-lambda/src/main/java/com/ecommerce/lambda/service/ShippoService.java:55-66 | the configured sender, the event's recipient and its one parcel |
| ShippoDelivery.RetriesAsWritten | shipping-lambda/src/main/java/com/ecommerce/lambda/service/ShippoService.java:97-98 | retried when the message contains "429" or "5"; a null message is a NullPointerException |
| ShippoDelivery.ClientErrorRetriedAsWritten | shipping-lambda/src/main/java/com/ecommerce/lambda/service/ShippoService.java:97-134 | a 405 reply is retried as written, yet is not a temporary failure |
| ShippoDelivery.Delays | shipping-lambda/src/main/java/com/ecommerce/lambda/service/ShippoService.java:87-110 | n waits, doubling from the first |
| ShippoDelivery.RetryFromShape | shipping-lambda/src/main/java/com/ecommerce/lambda/service/ShippoService.java:85-119 | from call k: at most MAX_RETRIES + 1 calls, doubling waits, only temporary failures retried, outcome of the last call; this is the intended retry test (see Findings) |
| ShippoDelivery.RetryBounds | shipping-lambda/src/main/java/com/ecommerce/lambda/service/ShippoService.java:85-119 | at most four calls, waits 1000, 2000, 4000 ms, a non-temporary failure stops at once (constants at lines 18-19) |
| ShippoDelivery.DeliveryOutcome | shipping-lambda/src/main/java/com/ecommerce/lambda/service/ShippoService.java:53-83 | a null event is a NullPointerException; failed shipment, a status other than null or SUCCESS, or a failed publish is "Failed to process delivery"; this is the intended retry test (see Findings) |
| ShippoDelivery.DeliverySuccessPublishesTracking | shipping-lambda/src/main/java/com/ecommerce/lambda/service/ShippoService.java:71-77 | success publishes exactly SHIPPING_INITIATED with the response's tracking number (also lines 140-149) |
| ShippoDelivery.ResponseStatusDecides | shipping-lambda/src/main/java/com/ecommerce/lambda/service/ShippoService.java:71-74 | a status other than SUCCESS publishes nothing; a null status counts as SUCCESS |
| ShippoDelivery.ShippoService.CreateShipmentWithRetry | shipping-lambda/src/main/java/com/ecommerce/lambda/service/ShippoService.java:85-119 | the while-true loop returns what the retry specification gives; this is the intended retry test (see Findings) |
| ShippoDelivery.ShippoService.ProcessDelivery | shipping-lambda/src/main/java/com/ecommerce/lambda/service/ShippoService.java:53-83 | the publications and outcome are those of `DeliveryOutcome`; this is the intended retry test (see Findings) |
| EmailTexts.StatusDisplayName | shipping-lambda/src/main/java/com/ecommerce/lambda/service/SimpleEmailService.java:141-150 | the customer-facing name of each known status; any other status is shown as it is |
| EmailTexts.StatusDescription | shipping-lambda/src/main/java/com/ecommerce/lambda/service/SimpleEmailService.java:152-161 | one sentence per known status, a generic one otherwise |
| EmailTexts.StatusDisplayNames | shipping-lambda/src/main/java/com/ecommerce/lambda/service/SimpleEmailService.java:141-150 | the known statuses get pairwise different names |
| EmailTexts.SubjectsCarryOrderNumber | shipping-lambda/src/main/java/com/ecommerce/lambda/service/SimpleEmailService.java:26-113 | each subject determines the order number it was made from |
| EmailTexts.Send | shipping-lambda/src/main/java/com/ecommerce/lambda/service/SimpleEmailService.java:115-139 | SES accepts the e-mail, or the call fails with the given failure |
| EmailTexts.SendPaymentCompletedEmail | shipping-lambda/src/main/java/com/ecommerce/lambda/service/SimpleEmailService.java:26-54 | one e-mail to the customer under the payment subject, carrying name, number, currency and payment id in that order; Ok exactly when SES accepts it, otherwise the payment e-mail failure |
| EmailTexts.SendOrderReadyForDeliveryEmail | shipping-lambda/src/main/java/com/ecommerce/lambda/service/SimpleEmailService.java:57-84 | one e-mail to the customer under the ready subject, carrying name, number and the printed address in that order; Ok exactly when SES accepts it, otherwise the ready e-mail failure |
| EmailTexts.SendOrderStatusUpdatedEmail | shipping-lambda/src/main/java/com/ecommerce/lambda/service/SimpleEmailService.java:87-113 | one e-mail to the customer under the status subject, with number, display name, time and description in that order, Ok exactly when SES accepts it; a null status sends nothing and fails |
| Notifications.IndexOf | shipping-lambda/src/main/java/com/ecommerce/lambda/service/NotificationService.java:197-204 | the first position of the character, or -1 |
| Notifications.LastIndexOf | shipping-lambda/src/main/java/com/ecommerce/lambda/service/NotificationService.java:197-204 | the last position of the character, or -1 |
| Notifications.MatchesFirstAtLastDotIffShape | shipping-lambda/src/main/java/com/ecommerce/lambda/service/NotificationService.java:197-204 | the e-mail pattern matches exactly when its split at the first '@' and the last dot fits |
| Notifications.ShapeIsNotBlank | shipping-lambda/src/main/java/com/ecommerce/lambda/service/NotificationService.java:197-204 | a string the pattern accepts is not blank |
| Notifications.IsValidEmail | shipping-lambda/src/main/java/com/ecommerce/lambda/service/NotificationService.java:197-204 | null and blank rejected; otherwise accepted exactly when the pattern matches |
| Notifications.AcceptsCustomerAddress | shipping-lambda/src/main/java/com/ecommerce/lambda/service/NotificationService.java:197-204 | a plain customer address is accepted |
| Notifications.RejectsWithoutAt | shipping-lambda/src/main/java/com/ecommerce/lambda/service/NotificationService.java:197-204 | no '@', no match |
| Notifications.RejectsOneLetterDomain | shipping-lambda/src/main/java/com/ecommerce/lambda/service/NotificationService.java:197-204 | a one-letter top-level domain is rejected |
| Notifications.ValidatePaymentCompleted | shipping-lambda/src/main/java/com/ecommerce/lambda/service/NotificationService.java:146-160 | number, e-mail and name non-blank, in that order, then the pattern; each failure has its own message |
| Notifications.ValidateReadyForDelivery | shipping-lambda/src/main/java/com/ecommerce/lambda/service/NotificationService.java:162-179 | the same, plus a non-null street line before the pattern |
| Notifications.ValidateStatusUpdate | shipping-lambda/src/main/java/com/ecommerce/lambda/service/NotificationService.java:181-195 | number, e-mail and status non-blank, then the pattern; no name needed |
| Notifications.StatusUpdateIgnoresName | shipping-lambda/src/main/java/com/ecommerce/lambda/service/NotificationService.java:181-195 | the customer name never changes the verdict |
| Notifications.ConvertToDeliveryEvent | shipping-lambda/src/main/java/com/ecommerce/lambda/service/NotificationService.java:209-225 | id, number, e-mail and name copied; five fixed placeholders for the address; nothing else |
| Notifications.ConvertedEventValidates | shipping-lambda/src/main/java/com/ecommerce/lambda/service/NotificationService.java:100-120 | a valid status update converts into a valid delivery event (also lines 162-179, 209-225) |
| Notifications.Wrapped | shipping-lambda/src/main/java/com/ecommerce/lambda/service/NotificationService.java:23-43 | the same sends, with any failure replaced by the operation's message |
| Notifications.ProcessPaymentCompleted | shipping-lambda/src/main/java/com/ecommerce/lambda/service/NotificationService.java:23-43 | a null or invalid event sends nothing; a valid one sends exactly the payment e-mail |
| Notifications.ProcessOrderReadyForDelivery | shipping-lambda/src/main/java/com/ecommerce/lambda/service/NotificationService.java:48-69 | the same with the delivery validator and e-mail |
| Notifications.ProcessStatusEvent | shipping-lambda/src/main/java/com/ecommerce/lambda/service/NotificationService.java:74-144 | the send runs only on a valid event; failures are wrapped |
| Notifications.ProcessOrderStatusUpdated | shipping-lambda/src/main/java/com/ecommerce/lambda/service/NotificationService.java:74-95 | a valid update sends exactly the status e-mail |
| Notifications.ProcessShippingInitiated | shipping-lambda/src/main/java/com/ecommerce/lambda/service/NotificationService.java:100-120 | a valid update sends the ready-for-delivery e-mail with the placeholder address; a null event is wrapped |
| Notifications.ProcessShippingError | shipping-lambda/src/main/java/com/ecommerce/lambda/service/NotificationService.java:125-144 | a valid update sends the status e-mail |
| Notifications.ShippingErrorIsStatusEmail | shipping-lambda/src/main/java/com/ecommerce/lambda/service/NotificationService.java:74-95 | the shipping error e-mail is the status update e-mail (also lines 125-144) |
| Notifications.SucceedsIffValid | shipping-lambda/src/main/java/com/ecommerce/lambda/service/NotificationService.java:23-144 | with SES accepting, each operation succeeds exactly on valid events |
| NotificationRouting.RouteOf | shipping-lambda/src/main/java/com/ecommerce/lambda/NotificationHandler.java:78-92 | payment completed, then ready for delivery, then status updated, else skipped |
| NotificationRouting.Deliver | shipping-lambda/src/main/java/com/ecommerce/lambda/NotificationHandler.java:80-89 | an undecodable message sends nothing and fails; otherwise the routed operation |
| NotificationRouting.ProcessRecord | shipping-lambda/src/main/java/com/ecommerce/lambda/NotificationHandler.java:68-101 | unknown topics are skipped with no call; a null topic fails, and so does a null or unreadable message on a routed topic, sending nothing; otherwise exactly the routed operation (payment, delivery or status e-mail), wrapped as "Failed to process notification record" |
| NotificationRouting.HandleAll | shipping-lambda/src/main/java/com/ecommerce/lambda/NotificationHandler.java:51-66 | records in order, stopping at the first failure, wrapped as "Failed to process SNS notification event" |
| NotificationRouting.HandleRequest | shipping-lambda/src/main/java/com/ecommerce/lambda/NotificationHandler.java:51-66 | the loop over the records gives `HandleAll`; a null event fails, and an empty list sends nothing and succeeds |
| NotificationRouting.HandleAllOkIffEachOk | shipping-lambda/src/main/java/com/ecommerce/lambda/NotificationHandler.java:51-66 | the request succeeds exactly when each record does |
| NotificationRouting.HandleAllStopsAtFirstFailure | shipping-lambda/src/main/java/com/ecommerce/lambda/NotificationHandler.java:55-65 | records after the first failure are never processed |
| NotificationRouting.UnknownTopicsSendNothing | shipping-lambda/src/main/java/com/ecommerce/lambda/NotificationHandler.java:90-92 | records of unknown topics send nothing and do not fail |
| ProductImages.ClearMain | backend/src/main/java/com/ecommerce/products/service/ProductImageService.java:47-50 | every main image of the product loses its flag; nothing else changes |
| ProductImages.UploadedKeepsOneMain | backend/src/main/java/com/ecommerce/products/service/ProductImageService.java:39-62 | uploads keep at most one main image per product; the new image is main exactly when asked; a non-main upload leaves every other image alone |
| ProductImages.MainChosenIsOnlyMain | backend/src/main/java/com/ecommerce/products/service/ProductImageService.java:83-99 | the chosen image is its product's only main image; other products untouched; only main flags change |
| ProductImages.MainChosenIdempotent | backend/src/main/java/com/ecommerce/products/service/ProductImageService.java:83-99 | choosing the same image twice changes nothing the second time |
| ProductImages.ProductImageService.ProductImageIds | backend/src/main/java/com/ecommerce/products/service/ProductImageService.java:31-35 | exactly the ids of the product's images |
| ProductImages.ProductImageService.UploadImage | backend/src/main/java/com/ecommerce/products/service/ProductImageService.java:39-62 | an unknown product stores nothing; a failed upload to S3 fails with that failure and stores nothing; otherwise one image under a fresh id, after clearing main flags when it is to be main; the one-main invariant is kept |
| ProductImages.ProductImageService.DeleteImage | backend/src/main/java/com/ecommerce/products/service/ProductImageService.java:66-79 | an unknown image or one of another product is an error that deletes nothing; a failed S3 deletion fails with that failure and keeps the row; otherwise exactly that image goes |
| ProductImages.ProductImageService.SetMainImage | backend/src/main/java/com/ecommerce/products/service/ProductImageService.java:83-99 | the same two errors; otherwise the image becomes its product's only main image |
| ProductReviews.AuthenticatedUser | src/main/java/com/ecommerce/products/service/ProductReviewService.java:77-80 | the principal's user id, or not found |
| ProductReviews.OwnedReview | src/main/java/com/ecommerce/products/service/ProductReviewService.java:64-95 | review missing, principal unknown, or not the author: an error; otherwise the review |
| ProductReviews.UpdatedReviews | src/main/java/com/ecommerce/products/service/ProductReviewService.java:64-75 | the owner's review gets the new rating and comment; nothing else changes |
| ProductReviews.DeletedReviews | src/main/java/com/ecommerce/products/service/ProductReviewService.java:90-98 | exactly the owner's review is removed |
| ProductReviews.OnlyAuthorChanges | src/main/java/com/ecommerce/products/service/ProductReviewService.java:82-86 | a non-author gets an error from update and delete |
| ProductReviews.UpdateWithSameValues | src/main/java/com/ecommerce/products/service/ProductReviewService.java:64-75 | updating with the stored values changes nothing |
| ProductReviews.ProductReviewService.ReviewIds | src/main/java/com/ecommerce/products/service/ProductReviewService.java:32-44 | exactly the ids of the reviews of the product, or of the user |
| ProductReviews.ProductReviewService.CreateReview | src/main/java/com/ecommerce/products/service/ProductReviewService.java:48-60 | the principal must be a user and the product must exist; the principal becomes the author of one new review |
| ProductReviews.ProductReviewService.UpdateReview | src/main/java/com/ecommerce/products/service/ProductReviewService.java:64-75 | the table becomes `UpdatedReviews`, unchanged on an error |
| ProductReviews.ProductReviewService.DeleteReview | src/main/java/com/ecommerce/products/service/ProductReviewService.java:90-98 | the table becomes `DeletedReviews`, unchanged on an error |
| Users.ParseRole | backend/src/main/java/com/ecommerce/user/service/UserService.java:247-252 | null fails on upper-casing; a name that is no role fails; otherwise the role named |
| Users.ParseRoleIgnoresCase | backend/src/main/java/com/ecommerce/user/service/UserService.java:247-252 | a string names a role exactly when it equals that role's name ignoring case |
| Users.NewUser | backend/src/main/java/com/ecommerce/user/service/UserService.java:50-57 | the new user is disabled, carries the Cognito id and the registration's e-mail and names, has the default role USER (User.java line 36) and the creation instant |
| Users.Toggled | backend/src/main/java/com/ecommerce/user/service/UserService.java:255-259 | `enabled` changes to its negation and the save stamps the update instant (User.java lines 53-56); nothing else changes |
| Users.ToggleTwice | backend/src/main/java/com/ecommerce/user/service/UserService.java:255-259 | toggling twice restores the user up to the update instant |
| Users.ProfileUpdated | backend/src/main/java/com/ecommerce/user/service/UserService.java:105-119 | names replaced (null included); the address only when supplied; the update instant stamped exactly when something changed |
| Users.ProfileUpdateIdempotent | backend/src/main/java/com/ecommerce/user/service/UserService.java:105-119 | a second identical update writes nothing, so the instant of the first stays |
| Users.UserProfileUpdated | backend/src/main/java/com/ecommerce/user/service/UserService.java:194-206 | names and update time replaced, nothing else |
| Users.UserService.UserByEmail | backend/src/main/java/com/ecommerce/user/service/UserService.java:227-230 | the user with that e-mail, or not found |
| Users.UserService.UserById | backend/src/main/java/com/ecommerce/user/service/UserService.java:233-236 | the user with that id, or not found |
| Users.UserService.RegisterUser | backend/src/main/java/com/ecommerce/user/service/UserService.java:34-63 | a Cognito rejection or a taken e-mail stores nothing and fails as "Failed to register user: ..."; otherwise one disabled USER added (`NewUser`) |
| Users.UserService.ConfirmRegistration | backend/src/main/java/com/ecommerce/user/service/UserService.java:66-82 | unknown e-mail fails before Cognito; a Cognito failure changes nothing; otherwise the user is enabled and, if that changed the row, stamped |
| Users.UserService.UpdateProfile | backend/src/main/java/com/ecommerce/user/service/UserService.java:105-119 | an unknown user fails as "User not found"; otherwise `ProfileUpdated`, stamp included |
| Users.UserService.UpdateUserProfile | backend/src/main/java/com/ecommerce/user/service/UserService.java:194-206 | an unknown e-mail fails; otherwise `UserProfileUpdated` |
| Users.UserService.UpdateUserRole | backend/src/main/java/com/ecommerce/user/service/UserService.java:247-252 | user looked up, then role parsed; either failure changes nothing; otherwise only the role changes, plus the update instant when the role is new |
| Users.UserService.ToggleUserStatus | backend/src/main/java/com/ecommerce/user/service/UserService.java:255-259 | an unknown id fails; otherwise the user is `Toggled` at the given instant |
| LocalUsers.AccessToken | backend/src/main/java/com/ecommerce/user/controller/LocalUserController.java:76 | the token is the prefix, the e-mail, '-' and the time, in that order |
| LocalUsers.Fields | backend/src/main/java/com/ecommerce/user/controller/LocalUserController.java:126 | the fields between the separators join back to the text, and none holds '-' |
| LocalUsers.DropTrailingEmpty | backend/src/main/java/com/ecommerce/user/controller/LocalUserController.java:126 | the trailing empty fields removed, as `split` does |
| LocalUsers.TokenEmail | backend/src/main/java/com/ecommerce/user/controller/LocalUserController.java:120-139 | no token, a wrong prefix or fewer than two fields name no one; otherwise every field but the last, rejoined with '-' |
| LocalUsers.JoinFields | backend/src/main/java/com/ecommerce/user/controller/LocalUserController.java:126-139 | joining the fields gives back the text |
| LocalUsers.FieldsAppend | backend/src/main/java/com/ecommerce/user/controller/LocalUserController.java:126 | a last field without '-' is split off on its own |
| LocalUsers.FieldsOfUndashed | backend/src/main/java/com/ecommerce/user/controller/LocalUserController.java:126 | text without '-' is a single field |
| LocalUsers.TokenRoundTrip | backend/src/main/java/com/ecommerce/user/controller/LocalUserController.java:120-139 | reading an issued token gives back its e-mail, dashes in the e-mail included (token issued at line 76) |
| LocalUsers.TokenRejections | backend/src/main/java/com/ecommerce/user/controller/LocalUserController.java:120-131 | a missing token, a refresh token and a token without a time name no one |
| LocalUsers.FirstAccessToken | backend/src/main/java/com/ecommerce/user/controller/LocalUserController.java:108-118 | the value of the first cookie named access_token, none without cookies |
| LocalUsers.FindAccessToken | backend/src/main/java/com/ecommerce/user/controller/LocalUserController.java:108-118 | the cookie loop with its break gives `FirstAccessToken` |
| LocalUsers.JoinSnoc | backend/src/main/java/com/ecommerce/user/controller/LocalUserController.java:134-138 | joining one more field appends '-' and that field |
| LocalUsers.ExtractEmail | backend/src/main/java/com/ecommerce/user/controller/LocalUserController.java:120-139 | the string-builder loop gives `TokenEmail` |
| LocalUsers.LocalUserController.Register | backend/src/main/java/com/ecommerce/user/controller/LocalUserController.java:51-65 | a known e-mail gets 400 and changes nothing; otherwise exactly one user added, with the encoded password |
| LocalUsers.LocalUserController.Login | backend/src/main/java/com/ecommerce/user/controller/LocalUserController.java:68-104 | unknown e-mail or non-matching password gives 401; otherwise access and refresh tokens for the user, each with its own clock reading |
| LocalUsers.LocalUserController.ProfileFor | backend/src/main/java/com/ecommerce/user/controller/LocalUserController.java:107-154 | the profile of the user the cookie's token names, role USER and enabled; 401 otherwise |
| LocalUsers.LocalUserController.LoginThenProfile | backend/src/main/java/com/ecommerce/user/controller/LocalUserController.java:68-154 | the access token a login returns finds the same user again |
| LocalUsers.LocalUserController.Confirm | backend/src/main/java/com/ecommerce/user/controller/LocalUserController.java:182-197 | unknown user, then a code not six long, get 400; otherwise 200; nothing changes |
| LocalUsers.LocalUserController.ResendCode | backend/src/main/java/com/ecommerce/user/controller/LocalUserController.java:200-210 | 400 exactly for an unknown user |
| LocalUsers.LocalUserController.ResetPassword | backend/src/main/java/com/ecommerce/user/controller/LocalUserController.java:213-223 | 400 exactly for an unknown user |
| LocalUsers.LocalUserController.ConfirmReset | backend/src/main/java/com/ecommerce/user/controller/LocalUserController.java:226-248 | the same two checks; then only the password changes, to the encoded new one |
| LocalUsers.LocalUserController.UpdateProfile | backend/src/main/java/com/ecommerce/user/controller/LocalUserController.java:251-319 | the user the token names gets the new names and keeps the rest; otherwise 401 and nothing changes |
| AdminDashboard.Midnight | backend/src/main/java/com/ecommerce/admin/service/AdminDashboardService.java:42 | the start of the day holding the time |
| AdminDashboard.TodayWindow | backend/src/main/java/com/ecommerce/admin/service/AdminDashboardService.java:42-43 | a day-long window starting at midnight and holding the time |
| AdminDashboard.TodayWindowUnique | backend/src/main/java/com/ecommerce/admin/service/AdminDashboardService.java:42-43 | no other day-long window from a midnight holds the time |
| AdminDashboard.DashboardMetricsAt | backend/src/main/java/com/ecommerce/admin/service/AdminDashboardService.java:32-56 | the counts copied, the today figures from the window of the current day, status always HEALTHY and database always connected |
| AdminDashboard.SalesStart | backend/src/main/java/com/ecommerce/admin/service/AdminDashboardService.java:60 | midnight `days` days back, with the current nanoseconds kept |
| AdminDashboard.WholeSecondsKeepNanos | backend/src/main/java/com/ecommerce/admin/service/AdminDashboardService.java:60 | whole seconds do not move the nanoseconds |
| AdminDashboard.Cents | backend/src/main/java/com/ecommerce/admin/service/AdminDashboardService.java:74-78 | n hundredths are a whole number of cents |
| AdminDashboard.RoundHalfUp | backend/src/main/java/com/ecommerce/admin/service/AdminDashboardService.java:74-78 | a whole number of cents within half a cent of the value |
| AdminDashboard.RoundCentsUnchanged | backend/src/main/java/com/ecommerce/admin/service/AdminDashboardService.java:74-78 | a value in cents is kept by rounding |
| AdminDashboard.RoundIdempotent | backend/src/main/java/com/ecommerce/admin/service/AdminDashboardService.java:74-78 | rounding twice is rounding once |
| AdminDashboard.AverageOrderValue | backend/src/main/java/com/ecommerce/admin/service/AdminDashboardService.java:73-81 | 0 without orders; otherwise revenue per order rounded HALF_UP to cents |
| AdminDashboard.AverageNearRevenue | backend/src/main/java/com/ecommerce/admin/service/AdminDashboardService.java:73-81 | average times orders is within half a cent per order of the revenue |
| AdminDashboard.AverageExamples | backend/src/main/java/com/ecommerce/admin/service/AdminDashboardService.java:73-81 | 1000 over 10 is 100, no orders is 0, 10 over 3 is 3.33 |
| AdminDashboard.SalesChartData | backend/src/main/java/com/ecommerce/admin/service/AdminDashboardService.java:58-86 | one point per row, in order, with the row's figures and its average |
| AdminDashboard.TopProductOf | backend/src/main/java/com/ecommerce/admin/service/AdminDashboardService.java:94-105 | fields copied; missing image becomes default-product.jpg, missing rating 0 |
| AdminDashboard.TopSellingProducts | backend/src/main/java/com/ecommerce/admin/service/AdminDashboardService.java:88-108 | a negative limit fails; otherwise the first min(limit, rows) rows converted |
| AdminDashboard.TopSellingPrefix | backend/src/main/java/com/ecommerce/admin/service/AdminDashboardService.java:88-108 | a larger limit only adds rows at the end |
| AdminSystem.SystemStatus | backend/src/main/java/com/ecommerce/admin/service/AdminSystemService.java:83-90 | CRITICAL exactly when the database is down, WARNING when up with more than 10 DLQ messages, HEALTHY otherwise |
| AdminSystem.StatusBoundaries | backend/src/main/java/com/ecommerce/admin/service/AdminSystemService.java:83-90 | 10 messages and -1 are healthy, 11 is a warning |
| AdminSystem.SystemHealthOf | backend/src/main/java/com/ecommerce/admin/service/AdminSystemService.java:27-47 | status from the first readings; connection, count and service flags from the second; cache flag when a manager exists |
| AdminSystem.ConsistentReport | backend/src/main/java/com/ecommerce/admin/service/AdminSystemService.java:27-47 | with agreeing readings, CRITICAL exactly when the database flag is down, and WARNING only with a non-empty DLQ |
| AdminSystem.UptimeParts | backend/src/main/java/com/ecommerce/admin/service/AdminSystemService.java:101-106 | whole hours and the minutes below 60, truncating toward zero |
| AdminSystem.UptimeIsWholeMinutes | backend/src/main/java/com/ecommerce/admin/service/AdminSystemService.java:101-106 | uptimes with the same parts lie less than a minute apart |
| AdminSystem.UptimeExample | backend/src/main/java/com/ecommerce/admin/service/AdminSystemService.java:101-106 | 5 459 000 ms prints as "1h 30m" |
| AdminSystem.Cleared | backend/src/main/java/com/ecommerce/admin/service/AdminSystemService.java:71-81 | every listed cache emptied; other caches and the set of names kept |
| AdminSystem.ClearSystemCache | backend/src/main/java/com/ecommerce/admin/service/AdminSystemService.java:71-81 | no manager, no change; otherwise the caches become `Cleared` |
| AdminSystem.ClearedIdempotent | backend/src/main/java/com/ecommerce/admin/service/AdminSystemService.java:71-81 | clearing twice is clearing once |
| DlqAdmin.MessageCount | backend/src/main/java/com/ecommerce/shipping/listener/DlqProcessor.java:214-230 | the attribute parsed as a 32-bit int when it is one; -1 when the read or the parse fails |
| DlqAdmin.DlqStatus | backend/src/main/java/com/ecommerce/shipping/controller/DlqAdminController.java:153-178 | HEALTHY for 0, WARNING below 10, CRITICAL from 10 |
| DlqAdmin.CountStatus | backend/src/main/java/com/ecommerce/shipping/controller/DlqAdminController.java:31-50 | WARNING exactly for a positive count, OK otherwise |
| DlqAdmin.StatusMonotone | backend/src/main/java/com/ecommerce/shipping/controller/DlqAdminController.java:31-50 | more messages never improve the status, and on real counts both endpoints agree on "empty" (also lines 153-178) |
| DlqAdmin.FailedCountDisagrees | backend/src/main/java/com/ecommerce/shipping/controller/DlqAdminController.java:31-50 | the failure count -1 is WARNING for one endpoint and OK for the other (also lines 153-178) |
| DlqAdmin.ServerError | backend/src/main/java/com/ecommerce/shipping/controller/DlqAdminController.java:45-49 | a 500 with the message, or no reply when the message is null |
| DlqAdmin.CountReply | backend/src/main/java/com/ecommerce/shipping/controller/DlqAdminController.java:31-50 | 200 with the count and its status, "DLQ is empty" when nothing is there; a 500 on failure |
| DlqAdmin.StatusReply | backend/src/main/java/com/ecommerce/shipping/controller/DlqAdminController.java:153-178 | 200 with status, health check exactly for an empty queue, and check time; a 500 ERROR on failure |
| DlqAdmin.ActionReply | backend/src/main/java/com/ecommerce/shipping/controller/DlqAdminController.java:57-116 | 200 and success for true, 400 and failure for false, 500 when it throws |
| DlqAdmin.MessageActionReply | backend/src/main/java/com/ecommerce/shipping/controller/DlqAdminController.java:57-116 | for reprocessing and for requeueing: the status is 200 exactly when the action succeeded, the success flag says so, and a success names the message in the action's wording |
| DlqAdmin.CheckReply | backend/src/main/java/com/ecommerce/shipping/controller/DlqAdminController.java:123-146 | 200 with the fresh count after the check, 500 when the check throws |

## Left out

- AWS SDK calls (DynamoDB, CloudWatch, SNS, SQS, SES, S3, Cognito) are parameters, outcomes passed in (a failure included), or logs of requests. Their wire formats, retries inside the SDK and credentials are not modelled.
- The PayPal SDK is a parameter. In the order service, `createPayment` gives the new payment's id or the failure it throws. In the shipping function, it gives the captured payment, or none when creating or capturing it throws. In `processSuccessfulPayment`, `executePayment` gives the payment's state, and its exception is not modelled (see that method's line below).
- The Shippo HTTP request and response bodies (`createShipment`) are not modelled. Only the outcome of each call and the retry decision are.
- `Thread.sleep` in the Shippo retry loop is recorded as the list of waits, not slept.
- The cube root in `calculateParcelDimensions` is a parameter. Floating-point rounding of the volume and weight sums is not modelled: amounts are exact `real`s.
- The `%.2f` locale-dependent amount and the fixed wording of the e-mail bodies are not modelled. An e-mail is its recipient, subject and the values filled in.
- Stack-trace rendering (`getStackTraceString`) and exception cause chains are not modelled. A trace is an optional string.
- ExceptionRecords.TruncateStackTrace: the 4000 limit counts characters (Unicode scalar values), where Java's `length()` and `substring` count UTF-16 code units. A trace holding characters outside the Basic Multilingual Plane is cut later than in Java, and a cut through a surrogate pair cannot be represented.
- Java `int` overflow in counts, stock quantities and `intValue()` truncation of query rows is not modelled; integers are unbounded. `String.hashCode` is the exception: it is modelled over the string's UTF-16 code units, a character outside the Basic Multilingual Plane counting as its surrogate pair, with 32-bit wrap-around.
- JSON (de)serialization by Jackson is a parameter that gives a text or a failure. Date formatting in DTOs is not modelled.
- Bean-validation annotations on DTOs (`@Valid`, `@NotBlank`, rating ranges) are not modelled. Only checks written in the code are.
- Logging is not modelled.
- A database unique-constraint rejection (duplicate e-mail in `UserService.registerUser`) is modelled as an explicit check of the table.
- `forEach` over a query result, and the bulk updates of the reservation cleanups, are modelled as one map or sequence update.
- Users.UserService.UpdateProfile: the access token is taken as already resolved to an e-mail. Cognito's token lookup is a foreign call.
- `UserService` operations that only delegate to Cognito or map to DTOs (`loginUser`, `resendConfirmationCode`, `resetPassword`, `confirmPasswordReset`, `refreshToken`, `getProfile`, `getUserProfile`, `getAllUsers`) are not modelled.
- The `LocalUserController.users` map is static, shared by every controller instance. The model has one controller owning it.
- `LocalUserController.logout` only sends two expired cookies and changes no state. It is not modelled, and neither are cookie attributes (`httpOnly`, `maxAge`).
- `AdminSystemService.getPerformanceMetrics`, `getMemoryUsage` and `getCpuUsage` read JVM counters and are not modelled. The memory and CPU texts are opaque readings.
- The repository queries behind the dashboard (`calculateTodayRevenue`, `getSalesDataByDateRange`, `findTopSellingProducts`) are parameters. Their SQL is not modelled.
- AdminDashboard.SalesChartData: a sales row with a null revenue (a NullPointerException in the source) is not modelled; revenue is always present.
- The polling and the message handling of `DlqProcessor` and `OrderStatusSqsListener` (scheduling, `@Async`, `parallelStream`) are not modelled. Only `getDlqMessageCount` is, as `DlqAdmin.MessageCount`.
- Null elements inside lists (items, cookies, records) are not modelled. A list is null or a list of values.
- `SecretHashCalculator`, `JwtUtil`, security and configuration classes, repository interfaces, delegating controllers and the frontend are not part of this model.
- Role.java, the `src` copy of `UserService`, and the Shippo DTO classes are not part of this model. Their fields are as the services use them. Of User.java only the role default and the `@PrePersist`/`@PreUpdate` stamps are modelled.
- LambdaEvents.ParseInstantText: an instant is written as its decimal epoch milliseconds, not in the ISO-8601 form of `Instant.toString`; the round trip is proved for that stand-in text only, and the calendar arithmetic of the ISO form is not modelled.
- ExceptionStore.FromItem: a required string attribute of another DynamoDB type, which the source reads as null through `AttributeValue.s()` and carries on with, makes the model's conversion fail, because the record's required strings cannot be null.
- OrderProcessing.DeductStock: models the intended stock update (only the stock quantity changes); the code as written fails every deduction, see Findings.
- OrderProcessing.OrderService.DeductForItems: uses the intended stock update through `SetStockQuantity`; as written the `updateProduct` call fails, see Findings.
- OrderProcessing.OrderService.UpdateOrderStatus: a confirmation deducts with the intended stock update; as written it fails, see Findings.
- OrderProcessing.OrderService.ProcessSuccessfulPayment: an approved payment deducts with the intended stock update; as written it fails, see Findings. The PayPal state is a non-null parameter, and the PayPal call's own exception is not modelled.
- OrderProcessing.OrderService.SettlePayment: the same intended stock update as `ProcessSuccessfulPayment`.
- BackendOrderProcessing.DeductStock: models the intended stock update; the code as written fails every deduction, see Findings.
- BackendOrderProcessing.DeductStockEffect: proved of the intended stock update, see Findings.
- BackendOrderProcessing.ConfirmTwiceDeductsTwice: holds of the intended stock update; as written each confirmation already fails at the deduction, see Findings.
- BackendOrderProcessing.OrderService.DeductForItems: uses the intended stock update; as written the `updateProduct` call fails, see Findings.
- BackendOrderProcessing.OrderService.UpdateOrderStatus: a confirmation deducts with the intended stock update; as written it fails, see Findings.
- ShippoDelivery.RetryFromShape: retries on the intended test (429 or 5xx); as written any message containing "5" is retried, see Findings and `ClientErrorRetriedAsWritten`.
- ShippoDelivery.DeliveryOutcome: built on the intended retry test, see Findings.
- ShippoDelivery.ShippoService.CreateShipmentWithRetry: the loop uses the intended retry test, see Findings.
- ShippoDelivery.ShippoService.ProcessDelivery: its shipment step uses the intended retry test, see Findings.
- Users.ParseRole: `toUpperCase` is modelled on ASCII letters only; Java also folds letters such as dotless i and long s, so "admın" (with a dotless i) names ADMIN in Java but no role in the model.
- Users.ParseRoleIgnoresCase: "ignoring case" is ASCII case only, for the same reason.
- Users.UserService.UpdateUserRole: the role is parsed with the ASCII-only upper-casing of `ParseRole`.
- OrderStatusListener.MapToShippingStatusExactly: `toUpperCase` is modelled on ASCII letters only.
- ShippoWebhook.MapShippoStatus: `toUpperCase` is modelled on ASCII letters only.
- ShippoWebhook.MapShippoStatusTable: "in any case" is ASCII case only.
- ProductCatalog.CreateSort: `equalsIgnoreCase` is modelled on ASCII letters only, so a direction spelled with a long s reads as ascending in the model but descending in Java.
- Users.Saved: Hibernate writes, and so stamps, a row only when it differs from the stored one; the model compares the whole user value for that.
- Orders.Flushed: the same dirty check for orders compares the snapshot of the order's columns, with the item list compared element by element by reference; Hibernate's separate dirty tracking of the item collection is not modelled.
- OrderReservations.Saved: the same dirty check for reservations compares the whole reservation value.

## Findings

| source | as written | input that shows it | evidently intended | confidence | as-written member | corrected member |
|---|---|---|---|---|---|---|
| shipping-lambda/src/main/java/com/ecommerce/lambda/service/ShippoService.java:97-98 | a failure is retried when its message contains "429" or the digit "5" anywhere | a 405 reply, message "Failed to create shipment: 405", is retried three times | retry only rate limits (429) and server errors (5xx), as the comment beside the test says | not executed | ShippoDelivery.ClientErrorRetriedAsWritten | ShippoDelivery.RetryBounds |
| src/main/java/com/ecommerce/order/service/OrderService.java:142-144 | stock is deducted by calling `updateProduct` with a DTO holding only the stock quantity (the backend copy does the same at backend/src/main/java/com/ecommerce/order/service/OrderService.java:158-160) | confirming any order: the DTO's null category id fails the category lookup, and with a category the update would null name, description, price and SKU | set only the product's stock quantity | not executed | ProductCatalog.StockOnlyUpdateFails | ProductCatalog.ProductService.SetStockQuantity |
