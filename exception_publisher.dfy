/** `ExceptionPublisher`: turns a thrown exception into a backend exception
    event and hands its JSON to SNS. The SNS topic is modelled by the log of
    publish requests the publisher has issued. */
module ExceptionPublishing {
  import opened Wrappers
  import opened JavaStrings
  import opened ExceptionLevels
  import LambdaEvents
  import opened BackendEvents

  /** One call to the SNS client: the topic, the JSON message (as the Lambda
      decodes it) and the subject line. */
  datatype PublishRequest = PublishRequest(topicArn: Option<string>, message: LambdaEvents.ExceptionEvent, subject: string)

  /** The subject line, `String.format("Exception: %s in %s", type, service)`;
      `%s` renders null as "null". */
  function Subject(e: LambdaEvents.ExceptionEvent): (s: string)
    ensures s == "Exception: " + LambdaEvents.JavaText(e.exceptionType) + " in " + LambdaEvents.JavaText(e.service)
    ensures e.exceptionType.Some? && e.service.Some? ==>
      s == "Exception: " + e.exceptionType.value + " in " + e.service.value
  {
    "Exception: " + LambdaEvents.JavaText(e.exceptionType) + " in " + LambdaEvents.JavaText(e.service)
  }

  /** The requests `publishEvent` issues for an event: none when serialization
      fails, otherwise exactly one. A failure of the SNS call itself is only
      logged, so the call still counts as issued. */
  function Sent(topicArn: Option<string>, e: LambdaEvents.ExceptionEvent, serializeFails: bool): (r: seq<PublishRequest>)
    ensures |r| == if serializeFails then 0 else 1
    ensures !serializeFails ==> r[0].message == e && r[0].topicArn == topicArn && r[0].subject == Subject(e)
  {
    if serializeFails then [] else [PublishRequest(topicArn, e, Subject(e))]
  }

  /** The event `fromExceptionWithContext` builds, as serialized; a null
      context leaves the empty one. `fromException` is the case `context ==
      None`. */
  function DerivedEvent(ex: Thrown, service: Option<string>, environment: Option<string>,
                        context: Option<Context>, now: int): LambdaEvents.ExceptionEvent
  {
    LambdaEvents.ExceptionEvent(
      service, Some(now), Some(ex.simpleName), ex.message, Some(ex.renderedTrace),
      Some(ContextText(context.GetOr(map[]))), Some(DetermineLevel(ex.simpleName)),
      environment, None, Some([]), None, None)
  }

  /** The event of the overloads that take a level and tags: the explicit
      level (even null) replaces the derived one, and the tags follow in
      argument order. */
  function ExplicitEvent(ex: Thrown, service: Option<string>, environment: Option<string>,
                         context: Option<Context>, level: Option<ExceptionLevel>, tags: seq<string>, now: int)
    : (e: LambdaEvents.ExceptionEvent)
    ensures e.level == level && e.tags == Some(tags)
    ensures e.(level := Some(DetermineLevel(ex.simpleName)), tags := Some([])) == DerivedEvent(ex, service, environment, context, now)
  {
    DerivedEvent(ex, service, environment, context, now).(level := level, tags := Some(tags))
  }

  /** The event of `publishCustomError`: only service, timestamp, type,
      message, level and environment are set. */
  function CustomEvent(service: Option<string>, errorType: Option<string>, message: Option<string>,
                       level: Option<ExceptionLevel>, environment: Option<string>, now: int): (e: LambdaEvents.ExceptionEvent)
    ensures e.exceptionType == errorType && e.message == message && e.level == level
    ensures e.stackTrace.None? && e.context.None? && e.tags.None? && e.version.None?
  {
    LambdaEvents.ExceptionEvent(service, Some(now), errorType, message, None, None, level, environment, None, None, None, None)
  }

  class ExceptionPublisher {
    const topicArn: Option<string>
    const serviceName: Option<string>
    const environment: Option<string>
    /** Every request handed to the SNS client, oldest first. */
    var calls: seq<PublishRequest>

    constructor (topicArn: Option<string>, serviceName: Option<string>, environment: Option<string>)
      ensures this.topicArn == topicArn && this.serviceName == serviceName && this.environment == environment
      ensures calls == []
    {
      this.topicArn := topicArn;
      this.serviceName := serviceName;
      this.environment := environment;
      calls := [];
    }

    /** `isEnabled()`: a topic ARN is configured and is not blank. */
    predicate IsEnabled()
      reads this
    {
      topicArn.Some? && !Blank(topicArn.value)
    }

    /** `publishEvent`: serializes the event and publishes it to the topic;
        every failure is logged and swallowed. `serializeFails` is the outcome
        of the JSON serialization. */
    method PublishEvent(event: BackendEvents.ExceptionEvent, serializeFails: bool)
      modifies this`calls
      ensures calls == old(calls) + Sent(topicArn, event.Wire(), serializeFails)
    {
      if !serializeFails {
        var message := event.Wire();
        calls := calls + [PublishRequest(topicArn, message, Subject(message))];
      }
    }

    /** `publishException(exception)`. */
    method PublishException(ex: Thrown, now: int, serializeFails: bool)
      modifies this`calls
      ensures calls == old(calls) + Sent(topicArn, DerivedEvent(ex, serviceName, environment, None, now), serializeFails)
    {
      var event := new BackendEvents.ExceptionEvent.FromException(ex, serviceName, environment, now);
      PublishEvent(event, serializeFails);
    }

    /** `publishException(exception, context)`. */
    method PublishExceptionWithContext(ex: Thrown, context: Option<Context>, now: int, serializeFails: bool)
      modifies this`calls
      ensures calls == old(calls) + Sent(topicArn, DerivedEvent(ex, serviceName, environment, context, now), serializeFails)
    {
      var event := new BackendEvents.ExceptionEvent.FromExceptionWithContext(ex, serviceName, environment, context, now);
      PublishEvent(event, serializeFails);
    }

    /** `publishException(exception, level, tags...)`. */
    method PublishExceptionWithLevel(ex: Thrown, level: Option<ExceptionLevel>, tags: seq<string>,
                                     now: int, serializeFails: bool)
      modifies this`calls
      ensures calls == old(calls) + Sent(topicArn, ExplicitEvent(ex, serviceName, environment, None, level, tags, now), serializeFails)
    {
      var event := new BackendEvents.ExceptionEvent.FromException(ex, serviceName, environment, now);
      event.WithLevel(level);
      AddTags(event, tags);
      assert event.tags == Some(tags) by { assert [] + tags == tags; }
      assert event.Wire() == ExplicitEvent(ex, serviceName, environment, None, level, tags, now);
      PublishEvent(event, serializeFails);
    }

    /** `publishException(exception, level, context, tags...)`. */
    method PublishExceptionWithLevelAndContext(ex: Thrown, level: Option<ExceptionLevel>, context: Option<Context>,
                                               tags: seq<string>, now: int, serializeFails: bool)
      modifies this`calls
      ensures calls == old(calls) + Sent(topicArn, ExplicitEvent(ex, serviceName, environment, context, level, tags, now), serializeFails)
    {
      var event := new BackendEvents.ExceptionEvent.FromExceptionWithContext(ex, serviceName, environment, context, now);
      event.WithLevel(level);
      AddTags(event, tags);
      assert event.tags == Some(tags) by { assert [] + tags == tags; }
      assert event.Wire() == ExplicitEvent(ex, serviceName, environment, context, level, tags, now);
      PublishEvent(event, serializeFails);
    }

    /** `publishCustomError(errorType, message, level)`. */
    method PublishCustomError(errorType: Option<string>, message: Option<string>, level: Option<ExceptionLevel>,
                              now: int, serializeFails: bool)
      modifies this`calls
      ensures calls == old(calls) + Sent(topicArn, CustomEvent(serviceName, errorType, message, level, environment, now), serializeFails)
    {
      var event := new BackendEvents.ExceptionEvent.Custom(serviceName, errorType, message, level, environment, now);
      PublishEvent(event, serializeFails);
    }
  }

  /** The `for (String tag : tags) event.withTag(tag)` loop of the publish
      overloads: the tags are appended in argument order and nothing else of
      the event changes. */
  method AddTags(event: BackendEvents.ExceptionEvent, tags: seq<string>)
    modifies event`tags
    ensures event.tags == if tags == [] then old(event.tags) else Some(old(event.tags).GetOr([]) + tags)
  {
    ghost var start := old(event.tags).GetOr([]);
    var i := 0;
    while i < |tags|
      invariant 0 <= i <= |tags|
      invariant event.tags == (if i == 0 then old(event.tags) else Some(start + tags[..i]))
    {
      ghost var before := event.tags;
      event.WithTag(tags[i]);
      assert before.GetOr([]) == start + tags[..i];
      assert event.tags == Some(before.GetOr([]) + [tags[i]]);
      assert tags[..i + 1] == tags[..i] + [tags[i]];
      assert start + tags[..i + 1] == (start + tags[..i]) + [tags[i]];
      i := i + 1;
    }
    assert tags[..|tags|] == tags;
  }
}
