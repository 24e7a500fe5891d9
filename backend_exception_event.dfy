/** The backend's `ExceptionEvent`: built from a thrown exception, refined by
    its fluent setters, classified by class name, and serialized into the JSON
    message that the monitoring Lambda decodes. */
module BackendEvents {
  import opened Wrappers
  import opened JavaStrings
  import opened ExceptionLevels
  import opened JavaLang
  import LambdaEvents

  /** A context value is an arbitrary object that may be null; the model keeps
      its text. */
  type Context = map<string, Option<string>>

  /** What the model needs of a thrown exception: its simple class name, its
      message, and its rendered stack trace. */
  datatype Thrown = Thrown(simpleName: string, message: Option<string>, renderedTrace: string)

  /** Class-name fragments that mark an exception as FATAL. */
  const FATAL_MARKERS: seq<string> := ["OutOfMemory", "StackOverflow", "NoClassDefFound"]
  /** Class-name fragments that mark an exception as ERROR. */
  const ERROR_MARKERS: seq<string> :=
    ["SQL", "Connection", "Timeout", "Security", "Authentication", "Authorization"]
  /** Class-name fragments that mark an exception as WARN. */
  const WARN_MARKERS: seq<string> := ["Validation", "IllegalArgument", "IllegalState"]

  /** The class name contains at least one of the fragments. */
  predicate MentionsAny(name: string, markers: seq<string>)
  {
    exists i :: 0 <= i < |markers| && Contains(name, markers[i])
  }

  /** `determineLevel`: the FATAL fragments are looked for first, then the ERROR
      ones, then the WARN ones; a class name with none of them is an ERROR. */
  function DetermineLevel(name: string): (l: ExceptionLevel)
    ensures l == FATAL || l == ERROR || l == WARN
    ensures l == FATAL <==> MentionsAny(name, FATAL_MARKERS)
    ensures l == WARN <==>
      !MentionsAny(name, FATAL_MARKERS) && !MentionsAny(name, ERROR_MARKERS) && MentionsAny(name, WARN_MARKERS)
  {
    if MentionsAny(name, FATAL_MARKERS) then FATAL
    else if MentionsAny(name, ERROR_MARKERS) then ERROR
    else if MentionsAny(name, WARN_MARKERS) then WARN
    else ERROR
  }

  /** The check order decides overlapping names: a FATAL fragment beats every
      other, and an ERROR fragment beats a WARN one. An unclassified name is
      critical, so only a WARN fragment keeps an exception out of the critical
      levels. */
  lemma DetermineLevelPrecedence(name: string)
    ensures MentionsAny(name, FATAL_MARKERS) ==> DetermineLevel(name) == FATAL
    ensures !MentionsAny(name, FATAL_MARKERS) && MentionsAny(name, ERROR_MARKERS) ==> DetermineLevel(name) == ERROR
    ensures IsCritical(DetermineLevel(name)) <==> DetermineLevel(name) != WARN
    ensures !IsCritical(DetermineLevel(name)) ==> MentionsAny(name, WARN_MARKERS)
  {
  }

  /** A class name that contains a fragment at some position mentions it. */
  lemma MentionsAt(name: string, markers: seq<string>, k: nat, i: nat)
    requires k < |markers| && i + |markers[k]| <= |name|
    requires name[i..i + |markers[k]|] == markers[k]
    ensures MentionsAny(name, markers)
  {
    assert OccursAt(name, markers[k], i);
    ContainsIffOccurs(name, markers[k]);
  }

  /** A string never contains a fragment whose first character it lacks. */
  lemma LacksFirstChar(s: string, t: string)
    requires t != [] && forall i :: 0 <= i < |s| ==> s[i] != t[0]
    ensures !Contains(s, t)
  {
    ContainsIffOccurs(s, t);
    forall j | 0 <= j <= |s| - |t|
      ensures !OccursAt(s, t, j)
    {
      assert s[j..j + |t|][0] == s[j];
    }
  }

  /** Two examples of the check order: a failed connection validation is an
      ERROR although it mentions "Validation", and an out-of-memory error
      raised by a SQL driver is FATAL although it mentions "SQL". */
  lemma DetermineLevelExamples()
    ensures DetermineLevel("ConnectionValidationException") == ERROR
    ensures DetermineLevel("SQLOutOfMemoryError") == FATAL
  {
    ConnectionValidationIsError("ConnectionValidationException");
    SqlOutOfMemoryIsFatal("SQLOutOfMemoryError");
  }

  /** The first example, on a name equal to the literal. */
  lemma ConnectionValidationIsError(name: string)
    requires name == "ConnectionValidationException"
    ensures DetermineLevel(name) == ERROR
  {
    MentionsAt(name, ERROR_MARKERS, 1, 0);
    forall k | 0 <= k < |FATAL_MARKERS|
      ensures !Contains(name, FATAL_MARKERS[k])
    {
      LacksFirstChar(name, FATAL_MARKERS[k]);
    }
  }

  /** The second example, on a name equal to the literal. */
  lemma SqlOutOfMemoryIsFatal(name: string)
    requires name == "SQLOutOfMemoryError"
    ensures DetermineLevel(name) == FATAL
  {
    MentionsAt(name, FATAL_MARKERS, 0, 3);
  }

  /** `ExceptionEvent` (backend): a mutable bean whose fields the fluent
      `with…` setters update in place. */
  class ExceptionEvent {
    var service: Option<string>
    var timestamp: Option<int>
    var exceptionType: Option<string>
    var message: Option<string>
    var stackTrace: Option<string>
    var context: Option<Context>
    var level: Option<ExceptionLevel>
    var environment: Option<string>
    var version: Option<string>
    var tags: Option<seq<string>>

    /** `fromException`: type from the simple class name, empty context and
        tags, the level derived from the class name; `now` is the current
        instant in epoch milliseconds. */
    constructor FromException(ex: Thrown, service: Option<string>, environment: Option<string>, now: int)
      ensures this.service == service && this.environment == environment
      ensures timestamp == Some(now)
      ensures exceptionType == Some(ex.simpleName) && message == ex.message
      ensures stackTrace == Some(ex.renderedTrace)
      ensures context == Some(map[]) && tags == Some([])
      ensures level == Some(DetermineLevel(ex.simpleName))
      ensures version == None
    {
      this.service := service;
      timestamp := Some(now);
      exceptionType := Some(ex.simpleName);
      message := ex.message;
      stackTrace := Some(ex.renderedTrace);
      context := Some(map[]);
      level := Some(DetermineLevel(ex.simpleName));
      this.environment := environment;
      version := None;
      tags := Some([]);
    }

    /** `fromExceptionWithContext`: as `FromException`, except that a non-null
        context replaces the empty one. */
    constructor FromExceptionWithContext(ex: Thrown, service: Option<string>, environment: Option<string>,
                                         context: Option<Context>, now: int)
      ensures this.service == service && this.environment == environment
      ensures timestamp == Some(now)
      ensures exceptionType == Some(ex.simpleName) && message == ex.message
      ensures stackTrace == Some(ex.renderedTrace)
      ensures this.context == (if context.Some? then context else Some(map[]))
      ensures tags == Some([])
      ensures level == Some(DetermineLevel(ex.simpleName))
      ensures version == None
    {
      this.service := service;
      timestamp := Some(now);
      exceptionType := Some(ex.simpleName);
      message := ex.message;
      stackTrace := Some(ex.renderedTrace);
      this.context := if context.Some? then context else Some(map[]);
      level := Some(DetermineLevel(ex.simpleName));
      this.environment := environment;
      version := None;
      tags := Some([]);
    }

    /** The builder path of `publishCustomError`: only service, timestamp,
        type, message, level and environment are set. */
    constructor Custom(service: Option<string>, errorType: Option<string>, message: Option<string>,
                       level: Option<ExceptionLevel>, environment: Option<string>, now: int)
      ensures this.service == service && this.environment == environment
      ensures timestamp == Some(now)
      ensures exceptionType == errorType && this.message == message && this.level == level
      ensures stackTrace == None && context == None && version == None && tags == None
    {
      this.service := service;
      timestamp := Some(now);
      exceptionType := errorType;
      this.message := message;
      stackTrace := None;
      context := None;
      this.level := level;
      this.environment := environment;
      version := None;
      tags := None;
    }

    /** `withContext`: creates the map if it is null, then adds or overwrites
        exactly one key. */
    method WithContext(key: string, value: Option<string>)
      modifies this`context
      ensures context == Some(old(context).GetOr(map[])[key := value])
    {
      if context.None? {
        context := Some(map[]);
      }
      context := Some(context.value[key := value]);
    }

    /** `withTag`: creates the list if it is null, then appends the tag. */
    method WithTag(tag: string)
      modifies this`tags
      ensures tags == Some(old(tags).GetOr([]) + [tag])
    {
      if tags.None? {
        tags := Some([]);
      }
      tags := Some(tags.value + [tag]);
    }

    /** `withLevel`. */
    method WithLevel(level: Option<ExceptionLevel>)
      modifies this`level
      ensures this.level == level
    {
      this.level := level;
    }

    /** `withVersion`. */
    method WithVersion(version: Option<string>)
      modifies this`version
      ensures this.version == version
    {
      this.version := version;
    }

    /** The JSON message this event serializes to, as the Lambda decodes it.
        The backend event has no correlation or user id. */
    function Wire(): LambdaEvents.ExceptionEvent
      reads this
    {
      LambdaEvents.ExceptionEvent(
        service, timestamp, exceptionType, message, stackTrace,
        if context.Some? then Some(ContextText(context.value)) else None,
        level, environment, version, tags, None, None)
    }

    /** `getPartitionKey()`. */
    function PartitionKey(): string
      reads this
    {
      LambdaEvents.JavaText(service) + "#" + LambdaEvents.JavaText(exceptionType)
    }

    /** `getGroupingKey()`. */
    function GroupingKey(): string
      reads this
    {
      LambdaEvents.JavaText(service) + "#" + LambdaEvents.JavaText(exceptionType) + "#"
      + IntToString(LambdaEvents.MessageHash(message))
    }

    /** The backend computes both keys exactly as the Lambda does on the event
        it receives, so a record stored by the Lambda is found again under the
        keys the backend reports. */
    lemma KeysAgreeWithLambda()
      ensures PartitionKey() == LambdaEvents.PartitionKey(Wire())
      ensures GroupingKey() == LambdaEvents.GroupingKey(Wire())
    {
    }
  }

  /** Null context values serialize as JSON null and come back as the text
      "null" in the Lambda's view of the context. */
  function ContextText(c: Context): (t: LambdaEvents.Context)
    ensures t.Keys == c.Keys
    ensures forall k :: k in c ==> t[k] == LambdaEvents.JavaText(c[k])
  {
    map k | k in c :: LambdaEvents.JavaText(c[k])
  }
}
