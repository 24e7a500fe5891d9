/** `ExceptionRepository`: exception records in a DynamoDB table keyed by
    (partitionKey, timestamp). The table is a map from key to stored item; the
    SDK calls become the map updates they perform, and their failures become
    flags. */
module ExceptionStore {
  import opened Wrappers
  import opened JavaLang
  import opened LambdaEvents
  import opened ExceptionRecords

  /** A DynamoDB attribute value. `ContextText` is a string attribute holding the
      rendering of a context map (`Map.toString`). */
  datatype AttributeValue =
    | S(s: string)
    | N(n: string)
    | SS(ss: seq<string>)
    | ContextText(entries: Context)

  /** The attribute names a record item can carry. */
  datatype Attr =
    | PartitionKeyAttr | TimestampAttr | ServiceAttr | ExceptionTypeAttr | MessageAttr
    | StackTraceAttr | ContextAttr | LevelAttr | EnvironmentAttr | VersionAttr | TagsAttr
    | CountAttr | FirstOccurrenceAttr | LastOccurrenceAttr | TtlAttr

  /** The attribute's name in the table. */
  function AttrName(a: Attr): string
  {
    match a
    case PartitionKeyAttr => "partitionKey"
    case TimestampAttr => "timestamp"
    case ServiceAttr => "service"
    case ExceptionTypeAttr => "exceptionType"
    case MessageAttr => "message"
    case StackTraceAttr => "stackTrace"
    case ContextAttr => "context"
    case LevelAttr => "level"
    case EnvironmentAttr => "environment"
    case VersionAttr => "version"
    case TagsAttr => "tags"
    case CountAttr => "count"
    case FirstOccurrenceAttr => "firstOccurrence"
    case LastOccurrenceAttr => "lastOccurrence"
    case TtlAttr => "ttl"
  }

  type Item = map<Attr, AttributeValue>
  type Key = (string, string)
  type Table = map<Key, Item>

  /** A query returns at most this many items. */
  const QUERY_LIMIT: nat := 10

  const SAVE_FAILED: string := "Failed to save exception record"
  const UPDATE_FAILED: string := "Failed to update exception count"

  /** The attributes written for every record. */
  const REQUIRED_ATTRIBUTES: set<Attr> := {
    PartitionKeyAttr, TimestampAttr, ServiceAttr, ExceptionTypeAttr, MessageAttr, LevelAttr,
    EnvironmentAttr, CountAttr, FirstOccurrenceAttr, LastOccurrenceAttr, TtlAttr}

  const ALL_ATTRIBUTES: set<Attr> := REQUIRED_ATTRIBUTES + {StackTraceAttr, VersionAttr, ContextAttr, TagsAttr}

  /** The value `convertToAttributeValueMap` writes for one attribute, `None`
      when it leaves the attribute out. */
  function WrittenValue(r: ExceptionRecord, a: Attr): Option<AttributeValue>
  {
    match a
    case PartitionKeyAttr => Some(S(r.partitionKey))
    case TimestampAttr => Some(S(r.timestamp))
    case ServiceAttr => Some(S(r.service))
    case ExceptionTypeAttr => Some(S(r.exceptionType))
    case MessageAttr => Some(S(r.message.GetOr("")))
    case LevelAttr => Some(S(r.level))
    case EnvironmentAttr => Some(S(r.environment.GetOr("unknown")))
    case CountAttr => Some(N(IntToString(r.count)))
    case FirstOccurrenceAttr => Some(S(r.firstOccurrence))
    case LastOccurrenceAttr => Some(S(r.lastOccurrence))
    case TtlAttr => Some(N(IntToString(r.ttl)))
    case StackTraceAttr => if r.stackTrace.Some? then Some(S(r.stackTrace.value)) else None
    case VersionAttr => if r.version.Some? then Some(S(r.version.value)) else None
    case ContextAttr =>
      if r.context.Some? && |r.context.value| > 0 then Some(ContextText(r.context.value)) else None
    case TagsAttr => if r.tags.Some? && |r.tags.value| > 0 then Some(SS(r.tags.value)) else None
  }

  /** `convertToAttributeValueMap`. */
  function ToItem(r: ExceptionRecord): Item
  {
    map a | a in ALL_ATTRIBUTES && WrittenValue(r, a).Some? :: WrittenValue(r, a).value
  }

  /** Which attributes a written item has: the eleven required ones always, a
      null message as "" and a null environment as "unknown"; stackTrace and
      version only when non-null; context and tags only when non-null and
      non-empty. */
  lemma ToItemAttributes(r: ExceptionRecord)
    ensures REQUIRED_ATTRIBUTES <= ToItem(r).Keys
    ensures ToItem(r)[MessageAttr] == S(if r.message.Some? then r.message.value else "")
    ensures ToItem(r)[EnvironmentAttr] == S(if r.environment.Some? then r.environment.value else "unknown")
    ensures StackTraceAttr in ToItem(r) <==> r.stackTrace.Some?
    ensures VersionAttr in ToItem(r) <==> r.version.Some?
    ensures ContextAttr in ToItem(r) <==> r.context.Some? && |r.context.value| > 0
    ensures TagsAttr in ToItem(r) <==> r.tags.Some? && |r.tags.value| > 0
    ensures ToItem(r).Keys <= REQUIRED_ATTRIBUTES + {StackTraceAttr, VersionAttr, ContextAttr, TagsAttr}
  {
    RequiredWritten(r);
    ToItemAt(r, MessageAttr);
    ToItemAt(r, EnvironmentAttr);
    ToItemAt(r, StackTraceAttr);
    ToItemAt(r, VersionAttr);
    ToItemAt(r, ContextAttr);
    ToItemAt(r, TagsAttr);
  }

  /** Every required attribute is written. */
  lemma RequiredWritten(r: ExceptionRecord)
    ensures REQUIRED_ATTRIBUTES <= ToItem(r).Keys
  {
    forall a | a in REQUIRED_ATTRIBUTES
      ensures a in ToItem(r)
    {
      ToItemAt(r, a);
    }
  }

  /** One attribute of a written item: present exactly when a value is
      written for it, and holding that value. */
  lemma ToItemAt(r: ExceptionRecord, a: Attr)
    ensures a in ToItem(r) <==> WrittenValue(r, a).Some?
    ensures a in ToItem(r) ==> ToItem(r)[a] == WrittenValue(r, a).value
  {
    assert a in ALL_ATTRIBUTES by {
      match a
      case PartitionKeyAttr =>
      case TimestampAttr =>
      case ServiceAttr =>
      case ExceptionTypeAttr =>
      case MessageAttr =>
      case StackTraceAttr =>
      case ContextAttr =>
      case LevelAttr =>
      case EnvironmentAttr =>
      case VersionAttr =>
      case TagsAttr =>
      case CountAttr =>
      case FirstOccurrenceAttr =>
      case LastOccurrenceAttr =>
      case TtlAttr =>
    }
  }

  /** The string held by a string attribute; `None` when it is missing or of
      another type. */
  function GetS(item: Item, name: Attr): Option<string>
  {
    if name in item && item[name].S? then Some(item[name].s) else None
  }

  /** The number held by a numeric attribute, parsed with `Long.parseLong`. */
  function GetN(item: Item, name: Attr): Option<int>
  {
    if name in item && item[name].N? then ParseLong(item[name].n) else None
  }

  /** `convertFromAttributeValueMap`. `None` stands for the exception a missing
      required attribute or an unparsable number raises. Context and tags are
      never read back. An attribute of another DynamoDB type reads as missing
      here: a number read through `n()` then fails in `Long.parseLong` as in
      the source, an optional string (stack trace, version) becomes null as
      in the source, but a required string, which the source would carry on
      as null, makes the whole conversion fail. */
  function FromItem(item: Item): Option<ExceptionRecord>
  {
    var pk := GetS(item, PartitionKeyAttr);
    var ts := GetS(item, TimestampAttr);
    var service := GetS(item, ServiceAttr);
    var exceptionType := GetS(item, ExceptionTypeAttr);
    var message := GetS(item, MessageAttr);
    var level := GetS(item, LevelAttr);
    var environment := GetS(item, EnvironmentAttr);
    var count := GetN(item, CountAttr);
    var first := GetS(item, FirstOccurrenceAttr);
    var last := GetS(item, LastOccurrenceAttr);
    var ttl := GetN(item, TtlAttr);
    if pk.None? || ts.None? || service.None? || exceptionType.None? || message.None? || level.None?
       || environment.None? || count.None? || first.None? || last.None? || ttl.None?
    then None
    else Some(ExceptionRecord(
      pk.value, ts.value, service.value, exceptionType.value, message,
      (if StackTraceAttr in item then GetS(item, StackTraceAttr) else None),
      None, level.value, environment,
      (if VersionAttr in item then GetS(item, VersionAttr) else None),
      None, count.value, first.value, last.value, ttl.value))
  }

  /** What a record looks like after a write and a read: the null message and
      environment replaced by their defaults, context and tags gone. */
  function Stored(r: ExceptionRecord): ExceptionRecord
  {
    r.(message := Some(r.message.GetOr("")), environment := Some(r.environment.GetOr("unknown")),
       context := None, tags := None)
  }

  /** `convertFromAttributeValueMap` reads exactly these attributes: any item
      whose attributes hold a record's fields converts to that record. */
  lemma FromItemReadsFields(item: Item, r: ExceptionRecord)
    requires GetS(item, PartitionKeyAttr) == Some(r.partitionKey)
    requires GetS(item, TimestampAttr) == Some(r.timestamp)
    requires GetS(item, ServiceAttr) == Some(r.service)
    requires GetS(item, ExceptionTypeAttr) == Some(r.exceptionType)
    requires GetS(item, MessageAttr) == r.message
    requires GetS(item, LevelAttr) == Some(r.level)
    requires GetS(item, EnvironmentAttr) == r.environment
    requires GetN(item, CountAttr) == Some(r.count)
    requires GetS(item, FirstOccurrenceAttr) == Some(r.firstOccurrence)
    requires GetS(item, LastOccurrenceAttr) == Some(r.lastOccurrence)
    requires GetN(item, TtlAttr) == Some(r.ttl)
    requires (if StackTraceAttr in item then GetS(item, StackTraceAttr) else None) == r.stackTrace
    requires (if VersionAttr in item then GetS(item, VersionAttr) else None) == r.version
    requires r.message.Some? && r.environment.Some? && r.context.None? && r.tags.None?
    ensures FromItem(item) == Some(r)
  {
  }

  /** The converse: a record read from an item holds the item's attributes. */
  lemma FromItemFields(item: Item, r: ExceptionRecord)
    requires FromItem(item) == Some(r)
    ensures GetS(item, PartitionKeyAttr) == Some(r.partitionKey)
    ensures GetS(item, TimestampAttr) == Some(r.timestamp)
    ensures GetS(item, ServiceAttr) == Some(r.service)
    ensures GetS(item, ExceptionTypeAttr) == Some(r.exceptionType)
    ensures GetS(item, MessageAttr) == r.message
    ensures GetS(item, LevelAttr) == Some(r.level)
    ensures GetS(item, EnvironmentAttr) == r.environment
    ensures GetN(item, CountAttr) == Some(r.count)
    ensures GetS(item, FirstOccurrenceAttr) == Some(r.firstOccurrence)
    ensures GetS(item, LastOccurrenceAttr) == Some(r.lastOccurrence)
    ensures GetN(item, TtlAttr) == Some(r.ttl)
    ensures (if StackTraceAttr in item then GetS(item, StackTraceAttr) else None) == r.stackTrace
    ensures (if VersionAttr in item then GetS(item, VersionAttr) else None) == r.version
    ensures r.message.Some? && r.environment.Some? && r.context.None? && r.tags.None?
  {
  }

  lemma WrittenStrings(r: ExceptionRecord)
    ensures GetS(ToItem(r), PartitionKeyAttr) == Some(r.partitionKey)
    ensures GetS(ToItem(r), TimestampAttr) == Some(r.timestamp)
    ensures GetS(ToItem(r), ServiceAttr) == Some(r.service)
    ensures GetS(ToItem(r), ExceptionTypeAttr) == Some(r.exceptionType)
    ensures GetS(ToItem(r), MessageAttr) == Some(r.message.GetOr(""))
    ensures GetS(ToItem(r), LevelAttr) == Some(r.level)
    ensures GetS(ToItem(r), EnvironmentAttr) == Some(r.environment.GetOr("unknown"))
    ensures GetS(ToItem(r), FirstOccurrenceAttr) == Some(r.firstOccurrence)
    ensures GetS(ToItem(r), LastOccurrenceAttr) == Some(r.lastOccurrence)
    ensures (if StackTraceAttr in ToItem(r) then GetS(ToItem(r), StackTraceAttr) else None) == r.stackTrace
    ensures (if VersionAttr in ToItem(r) then GetS(ToItem(r), VersionAttr) else None) == r.version
  {
  }

  lemma WrittenNumbers(r: ExceptionRecord)
    ensures GetN(ToItem(r), CountAttr) == Some(r.count)
    ensures GetN(ToItem(r), TtlAttr) == Some(r.ttl)
  {
    ParseLongOfIntToString(r.count);
    ParseLongOfIntToString(r.ttl);
  }

  /** Writing a record and reading it back keeps keys, service, type, level,
      count, occurrences, ttl, stack trace and version; see `Stored` for what
      changes. */
  lemma ReadBackAfterWrite(r: ExceptionRecord)
    ensures FromItem(ToItem(r)) == Some(Stored(r))
  {
    WrittenStrings(r);
    WrittenNumbers(r);
    FromItemReadsFields(ToItem(r), Stored(r));
  }

  /** `isSimilarException`: the record's recomputed grouping key equals `groupingKey`. */
  predicate IsSimilar(r: ExceptionRecord, groupingKey: string)
  {
    r.service + "#" + r.exceptionType + "#" + IntToString(MessageHash(r.message)) == groupingKey
  }

  /** A record made from an event, once stored and read back, is similar to that
      event, even when the event's message is null: the stored "" hashes to 0,
      as the null message does. */
  lemma StoredRecordSimilarToItsEvent(e: ExceptionEvent, nowEpochSecond: int)
    requires e.service.Some? && e.exceptionType.Some? && e.level.Some? && e.timestamp.Some?
    ensures IsSimilar(Stored(FromEvent(e, nowEpochSecond)), GroupingKey(e))
  {
    assert HashCode("") == 0;
  }

  /** The first item of a query response that converts to a similar record. An
      item that does not convert raises an exception, which the search turns
      into "nothing found". */
  function FirstSimilar(response: seq<Item>, groupingKey: string): (found: Option<ExceptionRecord>)
    ensures found.Some? ==> IsSimilar(found.value, groupingKey)
  {
    if response == [] then None
    else
      var r := FromItem(response[0]);
      if r.None? then None
      else if IsSimilar(r.value, groupingKey) then r
      else FirstSimilar(response[1..], groupingKey)
  }

  /** What the search finds is the conversion of some item of the response. */
  lemma {:induction false} FirstSimilarOccurs(response: seq<Item>, groupingKey: string)
    requires FirstSimilar(response, groupingKey).Some?
    ensures exists i :: 0 <= i < |response| && FromItem(response[i]) == FirstSimilar(response, groupingKey)
  {
    var r := FromItem(response[0]);
    if !IsSimilar(r.value, groupingKey) {
      FirstSimilarOccurs(response[1..], groupingKey);
      var i :| 0 <= i < |response[1..]| && FromItem(response[1..][i]) == FirstSimilar(response[1..], groupingKey);
      assert FromItem(response[i + 1]) == FirstSimilar(response, groupingKey);
    } else {
      assert FromItem(response[0]) == FirstSimilar(response, groupingKey);
    }
  }

  /** The item is stored in the table under the partition key `pk`. */
  ghost predicate StoredUnder(items: Table, pk: string, item: Item)
  {
    exists ts :: (pk, ts) in items && items[(pk, ts)] == item
  }

  /** A response that answers the query "partitionKey = pk, limit 10" against the
      table: at most ten items, each stored under `pk`. */
  ghost predicate IsQueryAnswer(items: Table, pk: string, response: seq<Item>)
  {
    |response| <= QUERY_LIMIT && forall i :: 0 <= i < |response| ==> StoredUnder(items, pk, response[i])
  }

  /** The items before the `i`-th all convert and none is similar. */
  predicate PassedOver(response: seq<Item>, groupingKey: string, i: nat)
    requires i <= |response|
  {
    forall j :: 0 <= j < i ==> FromItem(response[j]).Some? && !IsSimilar(FromItem(response[j]).value, groupingKey)
  }

  /** Once the items before the `i`-th have been passed over, the search
      goes on at the `i`-th: it ends without a record at the end of the
      answer or at an item that does not convert, and it returns the
      `i`-th item's record when that one is similar. */
  lemma {:induction false} FirstSimilarSkips(response: seq<Item>, groupingKey: string, i: nat)
    requires i <= |response| && PassedOver(response, groupingKey, i)
    ensures FirstSimilar(response, groupingKey) == FirstSimilar(response[i..], groupingKey)
    ensures i == |response| ==> FirstSimilar(response, groupingKey).None?
    ensures i < |response| && FromItem(response[i]).None? ==> FirstSimilar(response, groupingKey).None?
    ensures i < |response| && FromItem(response[i]).Some? && IsSimilar(FromItem(response[i]).value, groupingKey) ==>
      FirstSimilar(response, groupingKey) == FromItem(response[i])
  {
    if i == 0 {
      assert response[i..] == response;
    } else {
      assert PassedOver(response[1..], groupingKey, i - 1) by {
        forall j | 0 <= j < i - 1
          ensures FromItem(response[1..][j]).Some? && !IsSimilar(FromItem(response[1..][j]).value, groupingKey)
        {
          assert response[1..][j] == response[j + 1];
        }
      }
      FirstSimilarSkips(response[1..], groupingKey, i - 1);
      assert response[1..][i - 1..] == response[i..];
      if i < |response| {
        assert response[1..][i - 1] == response[i];
      }
    }
  }

  /** The record found is that of the first similar item: every item
      before it converts and is not similar. */
  lemma {:induction false} FirstSimilarIsFirst(response: seq<Item>, groupingKey: string)
    requires FirstSimilar(response, groupingKey).Some?
    ensures exists i :: 0 <= i < |response| && PassedOver(response, groupingKey, i)
                        && FromItem(response[i]) == FirstSimilar(response, groupingKey)
  {
    var r := FromItem(response[0]);
    if IsSimilar(r.value, groupingKey) {
      assert PassedOver(response, groupingKey, 0);
    } else {
      FirstSimilarIsFirst(response[1..], groupingKey);
      var i :| 0 <= i < |response[1..]| && PassedOver(response[1..], groupingKey, i)
               && FromItem(response[1..][i]) == FirstSimilar(response[1..], groupingKey);
      assert PassedOver(response, groupingKey, i + 1) by {
        forall j | 0 <= j < i + 1
          ensures FromItem(response[j]).Some? && !IsSimilar(FromItem(response[j]).value, groupingKey)
        {
          if j > 0 {
            assert response[j] == response[1..][j - 1];
          }
        }
      }
      assert FromItem(response[i + 1]) == FirstSimilar(response, groupingKey);
    }
  }

  /** What the search finds for a genuine query answer is a record stored under
      the partition key that is similar to the grouping key. */
  lemma FoundRecordIsStoredAndSimilar(items: Table, pk: string, response: seq<Item>, groupingKey: string)
    requires IsQueryAnswer(items, pk, response)
    requires FirstSimilar(response, groupingKey).Some?
    ensures exists ts :: (pk, ts) in items && FromItem(items[(pk, ts)]) == FirstSimilar(response, groupingKey)
    ensures IsSimilar(FirstSimilar(response, groupingKey).value, groupingKey)
  {
    var found := FirstSimilar(response, groupingKey);
    FirstSimilarOccurs(response, groupingKey);
    var i :| 0 <= i < |response| && FromItem(response[i]) == found;
    assert StoredUnder(items, pk, response[i]);
  }

  /** The item after `SET count = count + 1, lastOccurrence = :last`. */
  function BumpCount(item: Item, count: int, lastOccurrence: string): Item
  {
    item[CountAttr := N(IntToString(count + 1))][LastOccurrenceAttr := S(lastOccurrence)]
  }

  /** Reading a bumped item gives the same record with count one higher and the
      new lastOccurrence; nothing else changes. */
  lemma BumpCountReadBack(item: Item, r: ExceptionRecord, lastOccurrence: string)
    requires FromItem(item) == Some(r)
    ensures FromItem(BumpCount(item, r.count, lastOccurrence)) == Some(r.(count := r.count + 1, lastOccurrence := lastOccurrence))
  {
    ParseLongOfIntToString(r.count + 1);
    var b := BumpCount(item, r.count, lastOccurrence);
    FromItemFields(item, r);
    BumpKeeps(item, r.count, lastOccurrence, PartitionKeyAttr);
    BumpKeeps(item, r.count, lastOccurrence, TimestampAttr);
    BumpKeeps(item, r.count, lastOccurrence, ServiceAttr);
    BumpKeeps(item, r.count, lastOccurrence, ExceptionTypeAttr);
    BumpKeeps(item, r.count, lastOccurrence, MessageAttr);
    BumpKeeps(item, r.count, lastOccurrence, LevelAttr);
    BumpKeeps(item, r.count, lastOccurrence, EnvironmentAttr);
    BumpKeeps(item, r.count, lastOccurrence, FirstOccurrenceAttr);
    BumpKeeps(item, r.count, lastOccurrence, TtlAttr);
    BumpKeeps(item, r.count, lastOccurrence, StackTraceAttr);
    BumpKeeps(item, r.count, lastOccurrence, VersionAttr);
    FromItemReadsFields(b, r.(count := r.count + 1, lastOccurrence := lastOccurrence));
  }

  /** A bump leaves every attribute but the count and lastOccurrence as it was. */
  lemma BumpKeeps(item: Item, count: int, lastOccurrence: string, a: Attr)
    requires a != CountAttr && a != LastOccurrenceAttr
    ensures var b := BumpCount(item, count, lastOccurrence);
      (a in b <==> a in item) && GetS(b, a) == GetS(item, a) && GetN(b, a) == GetN(item, a)
  {
  }

  /** The DynamoDB table of exception records. */
  class ExceptionRepository {
    /** The configured table name; saving is impossible without one. */
    const tableName: Option<string>
    var items: Table

    constructor (tableName: Option<string>)
      ensures this.tableName == tableName && items == map[]
    {
      this.tableName := tableName;
      items := map[];
    }

    /** `saveException`: a put of the converted record. With no table name, or
        when the put fails (`putFails`), nothing is stored and the error is
        reported. */
    method SaveException(record: ExceptionRecord, putFails: bool) returns (res: Result<(), string>)
      modifies this`items
      ensures res.Err? <==> tableName.None? || putFails
      ensures res.Err? ==> res.error == SAVE_FAILED && items == old(items)
      ensures res.Ok? ==> items == old(items)[(record.partitionKey, record.timestamp) := ToItem(record)]
    {
      var item := ToItem(record);
      if tableName.None? || putFails {
        return Err(SAVE_FAILED);
      }
      items := items[(record.partitionKey, record.timestamp) := item];
      return Ok(());
    }

    /** `findSimilarException`: `response` is what the query returned (newest
        first, at most ten items), or `None` when the query failed. The items are
        converted in order and the first similar record is returned. */
    method FindSimilarException(pk: string, groupingKey: string, response: Option<seq<Item>>)
      returns (found: Option<ExceptionRecord>)
      ensures found == (if response.None? then None else FirstSimilar(response.value, groupingKey))
      ensures found.Some? ==> IsSimilar(found.value, groupingKey)
    {
      if response.None? {
        return None;
      }
      var resp := response.value;
      var i := 0;
      while i < |resp|
        invariant 0 <= i <= |resp|
        invariant FirstSimilar(resp[i..], groupingKey) == FirstSimilar(resp, groupingKey)
      {
        assert resp[i..][1..] == resp[i + 1..];
        var record := FromItem(resp[i]);
        if record.None? {
          return None;
        }
        if IsSimilar(record.value, groupingKey) {
          return record;
        }
        i := i + 1;
      }
      return None;
    }

    /** `updateExceptionCount`: raises the stored count by one and sets
        lastOccurrence on the item with the record's key. The update fails when
        the call fails (`updateFails`) or no table name is configured, and when
        there is no such item or its count is not a number, since the update
        expression reads the count. */
    method UpdateExceptionCount(record: ExceptionRecord, updateFails: bool) returns (res: Result<(), string>)
      modifies this`items
      ensures var key := (record.partitionKey, record.timestamp);
        res.Ok? <==> !updateFails && tableName.Some? && key in old(items) && GetN(old(items)[key], CountAttr).Some?
      ensures res.Err? ==> res.error == UPDATE_FAILED && items == old(items)
      ensures res.Ok? ==>
        var key := (record.partitionKey, record.timestamp);
        items == old(items)[key := BumpCount(old(items)[key], GetN(old(items)[key], CountAttr).value, record.lastOccurrence)]
    {
      var key := (record.partitionKey, record.timestamp);
      if updateFails || tableName.None? || key !in items || GetN(items[key], CountAttr).None? {
        return Err(UPDATE_FAILED);
      }
      var item := items[key];
      items := items[key := BumpCount(item, GetN(item, CountAttr).value, record.lastOccurrence)];
      return Ok(());
    }
  }
}
