/** `MetricsPublisher`: which CloudWatch metrics the monitoring Lambda emits for
    a new exception and for a grouped (repeated) one. CloudWatch itself is an
    append-only log of `putMetricData` requests. */
module Metrics {
  import opened Wrappers
  import opened ExceptionLevels
  import opened LambdaEvents

  /** Every datum is sent with unit `StandardUnit.COUNT`. */
  const COUNT_UNIT := "Count"

  /** Threshold above which a grouped exception also emits `HighFrequencyException`. */
  const HIGH_FREQUENCY_THRESHOLD := 10

  /** A CloudWatch dimension; the value is whatever the event holds, null included. */
  datatype Dimension = Dimension(name: string, value: Option<string>)

  datatype MetricDatum = MetricDatum(
    name: string,
    value: real,
    unit: string,
    timestamp: Option<int>,
    dimensions: seq<Dimension>)

  /** One `putMetricData` call. */
  datatype PutRequest = PutRequest(namespace: string, data: seq<MetricDatum>)

  function ServiceDim(e: ExceptionEvent): Dimension { Dimension("Service", e.service) }
  function EnvironmentDim(e: ExceptionEvent): Dimension { Dimension("Environment", e.environment) }
  function TypeDim(e: ExceptionEvent): Dimension { Dimension("ExceptionType", e.exceptionType) }

  /** A counter datum stamped with the event's timestamp. */
  function Counter(e: ExceptionEvent, name: string, value: real, dims: seq<Dimension>): MetricDatum
  {
    MetricDatum(name, value, COUNT_UNIT, e.timestamp, dims)
  }

  /** One `ExceptionCountByTag` datum per tag, in tag order. */
  function TagMetrics(e: ExceptionEvent, tags: seq<string>): seq<MetricDatum>
  {
    if tags == [] then [] else
      TagMetrics(e, tags[..|tags| - 1])
      + [Counter(e, "ExceptionCountByTag", 1.0, [ServiceDim(e), Dimension("Tag", Some(tags[|tags| - 1])), EnvironmentDim(e)])]
  }

  /** The tags that produce metrics: none when the list is null or empty. */
  function MetricTags(e: ExceptionEvent): seq<string>
  {
    if e.tags.Some? then e.tags.value else []
  }

  /** The three counters every exception gets. */
  function BaseMetrics(e: ExceptionEvent, level: ExceptionLevel): seq<MetricDatum>
  {
    [ Counter(e, "ExceptionCount", 1.0, [ServiceDim(e), EnvironmentDim(e)]),
      Counter(e, "ExceptionCountByType", 1.0, [ServiceDim(e), TypeDim(e), EnvironmentDim(e)]),
      Counter(e, "ExceptionCountByLevel", 1.0, [ServiceDim(e), Dimension("Level", Some(LevelName(level))), EnvironmentDim(e)]) ]
  }

  function CriticalMetrics(e: ExceptionEvent, level: ExceptionLevel): seq<MetricDatum>
  {
    if IsCritical(level) then [Counter(e, "CriticalExceptionCount", 1.0, [ServiceDim(e), EnvironmentDim(e)])] else []
  }

  function FatalMetrics(e: ExceptionEvent, level: ExceptionLevel): seq<MetricDatum>
  {
    if level == FATAL then [Counter(e, "FatalExceptionCount", 1.0, [ServiceDim(e), EnvironmentDim(e)])] else []
  }

  function VersionMetrics(e: ExceptionEvent): seq<MetricDatum>
  {
    if e.version.Some?
    then [Counter(e, "ExceptionCountByVersion", 1.0, [ServiceDim(e), Dimension("Version", e.version), EnvironmentDim(e)])]
    else []
  }

  /** `createMetrics` for an event whose level is set: the three counters every
      exception gets, then the critical, fatal and version counters where they
      apply, then the tag counters. */
  function ExceptionMetrics(e: ExceptionEvent): seq<MetricDatum>
    requires e.level.Some?
  {
    BaseMetrics(e, e.level.value) + CriticalMetrics(e, e.level.value) + FatalMetrics(e, e.level.value)
    + VersionMetrics(e) + TagMetrics(e, MetricTags(e))
  }

  /** `createGroupedMetrics`: the frequency datum carrying the count, and the
      high-frequency alert when the count exceeds the threshold. */
  function GroupedMetrics(e: ExceptionEvent, count: int): seq<MetricDatum>
  {
    [Counter(e, "ExceptionFrequency", count as real, [ServiceDim(e), TypeDim(e), EnvironmentDim(e)])]
    + (if count > HIGH_FREQUENCY_THRESHOLD
       then [Counter(e, "HighFrequencyException", 1.0, [ServiceDim(e), TypeDim(e), EnvironmentDim(e)])]
       else [])
  }

  /** The metric names of a list of data, in order. */
  function Names(ms: seq<MetricDatum>): seq<string>
  {
    seq(|ms|, i requires 0 <= i < |ms| => ms[i].name)
  }

  lemma NamesAppend(a: seq<MetricDatum>, b: seq<MetricDatum>)
    ensures Names(a + b) == Names(a) + Names(b)
  {
    assert forall i :: 0 <= i < |a + b| ==> Names(a + b)[i] == (Names(a) + Names(b))[i];
  }

  /** The tag counters: exactly one per tag, in the tags' order, each naming its
      tag and counting 1. */
  lemma {:induction false} TagMetricsPerTag(e: ExceptionEvent, tags: seq<string>)
    ensures |TagMetrics(e, tags)| == |tags|
    ensures forall i :: 0 <= i < |tags| ==>
      TagMetrics(e, tags)[i] == Counter(e, "ExceptionCountByTag", 1.0, [ServiceDim(e), Dimension("Tag", Some(tags[i])), EnvironmentDim(e)])
    decreases |tags|
  {
    if tags != [] {
      TagMetricsPerTag(e, tags[..|tags| - 1]);
    }
  }

  /** The number of metrics is 3, plus one each for a critical level, a FATAL
      level and a version, plus one per tag. */
  lemma MetricCount(e: ExceptionEvent)
    requires e.level.Some?
    ensures |ExceptionMetrics(e)| ==
      3 + (if IsCritical(e.level.value) then 1 else 0) + (if e.level.value == FATAL then 1 else 0)
        + (if e.version.Some? then 1 else 0) + |MetricTags(e)|
  {
    TagMetricsPerTag(e, MetricTags(e));
  }

  /** The first three metrics are always ExceptionCount (with exactly the
      Service and Environment dimensions), ExceptionCountByType and
      ExceptionCountByLevel, each counting 1; every metric is a count stamped
      with the event's timestamp. */
  lemma BaseMetricsAlwaysEmitted(e: ExceptionEvent)
    requires e.level.Some?
    ensures |ExceptionMetrics(e)| >= 3
    ensures ExceptionMetrics(e)[0].name == "ExceptionCount"
    ensures ExceptionMetrics(e)[0].dimensions == [Dimension("Service", e.service), Dimension("Environment", e.environment)]
    ensures ExceptionMetrics(e)[1].name == "ExceptionCountByType"
    ensures ExceptionMetrics(e)[2].name == "ExceptionCountByLevel"
    ensures ExceptionMetrics(e)[2].dimensions[1] == Dimension("Level", Some(LevelName(e.level.value)))
    ensures forall i :: 0 <= i < |ExceptionMetrics(e)| ==>
      ExceptionMetrics(e)[i].value == 1.0 && ExceptionMetrics(e)[i].unit == COUNT_UNIT
      && ExceptionMetrics(e)[i].timestamp == e.timestamp
  {
    TagMetricsPerTag(e, MetricTags(e));
  }

  /** The names of the metrics `createMetrics` emits, in order. */
  lemma {:induction false} ExceptionMetricNames(e: ExceptionEvent)
    requires e.level.Some?
    ensures Names(ExceptionMetrics(e)) ==
      ["ExceptionCount", "ExceptionCountByType", "ExceptionCountByLevel"]
      + (if IsCritical(e.level.value) then ["CriticalExceptionCount"] else [])
      + (if e.level.value == FATAL then ["FatalExceptionCount"] else [])
      + (if e.version.Some? then ["ExceptionCountByVersion"] else [])
      + Names(TagMetrics(e, MetricTags(e)))
  {
    var level := e.level.value;
    var base, crit, fatal, ver := BaseMetrics(e, level), CriticalMetrics(e, level), FatalMetrics(e, level), VersionMetrics(e);
    var tags := TagMetrics(e, MetricTags(e));
    NamesAppend(base + crit + fatal + ver, tags);
    NamesAppend(base + crit + fatal, ver);
    NamesAppend(base + crit, fatal);
    NamesAppend(base, crit);
    assert Names(base) == ["ExceptionCount", "ExceptionCountByType", "ExceptionCountByLevel"];
    assert Names(crit) == if IsCritical(level) then ["CriticalExceptionCount"] else [];
    assert Names(fatal) == if level == FATAL then ["FatalExceptionCount"] else [];
    assert Names(ver) == if e.version.Some? then ["ExceptionCountByVersion"] else [];
  }

  /** The metrics that depend on the event: CriticalExceptionCount iff the level
      is critical, FatalExceptionCount iff it is FATAL, ExceptionCountByVersion iff
      a version is set. */
  lemma ConditionalMetrics(e: ExceptionEvent)
    requires e.level.Some?
    ensures "CriticalExceptionCount" in Names(ExceptionMetrics(e)) <==> IsCritical(e.level.value)
    ensures "FatalExceptionCount" in Names(ExceptionMetrics(e)) <==> e.level.value == FATAL
    ensures "ExceptionCountByVersion" in Names(ExceptionMetrics(e)) <==> e.version.Some?
  {
    ExceptionMetricNames(e);
    var tags := TagMetrics(e, MetricTags(e));
    TagMetricsPerTag(e, MetricTags(e));
    assert forall i :: 0 <= i < |tags| ==> Names(tags)[i] == "ExceptionCountByTag";
  }

  /** The tag counters come last, in tag order. */
  lemma TagMetricsComeLast(e: ExceptionEvent)
    requires e.level.Some?
    ensures |MetricTags(e)| <= |ExceptionMetrics(e)|
    ensures ExceptionMetrics(e)[|ExceptionMetrics(e)| - |MetricTags(e)|..] == TagMetrics(e, MetricTags(e))
  {
    TagMetricsPerTag(e, MetricTags(e));
  }

  /** Grouped metrics: ExceptionFrequency carries the count, and
      HighFrequencyException is emitted iff the count is above 10. */
  lemma GroupedMetricsShape(e: ExceptionEvent, count: int)
    ensures GroupedMetrics(e, count)[0].name == "ExceptionFrequency"
    ensures GroupedMetrics(e, count)[0].value == count as real
    ensures "HighFrequencyException" in Names(GroupedMetrics(e, count)) <==> count > HIGH_FREQUENCY_THRESHOLD
    ensures |GroupedMetrics(e, count)| == if count > HIGH_FREQUENCY_THRESHOLD then 2 else 1
  {
    var ms := GroupedMetrics(e, count);
    if count > HIGH_FREQUENCY_THRESHOLD {
      assert Names(ms)[1] == "HighFrequencyException";
    } else {
      assert Names(ms) == ["ExceptionFrequency"];
    }
  }

  /** `createMetrics` as the Java code runs it: a list built step by step with a
      loop over the tags. A null level makes `getLevel().toString()` throw, which
      is `None` here. */
  method CreateMetrics(e: ExceptionEvent) returns (ms: Option<seq<MetricDatum>>)
    ensures e.level.None? ==> ms.None?
    ensures e.level.Some? ==> ms == Some(ExceptionMetrics(e))
  {
    if e.level.None? {
      return None;
    }
    var level := e.level.value;
    var list: seq<MetricDatum> := [Counter(e, "ExceptionCount", 1.0, [ServiceDim(e), EnvironmentDim(e)])];
    list := list + [Counter(e, "ExceptionCountByType", 1.0, [ServiceDim(e), TypeDim(e), EnvironmentDim(e)])];
    list := list + [Counter(e, "ExceptionCountByLevel", 1.0, [ServiceDim(e), Dimension("Level", Some(LevelName(level))), EnvironmentDim(e)])];
    if IsCritical(level) {
      list := list + [Counter(e, "CriticalExceptionCount", 1.0, [ServiceDim(e), EnvironmentDim(e)])];
    }
    if level == FATAL {
      list := list + [Counter(e, "FatalExceptionCount", 1.0, [ServiceDim(e), EnvironmentDim(e)])];
    }
    if e.version.Some? {
      list := list + [Counter(e, "ExceptionCountByVersion", 1.0, [ServiceDim(e), Dimension("Version", e.version), EnvironmentDim(e)])];
    }
    ghost var prefix := list;
    if e.tags.Some? && e.tags.value != [] {
      var tags := e.tags.value;
      var i := 0;
      while i < |tags|
        invariant 0 <= i <= |tags|
        invariant list == prefix + TagMetrics(e, tags[..i])
      {
        assert tags[..i + 1][..i] == tags[..i];
        list := list + [Counter(e, "ExceptionCountByTag", 1.0, [ServiceDim(e), Dimension("Tag", Some(tags[i])), EnvironmentDim(e)])];
        i := i + 1;
      }
      assert tags[..|tags|] == tags;
      assert list == prefix + TagMetrics(e, MetricTags(e));
    } else {
      assert MetricTags(e) == [];
      assert list == prefix + TagMetrics(e, MetricTags(e));
    }
    assert prefix == BaseMetrics(e, level) + CriticalMetrics(e, level) + FatalMetrics(e, level) + VersionMetrics(e);
    return Some(list);
  }

  /** The CloudWatch publisher; `sent` is every request that reached CloudWatch. */
  class MetricsPublisher {
    const namespace: string
    var sent: seq<PutRequest>

    constructor(namespace: string)
      ensures this.namespace == namespace
      ensures sent == []
    {
      this.namespace := namespace;
      sent := [];
    }

    /** `publishExceptionMetrics`: a null event, a null level (the exception
        inside `createMetrics`) and a failed send are all logged and swallowed;
        otherwise exactly one request carrying `ExceptionMetrics` is sent. Nothing
        is ever reported to the caller. */
    method PublishExceptionMetrics(event: Option<ExceptionEvent>, sendFails: bool)
      modifies this`sent
      ensures event.None? || event.value.level.None? || sendFails ==> sent == old(sent)
      ensures event.Some? && event.value.level.Some? && !sendFails ==>
        sent == old(sent) + [PutRequest(namespace, ExceptionMetrics(event.value))]
    {
      if event.None? {
        return;
      }
      var metrics := CreateMetrics(event.value);
      if metrics.None? || sendFails {
        return;
      }
      BaseMetricsAlwaysEmitted(event.value);
      if metrics.value != [] {
        sent := sent + [PutRequest(namespace, metrics.value)];
      }
    }

    /** `publishGroupedExceptionMetrics`: one request with `GroupedMetrics`, or
        nothing when the send fails (also swallowed). */
    method PublishGroupedExceptionMetrics(event: ExceptionEvent, count: int, sendFails: bool)
      modifies this`sent
      ensures sendFails ==> sent == old(sent)
      ensures !sendFails ==> sent == old(sent) + [PutRequest(namespace, GroupedMetrics(event, count))]
    {
      if sendFails {
        return;
      }
      var metrics := GroupedMetrics(event, count);
      if metrics != [] {
        sent := sent + [PutRequest(namespace, metrics)];
      }
    }
  }
}
