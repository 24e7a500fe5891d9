/** `ExceptionWatcherHandler`: the Lambda entry point that feeds every SNS record
    to the exception processor and reports how many were processed and how many
    failed. */
module ExceptionWatcher {
  import opened Wrappers
  import opened JavaLang
  import opened JavaStrings
  import opened LambdaEvents
  import opened Metrics
  import opened ExceptionStore
  import opened ExceptionProcessing

  /** What `processRecord` rethrows for any failure. */
  const RECORD_FAILED := "Failed to process SNS record"

  /** An SNS record: its id and its (possibly null) message. */
  datatype SnsRecord = SnsRecord(messageId: string, message: Option<string>)

  /** A record as delivered, with how the AWS calls behave while it is processed. */
  datatype Delivery = Delivery(record: SnsRecord, calls: Outcomes)

  /** What Jackson makes of a message: a parse failure, the JSON literal null,
      or an event. */
  datatype Decoding = Undecodable | NullJson | Decoded(event: ExceptionEvent)

  datatype Tally = Tally(processed: nat, errors: nat)

  /** How the processor treats a decoded event of a delivery, from a given state. */
  type Processor<!S> = (S, Delivery, ExceptionEvent) -> (Result<(), ProcessError>, S)

  /** The exception processor over a table and a metrics namespace. */
  function ProcessorOver(tableName: Option<string>, namespace: string): Processor<Store>
  {
    (s: Store, d: Delivery, e: ExceptionEvent) => Process(s, Some(e), d.calls, tableName, namespace)
  }

  /** `processRecord`: `Ok(true)` processed, `Ok(false)` skipped, `Err` thrown;
      together with the state after it. */
  function Step<S>(s: S, d: Delivery, decode: string -> Decoding, process: Processor<S>): (Result<bool, string>, S)
  {
    var message := d.record.message;
    if message.None? || Blank(message.value) then (Ok(false), s)
    else match decode(message.value)
      case Undecodable => (Err(RECORD_FAILED), s)
      case NullJson => (Ok(false), s)
      case Decoded(e) =>
        var processed := process(s, d, e);
        (if processed.0.Ok? then Ok(true) else Err(RECORD_FAILED), processed.1)
  }

  /** The counters one record outcome adds. */
  function Count(outcome: Result<bool, string>): Tally
  {
    match outcome
    case Ok(processed) => Tally(if processed then 1 else 0, 0)
    case Err(_) => Tally(0, 1)
  }

  function Add(a: Tally, b: Tally): Tally
  {
    Tally(a.processed + b.processed, a.errors + b.errors)
  }

  lemma AddZero(t: Tally)
    ensures Add(Tally(0, 0), t) == t
  {
  }

  lemma AddAssociative(a: Tally, b: Tally, c: Tally)
    ensures Add(Add(a, b), c) == Add(a, Add(b, c))
  {
  }

  /** The records handled in order: the counters and the state at the end. A
      failing record is counted and the next one is handled all the same. */
  function Run<S>(s: S, ds: seq<Delivery>, decode: string -> Decoding, process: Processor<S>)
    : (Tally, S)
    decreases |ds|
  {
    if ds == [] then (Tally(0, 0), s)
    else
      var first := Step(s, ds[0], decode, process);
      var rest := Run(first.1, ds[1..], decode, process);
      (Add(Count(first.0), rest.0), rest.1)
  }

  /** The text `handleRequest` returns. */
  function Summary(t: Tally): string
  {
    "Processed: " + NatToString(t.processed) + ", Errors: " + NatToString(t.errors)
  }

  /** Every record adds at most one to exactly one counter, so the two counters
      never add up to more than the number of records. */
  lemma {:induction false} TallyBounded<S>(s: S, ds: seq<Delivery>, decode: string -> Decoding,
                                        process: Processor<S>)
    ensures Run(s, ds, decode, process).0.processed + Run(s, ds, decode, process).0.errors <= |ds|
    decreases |ds|
  {
    if ds != [] {
      TallyBounded(Step(s, ds[0], decode, process).1, ds[1..], decode, process);
    }
  }

  /** Handling `a + b` is handling `a`, then handling `b` from where `a` left
      off: a failure in `a` never stops `b`, and the counters add up. */
  lemma {:induction false} RunAppend<S>(s: S, a: seq<Delivery>, b: seq<Delivery>, decode: string -> Decoding,
                                     process: Processor<S>)
    ensures var ra := Run(s, a, decode, process);
      var rb := Run(ra.1, b, decode, process);
      Run(s, a + b, decode, process) == (Add(ra.0, rb.0), rb.1)
    decreases |a|
  {
    if a == [] {
      assert a + b == b;
      AddZero(Run(s, b, decode, process).0);
    } else {
      assert (a + b)[1..] == a[1..] + b;
      assert (a + b)[0] == a[0];
      var first := Step(s, a[0], decode, process);
      RunAppend(first.1, a[1..], b, decode, process);
      var ra' := Run(first.1, a[1..], decode, process);
      var rb := Run(ra'.1, b, decode, process);
      assert Run(s, a + b, decode, process) == (Add(Count(first.0), Add(ra'.0, rb.0)), rb.1);
      assert Run(s, a, decode, process) == (Add(Count(first.0), ra'.0), ra'.1);
      AddAssociative(Count(first.0), ra'.0, rb.0);
    }
  }

  /** A null or whitespace-only message is skipped: it counts as neither
      processed nor failed, and changes nothing. */
  lemma BlankMessageSkipped<S>(s: S, d: Delivery, rest: seq<Delivery>, decode: string -> Decoding,
                            process: Processor<S>)
    requires d.record.message.None? || Blank(d.record.message.value)
    ensures Run(s, [d] + rest, decode, process) == Run(s, rest, decode, process)
  {
    assert ([d] + rest)[1..] == rest;
    assert ([d] + rest)[0] == d;
    var first := Step(s, d, decode, process);
    assert first == (Ok(false), s);
    var r := Run(s, rest, decode, process);
    assert Run(s, [d] + rest, decode, process) == (Add(Count(first.0), r.0), r.1);
  }

  /** An undecodable message counts as one error and never reaches the
      processor, so the state is untouched. */
  lemma UndecodableIsAnError<S>(s: S, d: Delivery, rest: seq<Delivery>, decode: string -> Decoding,
                             process: Processor<S>)
    requires d.record.message.Some? && !Blank(d.record.message.value)
    requires decode(d.record.message.value).Undecodable?
    ensures var r := Run(s, rest, decode, process);
      Run(s, [d] + rest, decode, process) == (Tally(r.0.processed, r.0.errors + 1), r.1)
  {
    assert ([d] + rest)[1..] == rest;
    assert ([d] + rest)[0] == d;
    var first := Step(s, d, decode, process);
    assert first == (Err(RECORD_FAILED), s);
    var r := Run(s, rest, decode, process);
    assert Run(s, [d] + rest, decode, process) == (Add(Count(first.0), r.0), r.1);
  }

  /** An event the processor rejects as invalid still counts as processed,
      because `processException` returns normally for it. */
  lemma InvalidEventCountsAsProcessed(s: Store, d: Delivery, decode: string -> Decoding,
                                      tableName: Option<string>, namespace: string)
    requires d.record.message.Some? && !Blank(d.record.message.value)
    requires decode(d.record.message.value).Decoded? && !IsValidEvent(decode(d.record.message.value).event)
    ensures Run(s, [d], decode, ProcessorOver(tableName, namespace)) == (Tally(1, 0), s)
  {
    var e := decode(d.record.message.value).event;
    var process := ProcessorOver(tableName, namespace);
    assert process(s, d, e) == (Ok(()), s);
    var first := Step(s, d, decode, process);
    assert first == (Ok(true), s);
    assert [d][1..] == [];
    assert [d][0] == d;
    var r := Run(s, [], decode, process);
    assert r == (Tally(0, 0), s);
    assert Run(s, [d], decode, process) == (Add(Count(first.0), r.0), r.1);
  }

  /** The summary text determines both counters. */
  lemma SummaryDeterminesCounts(a: Tally, b: Tally)
    requires Summary(a) == Summary(b)
    ensures a == b
  {
    var pa, pb := NatToString(a.processed), NatToString(b.processed);
    var prefix := "Processed: ";
    var sa, sb := Summary(a), Summary(b);
    assert sa[|prefix| + |pa|] == ',';
    assert sb[|prefix| + |pb|] == ',';
    assert |pa| == |pb|;
    assert pa == sa[|prefix|..|prefix| + |pa|] == sb[|prefix|..|prefix| + |pb|] == pb;
    DigitsValueOfNatToString(a.processed);
    DigitsValueOfNatToString(b.processed);
    var ea, eb := NatToString(a.errors), NatToString(b.errors);
    var k := |prefix| + |pa| + |", Errors: "|;
    assert ea == sa[k..] == sb[k..] == eb;
    DigitsValueOfNatToString(a.errors);
    DigitsValueOfNatToString(b.errors);
  }

  class ExceptionWatcherHandler {
    const processor: ExceptionProcessor

    constructor(processor: ExceptionProcessor)
      ensures this.processor == processor
    {
      this.processor := processor;
    }

    /** `processRecord`. */
    method ProcessRecord(d: Delivery, decode: string -> Decoding) returns (wasProcessed: Result<bool, string>)
      modifies processor.repository`items, processor.metricsPublisher`sent
      ensures (wasProcessed, Store(processor.repository.items, processor.metricsPublisher.sent))
        == Step(Store(old(processor.repository.items), old(processor.metricsPublisher.sent)), d, decode,
                ProcessorOver(processor.repository.tableName, processor.metricsPublisher.namespace))
    {
      var message := d.record.message;
      if message.None? || Blank(message.value) {
        return Ok(false);
      }
      var decoded := decode(message.value);
      match decoded {
        case Undecodable =>
          return Err(RECORD_FAILED);
        case NullJson =>
          return Ok(false);
        case Decoded(e) =>
          var res := processor.ProcessException(Some(e), d.calls);
          assert (res, Store(processor.repository.items, processor.metricsPublisher.sent))
            == ProcessorOver(processor.repository.tableName, processor.metricsPublisher.namespace)(
                 Store(old(processor.repository.items), old(processor.metricsPublisher.sent)), d, e);
          if res.Err? {
            return Err(RECORD_FAILED);
          }
          return Ok(true);
      }
    }

    /** `handleRequest`: the records in order, each failure counted and the loop
        carried on; the result is the summary of `Run`. */
    method HandleRequest(ds: seq<Delivery>, decode: string -> Decoding) returns (result: string)
      modifies processor.repository`items, processor.metricsPublisher`sent
      ensures var run := Run(Store(old(processor.repository.items), old(processor.metricsPublisher.sent)), ds, decode,
                             ProcessorOver(processor.repository.tableName, processor.metricsPublisher.namespace));
        result == Summary(run.0) && Store(processor.repository.items, processor.metricsPublisher.sent) == run.1
    {
      ghost var s0 := Store(processor.repository.items, processor.metricsPublisher.sent);
      ghost var process := ProcessorOver(processor.repository.tableName, processor.metricsPublisher.namespace);
      var processedCount: nat := 0;
      var errorCount: nat := 0;
      var i := 0;
      assert ds[0..] == ds;
      AddZero(Run(s0, ds, decode, process).0);
      while i < |ds|
        invariant 0 <= i <= |ds|
        invariant var rest := Run(Store(processor.repository.items, processor.metricsPublisher.sent), ds[i..], decode, process);
          Run(s0, ds, decode, process) == (Add(Tally(processedCount, errorCount), rest.0), rest.1)
      {
        ghost var si := Store(processor.repository.items, processor.metricsPublisher.sent);
        var wasProcessed := ProcessRecord(ds[i], decode);
        ghost var rest := Run(Store(processor.repository.items, processor.metricsPublisher.sent), ds[i + 1..], decode, process);
        assert ds[i..][1..] == ds[i + 1..];
        assert ds[i..][0] == ds[i];
        assert Run(si, ds[i..], decode, process) == (Add(Count(wasProcessed), rest.0), rest.1);
        AddAssociative(Tally(processedCount, errorCount), Count(wasProcessed), rest.0);
        ghost var before := Tally(processedCount, errorCount);
        if wasProcessed.Err? {
          errorCount := errorCount + 1;
        } else if wasProcessed.value {
          processedCount := processedCount + 1;
        }
        assert Tally(processedCount, errorCount) == Add(before, Count(wasProcessed));
        i := i + 1;
      }
      return Summary(Tally(processedCount, errorCount));
    }
  }
}
