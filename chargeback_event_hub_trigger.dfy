/** The Event Hub function: every recorded call of a batch is turned into a usage record and
    sent to telemetry; a call that cannot be processed is set aside and its exception is
    raised once the whole batch has been seen. */
module ChargebackEventHubTrigger {
  import opened Results
  import opened Json
  import opened OpenAiApiEvent
  import opened Collaborators
  import opened TokenServiceFactory
  import opened TokenInfo

  /** The name every usage record is tracked under. */
  const EventName: string := "Azure OpenAI Tokens"

  // ---------------------------------------------------------------------------------------
  // One event

  /** How the body of the `try` ends for one event: skipped by the `continue`, a record
      emitted, or an exception caught. */
  datatype EventOutcome = Skipped | Emitted(info: TokenInfo) | Failed(error: Error)

  /** The stream flag: false when the request has no `stream` property, otherwise `(bool)` of
      its value, which throws for a value that does not convert. */
  function StreamFlag(request: map<string, Json>): (r: Result<bool>)
    ensures "stream" !in request ==> r == Ok(false)
    ensures "stream" in request ==> r == ToBoolean(request["stream"])
    ensures "stream" in request && request["stream"].JBool? ==> r == Ok(request["stream"].b)
    ensures r.Err? ==> "stream" in request && ToBoolean(request["stream"]) == r
  {
    if "stream" in request then ToBoolean(request["stream"]) else Ok(false)
  }

  /** What processing one raw event amounts to: deserialize, skip an incomplete event, parse
      the request, read the stream flag, pick the calculator and ask it for the prompt and
      then the completion tokens. */
  function ProcessEvent(ext: Externals, raw: string): (r: EventOutcome)
    ensures ext.deserialize(raw).Err? ==> r == Failed(ext.deserialize(raw).error)
    ensures ext.deserialize(raw) == Ok(None) ==> r == Skipped
    ensures ext.deserialize(raw).Ok? && ext.deserialize(raw).value.Some? ==>
      var event := ext.deserialize(raw).value.value;
      (event.response.None? || event.apiOperation.None? ==> r == Skipped)
      && (event.response.Some? && event.apiOperation.Some? ==> !r.Skipped?)
      && (event.response.Some? && event.apiOperation.Some? && ParseObject(ext.parse, event.request).Err? ==>
            r == Failed(ParseObject(ext.parse, event.request).error))
    ensures r.Emitted? ==>
      ext.deserialize(raw).Ok? && ext.deserialize(raw).value.Some?
      && var event := ext.deserialize(raw).value.value;
      && event.apiOperation == Some(r.info.apiOperation)
      && r.info.appKey == event.appSubscriptionKey
      && r.info.timestamp == event.eventTime
      && ParseObject(ext.parse, event.request).Ok?
      && StreamFlag(ParseObject(ext.parse, event.request).value) == Ok(r.info.stream)
      && CalculatePromptTokens(GetStreamService(r.info.stream), ext, event) == Ok(r.info.promptTokens)
      && CompletionTokens(GetStreamService(r.info.stream), ext, event) == Ok(r.info.completionTokens)
  {
    match ext.deserialize(raw)
    case Err(e) => Failed(e)
    case Ok(None) => Skipped
    case Ok(Some(event)) =>
      if event.response.None? || event.apiOperation.None? then Skipped
      else
        match ParseObject(ext.parse, event.request)
        case Err(e) => Failed(e)
        case Ok(requestObject) =>
          match StreamFlag(requestObject)
          case Err(e) => Failed(e)
          case Ok(isStream) =>
            var service := GetStreamService(isStream);
            match CalculatePromptTokens(service, ext, event)
            case Err(e) => Failed(e)
            case Ok(prompt) =>
              match CompletionTokens(service, ext, event)
              case Err(e) => Failed(e)
              case Ok(completion) =>
                Emitted(TokenInfo(event.apiOperation.value, event.appSubscriptionKey, event.eventTime,
                                  isStream, prompt, completion))
  }

  /** An event that gets past the skip either emits a record or fails; a failure is the
      exception of the first step that throws, and the steps after it are not run. */
  lemma FailureSources(ext: Externals, raw: string, event: OpenAiApiEvent, request: map<string, Json>)
    requires ext.deserialize(raw) == Ok(Some(event))
    requires event.response.Some? && event.apiOperation.Some?
    requires ParseObject(ext.parse, event.request) == Ok(request)
    ensures StreamFlag(request).Err? ==> ProcessEvent(ext, raw) == Failed(StreamFlag(request).error)
    ensures StreamFlag(request).Ok? ==>
      var service := GetStreamService(StreamFlag(request).value);
      (CalculatePromptTokens(service, ext, event).Err? ==>
         ProcessEvent(ext, raw) == Failed(CalculatePromptTokens(service, ext, event).error))
      && (CalculatePromptTokens(service, ext, event).Ok? && CompletionTokens(service, ext, event).Err? ==>
         ProcessEvent(ext, raw) == Failed(CompletionTokens(service, ext, event).error))
      && (CalculatePromptTokens(service, ext, event).Ok? && CompletionTokens(service, ext, event).Ok? ==>
         ProcessEvent(ext, raw).Emitted?)
  {
  }

  // ---------------------------------------------------------------------------------------
  // The batch

  /** The outcome of every event of the batch, in order. */
  function Outcomes(ext: Externals, raws: seq<string>): (os: seq<EventOutcome>)
    ensures |os| == |raws|
    ensures forall i :: 0 <= i < |raws| ==> os[i] == ProcessEvent(ext, raws[i])
  {
    seq(|raws|, i requires 0 <= i < |raws| => ProcessEvent(ext, raws[i]))
  }

  /** The records emitted, in the order of their events. */
  function Records(os: seq<EventOutcome>): seq<TokenInfo> {
    if os == [] then []
    else Records(os[..|os| - 1]) + (if os[|os| - 1].Emitted? then [os[|os| - 1].info] else [])
  }

  /** The exceptions caught, in the order of their events. */
  function Failures(os: seq<EventOutcome>): seq<Error> {
    if os == [] then []
    else Failures(os[..|os| - 1]) + (if os[|os| - 1].Failed? then [os[|os| - 1].error] else [])
  }

  /** The number of events skipped. */
  function SkippedCount(os: seq<EventOutcome>): nat {
    if os == [] then 0
    else SkippedCount(os[..|os| - 1]) + (if os[|os| - 1].Skipped? then 1 else 0)
  }

  /** Every event is exactly one of emitted, failed and skipped. */
  lemma {:induction false} Partition(os: seq<EventOutcome>)
    ensures |Records(os)| + |Failures(os)| + SkippedCount(os) == |os|
  {
    if os != [] {
      Partition(os[..|os| - 1]);
    }
  }

  /** What one part of a batch emits and fails does not depend on the other part: the records
      and the failures of a concatenation are those of the parts, in order. */
  lemma {:induction false} SplitBatch(a: seq<EventOutcome>, b: seq<EventOutcome>)
    ensures Records(a + b) == Records(a) + Records(b)
    ensures Failures(a + b) == Failures(a) + Failures(b)
    ensures SkippedCount(a + b) == SkippedCount(a) + SkippedCount(b)
    decreases |b|
  {
    if b == [] {
      assert a + b == a;
    } else {
      var b' := b[..|b| - 1];
      assert (a + b)[..|a + b| - 1] == a + b';
      assert (a + b)[|a + b| - 1] == b[|b| - 1];
      SplitBatch(a, b');
    }
  }

  /** Outcomes of a batch split at any point are the outcomes of the two parts. */
  lemma OutcomesAppend(ext: Externals, a: seq<string>, b: seq<string>)
    ensures Outcomes(ext, a + b) == Outcomes(ext, a) + Outcomes(ext, b)
  {
  }

  /** A failing event does not stop the batch: the events after it emit exactly what they
      would emit on their own. */
  lemma FailureDoesNotStopBatch(ext: Externals, before: seq<string>, raw: string, after: seq<string>)
    requires ProcessEvent(ext, raw).Failed?
    ensures Records(Outcomes(ext, before + [raw] + after)) ==
      Records(Outcomes(ext, before)) + Records(Outcomes(ext, after))
    ensures Failures(Outcomes(ext, before + [raw] + after)) ==
      Failures(Outcomes(ext, before)) + [ProcessEvent(ext, raw).error] + Failures(Outcomes(ext, after))
  {
    OutcomesAppend(ext, before + [raw], after);
    OutcomesAppend(ext, before, [raw]);
    SplitBatch(Outcomes(ext, before + [raw]), Outcomes(ext, after));
    SplitBatch(Outcomes(ext, before), Outcomes(ext, [raw]));
    assert Outcomes(ext, [raw]) == [ProcessEvent(ext, raw)];
    assert Records([ProcessEvent(ext, raw)]) == [];
    assert Failures([ProcessEvent(ext, raw)]) == [ProcessEvent(ext, raw).error];
  }

  // ---------------------------------------------------------------------------------------
  // The outcome of the batch

  /** How `Run` ends: normally, by rethrowing the one exception caught, or by throwing an
      `AggregateException` of all of them. */
  datatype RunOutcome = Completed | Rethrown(error: Error) | Aggregate(errors: seq<Error>)

  /** The outcome policy applied to the exceptions collected over the batch. */
  function OutcomePolicy(exceptions: seq<Error>): (r: RunOutcome)
    ensures r == Completed <==> exceptions == []
    ensures r.Rethrown? <==> |exceptions| == 1
    ensures r.Rethrown? ==> r.error == exceptions[0]
    ensures r.Aggregate? <==> |exceptions| > 1
    ensures r.Aggregate? ==> r.errors == exceptions
  {
    if |exceptions| > 1 then Aggregate(exceptions)
    else if |exceptions| == 1 then Rethrown(exceptions[0])
    else Completed
  }

  // ---------------------------------------------------------------------------------------
  // The telemetry sink and the function

  /** One `TrackEvent` call: the event name and its string properties. */
  datatype TrackedEvent = TrackedEvent(name: string, properties: map<string, Option<string>>)

  /** The events tracked for `records`, the `k`-th under the id `newGuid(start + k)`. */
  function TrackedRecords(records: seq<TokenInfo>, newGuid: nat -> string, start: nat): seq<TrackedEvent> {
    seq(|records|, k requires 0 <= k < |records| => TrackedEvent(EventName, records[k].ToDictionary(newGuid(start + k))))
  }

  /** One tracked event per record, in order, the `k`-th under `newGuid(start + k)`. */
  lemma TrackedRecordsAt(records: seq<TokenInfo>, newGuid: nat -> string, start: nat)
    ensures |TrackedRecords(records, newGuid, start)| == |records|
    ensures forall k :: 0 <= k < |records| ==>
      TrackedRecords(records, newGuid, start)[k] == TrackedEvent(EventName, records[k].ToDictionary(newGuid(start + k)))
  {
  }

  /** The Application Insights client as the function uses it: a log of tracked events. */
  class TelemetryClient {
    var tracked: seq<TrackedEvent>

    constructor()
      ensures tracked == []
    {
      tracked := [];
    }

    method TrackEvent(name: string, properties: map<string, Option<string>>)
      modifies this
      ensures tracked == old(tracked) + [TrackedEvent(name, properties)]
    {
      tracked := tracked + [TrackedEvent(name, properties)];
    }
  }

  /** The function object: the calculators and the libraries behind them, and the client. */
  class ChargebackEventHubTrigger {
    const externals: Externals
    const telemetryClient: TelemetryClient

    constructor(externals: Externals, telemetryClient: TelemetryClient)
      ensures this.externals == externals && this.telemetryClient == telemetryClient
    {
      this.externals := externals;
      this.telemetryClient := telemetryClient;
    }

    /** The body of the `try` for one event. */
    method ComputeEvent(eventData: string) returns (outcome: EventOutcome)
      ensures outcome == ProcessEvent(externals, eventData)
    {
      var deserialized := externals.deserialize(eventData);
      if deserialized.Err? {
        return Failed(deserialized.error);
      }
      if deserialized.value.None? || deserialized.value.value.response.None? || deserialized.value.value.apiOperation.None? {
        return Skipped;
      }
      var openAiApiEvent := deserialized.value.value;
      var requestObject := ParseObject(externals.parse, openAiApiEvent.request);
      if requestObject.Err? {
        return Failed(requestObject.error);
      }
      var isStream := false;
      if "stream" in requestObject.value {
        var converted := ToBoolean(requestObject.value["stream"]);
        if converted.Err? {
          return Failed(converted.error);
        }
        isStream := converted.value;
      }
      var tokenService := GetStreamService(isStream);
      var promptTokens := CalculatePromptTokens(tokenService, externals, openAiApiEvent);
      if promptTokens.Err? {
        return Failed(promptTokens.error);
      }
      var completionTokens := CalculateCompletionTokens(tokenService, externals, openAiApiEvent);
      if completionTokens.Err? {
        return Failed(completionTokens.error);
      }
      return Emitted(TokenInfo(openAiApiEvent.apiOperation.value, openAiApiEvent.appSubscriptionKey,
                               openAiApiEvent.eventTime, isStream, promptTokens.value, completionTokens.value));
    }

    /** `Run`: every event is processed in order; each emitted record is tracked, each caught
        exception collected, and the outcome decided by how many were caught. The `k`-th
        record emitted is flattened with the id `newGuid(k)`. */
    method Run(openAiApiEvents: seq<string>, newGuid: nat -> string) returns (outcome: RunOutcome)
      modifies telemetryClient
      ensures telemetryClient.tracked ==
        old(telemetryClient.tracked) + TrackedRecords(Records(Outcomes(externals, openAiApiEvents)), newGuid, 0)
      ensures outcome == OutcomePolicy(Failures(Outcomes(externals, openAiApiEvents)))
    {
      var exceptions: seq<Error> := [];
      var emitted: nat := 0;
      var i := 0;
      while i < |openAiApiEvents|
        invariant 0 <= i <= |openAiApiEvents|
        invariant exceptions == Failures(Outcomes(externals, openAiApiEvents[..i]))
        invariant emitted == |Records(Outcomes(externals, openAiApiEvents[..i]))|
        invariant telemetryClient.tracked ==
          old(telemetryClient.tracked) + TrackedRecords(Records(Outcomes(externals, openAiApiEvents[..i])), newGuid, 0)
      {
        var eventData := openAiApiEvents[i];
        ghost var before := Outcomes(externals, openAiApiEvents[..i]);
        OutcomesStep(externals, openAiApiEvents, i);
        var result := ComputeEvent(eventData);
        match result {
          case Skipped =>
          case Failed(e) =>
            exceptions := exceptions + [e];
          case Emitted(tokenInfo) =>
            telemetryClient.TrackEvent(EventName, tokenInfo.ToDictionary(newGuid(emitted)));
            TrackedSnoc(Records(before), tokenInfo, newGuid);
            emitted := emitted + 1;
        }
        i := i + 1;
      }
      assert openAiApiEvents[..i] == openAiApiEvents;
      if |exceptions| > 1 {
        return Aggregate(exceptions);
      }
      if |exceptions| == 1 {
        return Rethrown(exceptions[0]);
      }
      return Completed;
    }
  }

  /** One more event: its outcome is appended to the records or the failures of the events
      before it. */
  lemma OutcomesStep(ext: Externals, raws: seq<string>, i: nat)
    requires i < |raws|
    ensures var before := Outcomes(ext, raws[..i]);
      var o := ProcessEvent(ext, raws[i]);
      && Records(Outcomes(ext, raws[..i + 1])) == Records(before) + (if o.Emitted? then [o.info] else [])
      && Failures(Outcomes(ext, raws[..i + 1])) == Failures(before) + (if o.Failed? then [o.error] else [])
  {
    assert Outcomes(ext, raws[..i + 1]) == Outcomes(ext, raws[..i]) + [ProcessEvent(ext, raws[i])];
  }

  lemma TrackedSnoc(records: seq<TokenInfo>, info: TokenInfo, newGuid: nat -> string)
    ensures TrackedRecords(records + [info], newGuid, 0) ==
      TrackedRecords(records, newGuid, 0) + [TrackedEvent(EventName, info.ToDictionary(newGuid(|records|)))]
  {
  }
}
