/** The timeline built from a history (observability.py), and why its counters agree with the reducer. */
module Timeline {
  import opened Models
  import opened History
  import opened HistoryFacts

  /** What the detail text of an entry is made from. */
  datatype Detail =
    | Materialized(steps: nat)
    | Intent(operationKey: string)
    | Reason(error: string)
    | Reference(output: ToolResult)
    | AllComplete

  datatype TimelineEntry = TimelineEntry(
    sequence: int, elapsedMs: int, occurredAt: Time, eventType: EventType, stepId: Option<string>,
    operation: Option<Operation>, attempt: Option<int>, workerId: Option<string>, fenceToken: Option<int>,
    waitMs: Option<int>, detail: Detail)

  datatype TimelineSummary = TimelineSummary(
    status: RunStatus, durationMs: int, attempts: nat, retries: nat, plannedWaitMs: int,
    stepDurationMs: map<string, int>)

  datatype RunTimeline = RunTimeline(runId: string, entries: seq<TimelineEntry>, summary: TimelineSummary)

  // ----- milliseconds -----

  /** Microseconds to milliseconds, halves to the even neighbour. */
  function Milliseconds(microseconds: int): int {
    var whole, rest := microseconds / 1000, microseconds % 1000;
    if rest < 500 || (rest == 500 && whole % 2 == 0) then whole else whole + 1
  }

  /** Rounding is off by at most half a millisecond, with halves to the even side, keeps the order, and treats both
      signs alike. */
  lemma MillisecondsRound(a: int, b: int)
    ensures -500 <= 1000 * Milliseconds(a) - a <= 500
    ensures -500 < 1000 * Milliseconds(a) - a < 500 || Milliseconds(a) % 2 == 0
    ensures a <= b ==> Milliseconds(a) <= Milliseconds(b)
    ensures Milliseconds(-a) == -Milliseconds(a)
  {
  }

  // ----- what is counted -----

  function CountAll(events: seq<Event>, eventType: EventType): nat {
    if events == [] then 0
    else CountAll(events[..|events| - 1], eventType) + if events[|events| - 1].eventType == eventType then 1 else 0
  }

  /** The sum of the counts per step. */
  function CountPerStep(events: seq<Event>, eventType: EventType, steps: seq<StepRecord>): nat {
    if steps == [] then 0
    else CountPerStep(events, eventType, steps[..|steps| - 1]) + CountType(events, eventType, steps[|steps| - 1].id)
  }

  function WaitOf(event: Event): int {
    if event.eventType.StepRetryScheduled? && event.payload.RetryPayload?
    then (var wait := Milliseconds(event.payload.nextAttemptAt - event.occurredAt); if wait < 0 then 0 else wait)
    else 0
  }

  function TotalWait(events: seq<Event>): int {
    if events == [] then 0 else TotalWait(events[..|events| - 1]) + WaitOf(events[|events| - 1])
  }

  /** When an event of the given type first happened to the step. */
  function FirstTime(events: seq<Event>, eventType: EventType, stepId: string): Option<Time> {
    if events == [] then None
    else
      var last, rest := events[|events| - 1], FirstTime(events[..|events| - 1], eventType, stepId);
      if rest.Some? then rest
      else if last.eventType == eventType && last.stepId == Some(stepId) then Some(last.occurredAt) else None
  }

  lemma {:induction false} FirstTimeExists(events: seq<Event>, eventType: EventType, stepId: string)
    ensures FirstTime(events, eventType, stepId).Some? <==> CountType(events, eventType, stepId) > 0
  {
    if events != [] {
      FirstTimeExists(events[..|events| - 1], eventType, stepId);
    }
  }

  lemma {:induction false} CountPerStepStays(before: seq<Event>, event: Event, eventType: EventType,
                                             steps: seq<StepRecord>)
    requires forall i :: 0 <= i < |steps| ==> event.eventType != eventType || event.stepId != Some(steps[i].id)
    ensures CountPerStep(before + [event], eventType, steps) == CountPerStep(before, eventType, steps)
  {
    if steps != [] {
      CountPerStepStays(before, event, eventType, steps[..|steps| - 1]);
      CountAppend(before, event, eventType, steps[|steps| - 1].id);
    }
  }

  /** An event of exactly one of the steps is counted once. */
  lemma {:induction false} CountPerStepMoves(before: seq<Event>, event: Event, eventType: EventType,
                                             steps: seq<StepRecord>, i: nat)
    requires i < |steps| && event.eventType == eventType && event.stepId == Some(steps[i].id)
    requires forall j, k :: 0 <= j < k < |steps| ==> steps[j].id != steps[k].id
    ensures CountPerStep(before + [event], eventType, steps) == CountPerStep(before, eventType, steps) + 1
  {
    var n := |steps| - 1;
    var init := steps[..n];
    assert forall j :: 0 <= j < n ==> init[j] == steps[j];
    CountAppend(before, event, eventType, steps[n].id);
    if i == n {
      CountPerStepStays(before, event, eventType, init);
    } else {
      CountPerStepMoves(before, event, eventType, init, i);
    }
  }

  /** Every event of the type belongs to one of the steps. */
  ghost predicate AllNamed(events: seq<Event>, eventType: EventType, steps: seq<StepRecord>) {
    forall k :: 0 <= k < |events| && events[k].eventType == eventType ==>
      exists i :: 0 <= i < |steps| && events[k].stepId == Some(steps[i].id)
  }

  lemma {:induction false} CountSplits(events: seq<Event>, eventType: EventType, steps: seq<StepRecord>)
    requires AllNamed(events, eventType, steps)
    requires forall j, k :: 0 <= j < k < |steps| ==> steps[j].id != steps[k].id
    ensures CountAll(events, eventType) == CountPerStep(events, eventType, steps)
  {
    if events == [] {
      NothingCounted(eventType, steps);
    } else {
      var n := |events| - 1;
      var init, last := events[..n], events[n];
      assert forall k :: 0 <= k < n ==> init[k] == events[k];
      CountSplits(init, eventType, steps);
      assert events == init + [last];
      if last.eventType == eventType {
        var i :| 0 <= i < |steps| && last.stepId == Some(steps[i].id);
        CountPerStepMoves(init, last, eventType, steps, i);
      } else {
        CountPerStepStays(init, last, eventType, steps);
      }
    }
  }

  lemma {:induction false} NothingCounted(eventType: EventType, steps: seq<StepRecord>)
    ensures CountPerStep([], eventType, steps) == 0
  {
    if steps != [] {
      NothingCounted(eventType, steps[..|steps| - 1]);
    }
  }

  lemma {:induction false} AttemptsAreStarts(events: seq<Event>, steps: seq<StepRecord>)
    requires forall i :: 0 <= i < |steps| ==> steps[i].attempts == CountType(events, StepAttemptStarted, steps[i].id)
    ensures AttemptTotal(steps) == CountPerStep(events, StepAttemptStarted, steps)
  {
    if steps != [] {
      assert forall i :: 0 <= i < |steps| - 1 ==> steps[..|steps| - 1][i] == steps[i];
      AttemptsAreStarts(events, steps[..|steps| - 1]);
    }
  }

  lemma IdsDiffer(runId: string, run: WorkflowRun)
    requires Shaped(runId, run)
    ensures forall j, k :: 0 <= j < k < |run.steps| ==> run.steps[j].id != run.steps[k].id
  {
    forall j, k | 0 <= j < k < |run.steps| ensures run.steps[j].id != run.steps[k].id {
      StepIdsUnique(runId, run, j, k);
    }
  }

  /** In an accepted history the attempt events are as many as the attempts of all steps of the reduced run. */
  lemma StartsAreAttempts(events: seq<Event>)
    requires Reduce(events).Ok?
    ensures CountAll(events, StepAttemptStarted) == AttemptTotal(Reduce(events).value.steps)
  {
    var runId, run := events[0].runId, Reduce(events).value;
    ReplayShaped(runId, events);
    IdsDiffer(runId, run);
    ReplayBooked(runId, events);
    forall i | 0 <= i < |run.steps| ensures run.steps[i].attempts == CountType(events, StepAttemptStarted,
          run.steps[i].id) {
      assert StepBooked(events, run.steps[i]);
    }
    AttemptsAreStarts(events, run.steps);
    forall k | 0 <= k < |events| && events[k].eventType == StepAttemptStarted
      ensures exists i :: 0 <= i < |run.steps| && events[k].stepId == Some(run.steps[i].id)
    {
      var i := AttemptRestatesDefinition(runId, events, k);
    }
    CountSplits(events, StepAttemptStarted, run.steps);
  }

  /** Likewise the retry events are as many as the retries of all steps together. */
  lemma RetriesSplit(events: seq<Event>)
    requires Reduce(events).Ok?
    ensures CountAll(events, StepRetryScheduled) == CountPerStep(events, StepRetryScheduled, Reduce(events).value.steps)
  {
    var runId, run := events[0].runId, Reduce(events).value;
    ReplayShaped(runId, events);
    IdsDiffer(runId, run);
    forall k | 0 <= k < |events| && events[k].eventType == StepRetryScheduled
      ensures exists i :: 0 <= i < |run.steps| && events[k].stepId == Some(run.steps[i].id)
    {
      var i := OutcomeNamesStep(runId, events, k);
    }
    CountSplits(events, StepRetryScheduled, run.steps);
  }

  // ----- completed steps -----

  lemma StepCompletedExactly(events: seq<Event>, id: string)
    requires Reduce(events).Ok?
    ensures id in CompletedIds(Reduce(events).value) <==> CountType(events, StepCompleted, id) > 0
  {
    var runId, run := events[0].runId, Reduce(events).value;
    ReplayBooked(runId, events);
    if id in CompletedIds(run) {
      var i :| 0 <= i < |run.steps| && run.steps[i].status.Completed? && run.steps[i].id == id;
      assert StepBooked(events, run.steps[i]);
    }
    if CountType(events, StepCompleted, id) > 0 {
      var k := CountedEvent(events, StepCompleted, id);
      var i := OutcomeNamesStep(runId, events, k);
      assert StepBooked(events, run.steps[i]);
      assert run.steps[i].status.Completed?;
    }
  }

  /** A completion never comes before the first attempt of its step. */
  lemma CompletionAfterStart(runId: string, events: seq<Event>, k: nat)
    requires Replay(runId, events).Ok? && k < |events| && events[k].eventType.StepCompleted?
    ensures events[k].stepId.Some? && CountType(events[..k], StepAttemptStarted, events[k].stepId.value) > 0
    ensures CountType(events[..k], StepCompleted, events[k].stepId.value) == 0
  {
    var before := RunBefore(runId, events, k);
    ReplayBooked(runId, events[..k]);
    var i := StepIndex(before.steps, events[k].stepId.value).value;
    assert StepBooked(events[..k], before.steps[i]);
  }

  /** A step becomes completed only through its own completion event, at the time of that event. */
  lemma CompletingEvent(runId: string, before: WorkflowRun, run: WorkflowRun, expected: int, event: Event, i: nat)
    requires ApplyEvent(runId, Some(before), expected, event) == Ok(run)
    requires i < |before.steps| == |run.steps| && !before.steps[i].status.Completed? && run.steps[i].status.Completed?
    ensures event.eventType.StepCompleted? && event.stepId == Some(before.steps[i].id) == Some(run.steps[i].id)
    ensures run.steps[i].completedAt == Some(event.occurredAt)
  {
  }

  /** The completion time of a step is the time of its completion event. */
  lemma {:induction false} CompletionTime(runId: string, events: seq<Event>, i: nat)
    requires Replay(runId, events).Ok? && Replay(runId, events).value.Some?
    requires i < |Replay(runId, events).value.value.steps|
             && Replay(runId, events).value.value.steps[i].status.Completed?
    ensures var step := Replay(runId, events).value.value.steps[i];
            step.completedAt.Some? && step.completedAt == FirstTime(events, StepCompleted, step.id)
  {
    var n := |events| - 1;
    if n > 0 {
      PrefixAccepted(runId, events, n);
      var before, run := Replay(runId, events[..n]).value.value, Replay(runId, events).value.value;
      ApplyExtends(runId, before, |events|, events[n]);
      assert SameDefinition(before.steps[i], run.steps[i]);
      if before.steps[i].status.Completed? {
        CompletionTime(runId, events[..n], i);
      } else {
        CompletingEvent(runId, before, run, |events|, events[n], i);
        CompletionAfterStart(runId, events, n);
        FirstTimeExists(events[..n], StepCompleted, run.steps[i].id);
      }
    }
  }

  // ----- building -----

  /** The counters after the first events. */
  ghost predicate Counts(seen: seq<Event>, attempts: nat, retries: nat, plannedWaitMs: int) {
    attempts == CountAll(seen, StepAttemptStarted) && retries == CountAll(seen, StepRetryScheduled)
    && plannedWaitMs == TotalWait(seen)
  }

  ghost predicate Firsts(seen: seq<Event>, firstAttemptAt: map<string, Time>) {
    forall id ::
      FirstTime(seen, StepAttemptStarted, id) == if id in firstAttemptAt then Some(firstAttemptAt[id]) else None
  }

  ghost predicate DurationRight(seen: seq<Event>, stepDurationMs: map<string, int>, id: string) {
    (id in stepDurationMs <==> CountType(seen, StepCompleted, id) > 0)
    && (id in stepDurationMs ==>
          FirstTime(seen, StepCompleted, id).Some? && FirstTime(seen, StepAttemptStarted, id).Some?
          && stepDurationMs[id] == Milliseconds(FirstTime(seen, StepCompleted, id).value
                                              - FirstTime(seen, StepAttemptStarted, id).value))
  }

  ghost predicate Durations(seen: seq<Event>, stepDurationMs: map<string, int>) {
    forall id {:trigger DurationRight(seen, stepDurationMs, id)} :: DurationRight(seen, stepDurationMs, id)
  }

  /** The operation of the step that an event names; an event of the whole run looks up the empty name. */
  function OperationOf(run: WorkflowRun, stepId: Option<string>): Option<Operation> {
    match StepIndex(run.steps, if stepId.Some? then stepId.value else "")
    case None => None
    case Some(i) => Some(run.steps[i].operation)
  }

  function DetailOf(event: Event, stepCount: nat): Detail
    requires PayloadMatches(event.eventType, event.payload)
  {
    match event.payload
    case CreatedPayload(_, _) => Materialized(stepCount)
    case StartedPayload(_, _, key, _, _) => Intent(key)
    case RetryPayload(error, _) => Reason(error)
    case CompletedPayload(output) => Reference(output)
    case FailedPayload(error) => Reason(error)
    case RunFailedPayload(_, error) => Reason(error)
    case RunCompletedPayload => AllComplete
  }

  /** The entry restates its event. */
  predicate EntryFor(run: WorkflowRun, origin: Time, event: Event, entry: TimelineEntry) {
    entry.sequence == event.sequence && entry.occurredAt == event.occurredAt && entry.eventType == event.eventType
    && entry.elapsedMs == Milliseconds(event.occurredAt - origin)
    && entry.stepId == event.stepId && entry.attempt == event.attempt
    && entry.operation == OperationOf(run, event.stepId)
    && entry.waitMs == (if event.eventType.StepRetryScheduled? then Some(WaitOf(event)) else None)
    && (if event.eventType.StepAttemptStarted? && event.payload.StartedPayload?
        then entry.workerId == event.payload.workerId && entry.fenceToken == event.payload.fenceToken
        else entry.workerId.None? && entry.fenceToken.None?)
    && (PayloadMatches(event.eventType, event.payload) ==> entry.detail == DetailOf(event, |run.steps|))
  }

  lemma {:induction false} PayloadsMatch(runId: string, events: seq<Event>, k: nat)
    requires Replay(runId, events).Ok? && k < |events|
    ensures PayloadMatches(events[k].eventType, events[k].payload)
  {
    PrefixAccepted(runId, events, k + 1);
    PrefixAccepted(runId, events, k);
    assert events[..k + 1][..k] == events[..k];
  }

  method BuildEntry(run: WorkflowRun, origin: Time, event: Event) returns (entry: TimelineEntry)
    requires PayloadMatches(event.eventType, event.payload)
    ensures EntryFor(run, origin, event, entry)
  {
    var workerId, fenceToken, waitMs := None, None, None;
    if event.eventType == StepAttemptStarted {
      workerId, fenceToken := event.payload.workerId, event.payload.fenceToken;
    }
    if event.eventType == StepRetryScheduled {
      var wait := Milliseconds(event.payload.nextAttemptAt - event.occurredAt);
      waitMs := Some(if wait < 0 then 0 else wait);
    }
    entry := TimelineEntry(event.sequence, Milliseconds(event.occurredAt - origin), event.occurredAt, event.eventType,
                           event.stepId, OperationOf(run, event.stepId), event.attempt, workerId, fenceToken, waitMs,
                           DetailOf(event, |run.steps|));
  }

  lemma FirstTimeNext(seen: seq<Event>, event: Event, eventType: EventType, id: string)
    ensures FirstTime(seen + [event], eventType, id) ==
            if FirstTime(seen, eventType, id).Some? then FirstTime(seen, eventType, id)
            else if event.eventType == eventType && event.stepId == Some(id) then Some(event.occurredAt) else None
  {
    assert (seen + [event])[..|seen|] == seen;
  }

  /** The first attempts after one more event. */
  method NextFirsts(ghost seen: seq<Event>, event: Event, firstAttemptAt: map<string, Time>)
    returns (firsts: map<string, Time>)
    requires Firsts(seen, firstAttemptAt)
    ensures Firsts(seen + [event], firsts)
  {
    firsts := firstAttemptAt;
    if event.eventType == StepAttemptStarted && event.stepId.Some? && event.stepId.value !in firsts {
      firsts := firsts[event.stepId.value := event.occurredAt];
    }
    forall id ensures FirstTime(seen + [event], StepAttemptStarted, id) ==
                      if id in firsts then Some(firsts[id]) else None {
      FirstTimeNext(seen, event, StepAttemptStarted, id);
    }
  }

  /** The durations after one more event; a completion finds the first attempt of its step and is the step's only
      one. */
  method NextDurations(ghost seen: seq<Event>, event: Event, firstAttemptAt: map<string, Time>,
                       stepDurationMs: map<string, int>)
    returns (durations: map<string, int>)
    requires Firsts(seen, firstAttemptAt) && Durations(seen, stepDurationMs)
    requires event.eventType.StepCompleted? ==>
               event.stepId.Some? && CountType(seen, StepAttemptStarted, event.stepId.value) > 0
               && CountType(seen, StepCompleted, event.stepId.value) == 0
    ensures Durations(seen + [event], durations)
  {
    durations := stepDurationMs;
    if event.eventType == StepCompleted {
      FirstTimeExists(seen, StepAttemptStarted, event.stepId.value);
      FirstTimeExists(seen, StepCompleted, event.stepId.value);
      if event.stepId.Some? && event.stepId.value in firstAttemptAt {
        var duration := Milliseconds(event.occurredAt - firstAttemptAt[event.stepId.value]);
        durations := durations[event.stepId.value := duration];
      }
    }
    forall id ensures DurationRight(seen + [event], durations, id) {
      assert DurationRight(seen, stepDurationMs, id);
      CountAppend(seen, event, StepCompleted, id);
      FirstTimeNext(seen, event, StepAttemptStarted, id);
      FirstTimeNext(seen, event, StepCompleted, id);
    }
  }

  lemma CountsNext(seen: seq<Event>, event: Event, attempts: nat, retries: nat, plannedWaitMs: int)
    requires Counts(seen, attempts, retries, plannedWaitMs)
    ensures Counts(seen + [event], attempts + if event.eventType.StepAttemptStarted? then 1 else 0,
                   retries + if event.eventType.StepRetryScheduled? then 1 else 0, plannedWaitMs + WaitOf(event))
  {
    assert (seen + [event])[..|seen|] == seen;
  }

  /** One entry per event, in order. */
  ghost predicate EntriesFor(run: WorkflowRun, origin: Time, events: seq<Event>, entries: seq<TimelineEntry>) {
    |entries| == |events| && forall k :: 0 <= k < |events| ==> EntryFor(run, origin, events[k], entries[k])
  }

  /** The sum of the waits that the entries show. */
  function WaitSum(entries: seq<TimelineEntry>): int {
    if entries == [] then 0
    else
      var last := entries[|entries| - 1];
      WaitSum(entries[..|entries| - 1]) + if last.waitMs.Some? then last.waitMs.value else 0
  }

  lemma {:induction false} WaitsAddUp(run: WorkflowRun, origin: Time, events: seq<Event>, entries: seq<TimelineEntry>)
    requires EntriesFor(run, origin, events, entries)
    ensures WaitSum(entries) == TotalWait(events)
  {
    if events != [] {
      var n := |events| - 1;
      assert EntryFor(run, origin, events[n], entries[n]);
      WaitsAddUp(run, origin, events[..n], entries[..n]);
    }
  }

  lemma EntriesNext(run: WorkflowRun, origin: Time, seen: seq<Event>, event: Event, entries: seq<TimelineEntry>,
                    entry: TimelineEntry)
    requires EntriesFor(run, origin, seen, entries) && EntryFor(run, origin, event, entry)
    ensures EntriesFor(run, origin, seen + [event], entries + [entry])
  {
  }

  /** What an accepted history says about one of its events. */
  lemma EventFits(events: seq<Event>, k: nat)
    requires Reduce(events).Ok? && k < |events|
    ensures PayloadMatches(events[k].eventType, events[k].payload)
    ensures events[k].eventType.StepCompleted? ==>
              events[k].stepId.Some? && CountType(events[..k], StepAttemptStarted, events[k].stepId.value) > 0
              && CountType(events[..k], StepCompleted, events[k].stepId.value) == 0
  {
    PayloadsMatch(events[0].runId, events, k);
    if events[k].eventType.StepCompleted? {
      CompletionAfterStart(events[0].runId, events, k);
    }
  }

  /** The loop over the events. */
  method Collect(events: seq<Event>, run: WorkflowRun)
    returns (entries: seq<TimelineEntry>, attempts: nat, retries: nat, plannedWaitMs: int,
             stepDurationMs: map<string, int>)
    requires Reduce(events) == Ok(run)
    ensures EntriesFor(run, events[0].occurredAt, events, entries)
    ensures Counts(events, attempts, retries, plannedWaitMs) && Durations(events, stepDurationMs)
  {
    entries, attempts, retries, plannedWaitMs, stepDurationMs := [], 0, 0, 0, map[];
    var firstAttemptAt: map<string, Time> := map[];
    var k := 0;
    while k < |events|
      invariant 0 <= k <= |events|
      invariant EntriesFor(run, events[0].occurredAt, events[..k], entries)
      invariant Counts(events[..k], attempts, retries, plannedWaitMs)
      invariant Firsts(events[..k], firstAttemptAt) && Durations(events[..k], stepDurationMs)
    {
      var event := events[k];
      EventFits(events, k);
      assert events[..k + 1] == events[..k] + [event];
      CountsNext(events[..k], event, attempts, retries, plannedWaitMs);
      var entry := BuildEntry(run, events[0].occurredAt, event);
      EntriesNext(run, events[0].occurredAt, events[..k], event, entries, entry);
      entries := entries + [entry];
      if event.eventType == StepAttemptStarted {
        attempts := attempts + 1;
      } else if event.eventType == StepRetryScheduled {
        retries := retries + 1;
        plannedWaitMs := plannedWaitMs + entry.waitMs.value;
      }
      stepDurationMs := NextDurations(events[..k], event, firstAttemptAt, stepDurationMs);
      firstAttemptAt := NextFirsts(events[..k], event, firstAttemptAt);
      k := k + 1;
    }
    assert events[..|events|] == events;
  }

  /** The summary agrees with the reduced run. */
  ghost predicate SummaryMatches(events: seq<Event>, run: WorkflowRun, summary: TimelineSummary)
    requires events != []
  {
    summary.status == run.status
    && summary.durationMs == Milliseconds(events[|events| - 1].occurredAt - events[0].occurredAt)
    && summary.attempts == AttemptTotal(run.steps)
    && summary.retries == CountPerStep(events, StepRetryScheduled, run.steps)
    && summary.plannedWaitMs == TotalWait(events)
    && summary.stepDurationMs.Keys == CompletedIds(run)
    && forall i :: 0 <= i < |run.steps| && run.steps[i].status.Completed? ==>
         StepDuration(events, run.steps[i], summary.stepDurationMs)
  }

  /** For every accepted history: an entry per event in order, and counters that the reduced run confirms. */
  method BuildTimeline(events: seq<Event>) returns (result: Result<RunTimeline, HistoryError>)
    ensures result.Ok? <==> Reduce(events).Ok?
    ensures result.Err? ==> Reduce(events) == Err(result.error)
    ensures result.Ok? ==>
              var run := Reduce(events).value;
              && result.value.runId == run.runId
              && EntriesFor(run, events[0].occurredAt, events, result.value.entries)
              && SummaryMatches(events, run, result.value.summary)
              && result.value.summary.plannedWaitMs == WaitSum(result.value.entries)
  {
    var reduced := ReduceWorkflowRunHistory(events);
    if reduced.Err? {
      return Err(reduced.error);
    }
    var run := reduced.value;
    var entries, attempts, retries, plannedWaitMs, stepDurationMs := Collect(events, run);
    StartsAreAttempts(events);
    RetriesSplit(events);
    WaitsAddUp(run, events[0].occurredAt, events, entries);
    DurationsMatch(events, stepDurationMs);
    ReplayShaped(events[0].runId, events);
    var summary := TimelineSummary(run.status, Milliseconds(events[|events| - 1].occurredAt - events[0].occurredAt),
                                   attempts, retries, plannedWaitMs, stepDurationMs);
    result := Ok(RunTimeline(events[0].runId, entries, summary));
  }

  /** The step's duration runs from its first attempt to its completion. */
  ghost predicate StepDuration(events: seq<Event>, step: StepRecord, stepDurationMs: map<string, int>) {
    step.completedAt.Some? && FirstTime(events, StepAttemptStarted, step.id).Some? && step.id in stepDurationMs
    && stepDurationMs[step.id] == Milliseconds(step.completedAt.value
                                              - FirstTime(events, StepAttemptStarted, step.id).value)
  }

  lemma DurationMatches(events: seq<Event>, stepDurationMs: map<string, int>, i: nat)
    requires Reduce(events).Ok? && Durations(events, stepDurationMs)
    requires i < |Reduce(events).value.steps| && Reduce(events).value.steps[i].status.Completed?
    ensures StepDuration(events, Reduce(events).value.steps[i], stepDurationMs)
  {
    var run := Reduce(events).value;
    CompletionTime(events[0].runId, events, i);
    assert run.steps[i].id in CompletedIds(run);
    StepCompletedExactly(events, run.steps[i].id);
    assert DurationRight(events, stepDurationMs, run.steps[i].id);
  }

  lemma DurationsMatch(events: seq<Event>, stepDurationMs: map<string, int>)
    requires Reduce(events).Ok? && Durations(events, stepDurationMs)
    ensures stepDurationMs.Keys == CompletedIds(Reduce(events).value)
    ensures forall i :: 0 <= i < |Reduce(events).value.steps| && Reduce(events).value.steps[i].status.Completed? ==>
              StepDuration(events, Reduce(events).value.steps[i], stepDurationMs)
  {
    var run := Reduce(events).value;
    forall id ensures id in stepDurationMs <==> id in CompletedIds(run) {
      assert DurationRight(events, stepDurationMs, id);
      StepCompletedExactly(events, id);
    }
    forall i | 0 <= i < |run.steps| && run.steps[i].status.Completed?
      ensures StepDuration(events, run.steps[i], stepDurationMs) {
      DurationMatches(events, stepDurationMs, i);
    }
  }
}
