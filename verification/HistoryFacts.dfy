/** What every history accepted by the reducer has in common. */
module HistoryFacts {
  import opened Models
  import opened Graph
  import opened History

  // ----- the definition never changes, finished steps never change -----

  predicate SameDefinition(a: StepRecord, b: StepRecord) {
    a.id == b.id && a.runId == b.runId && a.position == b.position && a.operation == b.operation
    && a.dependsOn == b.dependsOn && a.request == b.request && a.operationKey == b.operationKey
    && a.toolKey == b.toolKey && a.createdAt == b.createdAt
  }

  predicate Finished(step: StepRecord) {
    step.status.Completed? || step.status.Failed?
  }

  /** `after` may follow `before` in the life of one run. */
  ghost predicate Extends(before: WorkflowRun, after: WorkflowRun) {
    before.runId == after.runId && before.name == after.name && before.createdAt == after.createdAt
    && |before.steps| == |after.steps|
    && (forall i :: 0 <= i < |before.steps| ==>
          SameDefinition(before.steps[i], after.steps[i])
          && before.steps[i].attempts <= after.steps[i].attempts
          && (Finished(before.steps[i]) ==> after.steps[i] == before.steps[i]))
    && (!before.status.Running? ==> after == before)
  }

  lemma ExtendsTransitive(a: WorkflowRun, b: WorkflowRun, c: WorkflowRun)
    requires Extends(a, b) && Extends(b, c)
    ensures Extends(a, c)
  {
    forall i | 0 <= i < |a.steps|
      ensures SameDefinition(a.steps[i], c.steps[i]) && a.steps[i].attempts <= c.steps[i].attempts
              && (Finished(a.steps[i]) ==> c.steps[i] == a.steps[i])
    {
      assert SameDefinition(a.steps[i], b.steps[i]) && SameDefinition(b.steps[i], c.steps[i]);
    }
  }

  lemma ApplyExtends(runId: string, run: WorkflowRun, expected: int, event: Event)
    requires ApplyEvent(runId, Some(run), expected, event).Ok?
    ensures Extends(run, ApplyEvent(runId, Some(run), expected, event).value)
  {
  }

  /** Whatever is appended to an accepted history only extends the run it describes. */
  lemma {:induction false} HistoryExtends(runId: string, events: seq<Event>, n: nat)
    requires 0 < n <= |events| && Replay(runId, events).Ok? && Replay(runId, events).value.Some?
    ensures Replay(runId, events[..n]).Ok? && Replay(runId, events[..n]).value.Some?
    ensures Extends(Replay(runId, events[..n]).value.value, Replay(runId, events).value.value)
  {
    if n == |events| {
      assert events[..n] == events;
    } else {
      var m := |events| - 1;
      var init := events[..m];
      PrefixAccepted(runId, events, m);
      assert init[..n] == events[..n];
      HistoryExtends(runId, init, n);
      ExtendsOneMore(runId, Replay(runId, events[..n]).value.value, Replay(runId, init).value.value, |events|,
                     events[m]);
    }
  }

  lemma ExtendsOneMore(runId: string, first: WorkflowRun, run: WorkflowRun, expected: int, event: Event)
    requires Extends(first, run) && ApplyEvent(runId, Some(run), expected, event).Ok?
    ensures Extends(first, ApplyEvent(runId, Some(run), expected, event).value)
  {
    ApplyExtends(runId, run, expected, event);
    ExtendsTransitive(first, run, ApplyEvent(runId, Some(run), expected, event).value);
  }

  /** The facts that the first event establishes and that no later event can change. */
  ghost predicate Shaped(runId: string, run: WorkflowRun) {
    run.runId == runId && |run.steps| > 0
    && WellFormed(RunNodes(run)) && Acyclic(RunNodes(run))
    && forall i :: 0 <= i < |run.steps| ==>
         run.steps[i].runId == runId && run.steps[i].position == i
         && run.steps[i].operationKey == OperationKey(runId, run.steps[i].id)
  }

  lemma {:induction false} ReplayShaped(runId: string, events: seq<Event>)
    requires Replay(runId, events).Ok? && Replay(runId, events).value.Some?
    ensures Shaped(runId, Replay(runId, events).value.value)
  {
    var n := |events| - 1;
    var run := Replay(runId, events).value.value;
    if n == 0 {
      assert events[..0] == [];
      var definitions := events[0].payload.steps;
      SoundDefinitionsWellFormed(runId, definitions);
      assert RunNodes(run) == DefinitionNodes(definitions);
      forall i | 0 <= i < |definitions| ensures definitions[i].operationKey == OperationKey(runId, definitions[i].id) {
        assert DefinitionError(runId, DefinitionNodes(definitions), definitions[i]).None?;
      }
    } else {
      PrefixAccepted(runId, events, n);
      ReplayShaped(runId, events[..n]);
      var before := Replay(runId, events[..n]).value.value;
      ApplyExtends(runId, before, |events|, events[n]);
      ShapePersists(runId, before, run);
    }
  }

  lemma ShapePersists(runId: string, before: WorkflowRun, after: WorkflowRun)
    requires Shaped(runId, before) && Extends(before, after)
    ensures Shaped(runId, after) && RunNodes(after) == RunNodes(before)
  {
    forall i | 0 <= i < |before.steps| ensures SameDefinition(before.steps[i], after.steps[i]) {
    }
    assert RunNodes(after) == RunNodes(before);
  }

  lemma StepIdsUnique(runId: string, run: WorkflowRun, i: nat, j: nat)
    requires Shaped(runId, run) && i < |run.steps| && j < |run.steps|
    ensures run.steps[i].id == run.steps[j].id ==> i == j
  {
    assert RunNodes(run)[i].id == run.steps[i].id && RunNodes(run)[j].id == run.steps[j].id;
  }

  lemma StepIndexOf(runId: string, run: WorkflowRun, i: nat)
    requires Shaped(runId, run) && i < |run.steps|
    ensures StepIndex(run.steps, run.steps[i].id) == Some(i)
  {
    var found := StepIndex(run.steps, run.steps[i].id);
    StepIdsUnique(runId, run, i, found.value);
  }

  // ----- status -----

  /** What replaying any prefix establishes about the run's status. */
  ghost predicate StatusJustified(run: WorkflowRun) {
    (run.status.RunCompleted? ==> AllStepsCompleted(run))
    && (run.status.RunFailed? ==> SomeStepFailed(run))
  }

  lemma {:induction false} ReplayStatus(runId: string, events: seq<Event>)
    requires Replay(runId, events).Ok? && Replay(runId, events).value.Some?
    ensures StatusJustified(Replay(runId, events).value.value)
  {
    var n := |events| - 1;
    if n > 0 {
      PrefixAccepted(runId, events, n);
      ReplayStatus(runId, events[..n]);
    }
  }

  /** In an accepted history the run's status says exactly how its steps ended. */
  lemma AcceptedStatus(events: seq<Event>)
    requires Reduce(events).Ok?
    ensures var run := Reduce(events).value;
            && (run.status.RunCompleted? <==> AllStepsCompleted(run))
            && (run.status.RunFailed? <==> SomeStepFailed(run))
            && (run.status.Running? <==> !AllStepsCompleted(run) && !SomeStepFailed(run))
  {
    ReplayStatus(events[0].runId, events);
    ReplayShaped(events[0].runId, events);
    var run := Reduce(events).value;
    if AllStepsCompleted(run) {
      assert !SomeStepFailed(run);
    }
  }

  ghost predicate ExactlyOneFailed(run: WorkflowRun) {
    exists i :: 0 <= i < |run.steps| && run.steps[i].status.Failed?
                && forall j :: 0 <= j < |run.steps| && run.steps[j].status.Failed? ==> j == i
  }

  /** Nothing can be appended to a history that ended the run. */
  lemma TerminalIsFinal(runId: string, events: seq<Event>, event: Event)
    requires Replay(runId, events).Ok? && Replay(runId, events).value.Some?
    requires !Replay(runId, events).value.value.status.Running?
    ensures Replay(runId, events + [event]).Err?
  {
    ReplayAppend(runId, events, event);
  }

  /** An accepted history that continues the history of an ended run is that history. */
  lemma NothingFollowsEnd(runId: string, before: seq<Event>, after: seq<Event>)
    requires before <= after && Replay(runId, after).Ok?
    requires Replay(runId, before).Ok? && Replay(runId, before).value.Some?
    requires !Replay(runId, before).value.value.status.Running?
    ensures after == before
  {
    if |before| < |after| {
      EndedRejects(runId, before, after);
    }
  }

  /** A history that goes on after the run has ended is rejected. */
  lemma EndedRejects(runId: string, before: seq<Event>, after: seq<Event>)
    requires before < after && Replay(runId, before).Ok? && Replay(runId, before).value.Some?
    requires !Replay(runId, before).value.value.status.Running?
    ensures Replay(runId, after).Err?
  {
    TerminalIsFinal(runId, before, after[|before|]);
    assert after[..|before| + 1] == before + [after[|before|]];
    RejectionSticks(runId, after, |before| + 1);
  }

  // ----- attempt bookkeeping -----

  /** Events of one type about one step. */
  function CountType(events: seq<Event>, eventType: EventType, stepId: string): nat {
    if events == [] then 0
    else
      var last := events[|events| - 1];
      CountType(events[..|events| - 1], eventType, stepId)
      + if last.eventType == eventType && last.stepId == Some(stepId) then 1 else 0
  }

  lemma {:induction false} CountedEvent(events: seq<Event>, eventType: EventType, id: string) returns (k: nat)
    requires CountType(events, eventType, id) > 0
    ensures k < |events| && events[k].eventType == eventType && events[k].stepId == Some(id)
  {
    var n := |events| - 1;
    if events[n].eventType == eventType && events[n].stepId == Some(id) {
      k := n;
    } else {
      k := CountedEvent(events[..n], eventType, id);
    }
  }

  lemma {:induction false} CountedAtLeastOnce(events: seq<Event>, k: nat, eventType: EventType, id: string)
    requires k < |events| && events[k].eventType == eventType && events[k].stepId == Some(id)
    ensures CountType(events, eventType, id) >= 1
  {
    var n := |events| - 1;
    if k < n {
      assert events[..n][k] == events[k];
      CountedAtLeastOnce(events[..n], k, eventType, id);
    }
  }

  lemma {:induction false} CountedTwice(events: seq<Event>, j: nat, k: nat, eventType: EventType, id: string)
    requires j < k < |events| && events[j].eventType == eventType && events[k].eventType == eventType
    requires events[j].stepId == Some(id) && events[k].stepId == Some(id)
    ensures CountType(events, eventType, id) >= 2
  {
    var n := |events| - 1;
    assert events[..n][j] == events[j];
    if k < n {
      assert events[..n][k] == events[k];
      CountedTwice(events[..n], j, k, eventType, id);
    } else {
      CountedAtLeastOnce(events[..n], j, eventType, id);
    }
  }

  predicate IsOutcome(event: Event) {
    event.eventType.StepRetryScheduled? || event.eventType.StepCompleted? || event.eventType.StepFailed?
  }

  predicate Closes(event: Event, stepId: string, attempt: int) {
    IsOutcome(event) && event.stepId == Some(stepId) && event.attempt == Some(attempt)
  }

  /** Outcome events recorded for one attempt of one step. */
  function Outcomes(events: seq<Event>, stepId: string, attempt: int): nat {
    if events == [] then 0
    else Outcomes(events[..|events| - 1], stepId, attempt)
         + if Closes(events[|events| - 1], stepId, attempt) then 1 else 0
  }

  /** How many of the attempts 1..n have no outcome. */
  function Unmatched(events: seq<Event>, stepId: string, n: int): nat
    decreases n
  {
    if n <= 0 then 0
    else Unmatched(events, stepId, n - 1) + if Outcomes(events, stepId, n) == 0 then 1 else 0
  }

  function AttemptTotal(steps: seq<StepRecord>): int {
    if steps == [] then 0 else AttemptTotal(steps[..|steps| - 1]) + steps[|steps| - 1].attempts
  }

  function OutcomeTotal(events: seq<Event>, stepId: string): nat {
    CountType(events, StepRetryScheduled, stepId) + CountType(events, StepCompleted, stepId)
    + CountType(events, StepFailed, stepId)
  }

  ghost predicate StepBooked(events: seq<Event>, step: StepRecord) {
    && step.attempts == CountType(events, StepAttemptStarted, step.id)
    && (forall n :: Outcomes(events, step.id, n) <= if 1 <= n <= step.attempts then 1 else 0)
    && (step.status.IntentRecorded? ==> step.attempts >= 1 && Outcomes(events, step.id, step.attempts) == 0)
    && CountType(events, StepCompleted, step.id) == (if step.status.Completed? then 1 else 0)
    && CountType(events, StepFailed, step.id) == (if step.status.Failed? then 1 else 0)
    && step.attempts == OutcomeTotal(events, step.id) + Unmatched(events, step.id, step.attempts)
  }

  ghost predicate Booked(events: seq<Event>, run: WorkflowRun) {
    forall i :: 0 <= i < |run.steps| ==> StepBooked(events, run.steps[i])
  }

  lemma {:induction false} UnmatchedUnaffected(before: seq<Event>, after: seq<Event>, stepId: string, n: int)
    requires forall m :: 1 <= m <= n ==> Outcomes(after, stepId, m) == Outcomes(before, stepId, m)
    ensures Unmatched(after, stepId, n) == Unmatched(before, stepId, n)
    decreases n
  {
    if n > 0 {
      UnmatchedUnaffected(before, after, stepId, n - 1);
    }
  }

  lemma CountAppend(events: seq<Event>, event: Event, eventType: EventType, stepId: string)
    ensures CountType(events + [event], eventType, stepId) ==
            CountType(events, eventType, stepId)
            + if event.eventType == eventType && event.stepId == Some(stepId) then 1 else 0
  {
    assert (events + [event])[..|events|] == events;
  }

  lemma OutcomesAppend(events: seq<Event>, event: Event, stepId: string, n: int)
    ensures Outcomes(events + [event], stepId, n) ==
            Outcomes(events, stepId, n) + if Closes(event, stepId, n) then 1 else 0
  {
    assert (events + [event])[..|events|] == events;
  }

  lemma BookingUnaffected(events: seq<Event>, event: Event, step: StepRecord)
    requires StepBooked(events, step)
    requires event.stepId != Some(step.id)
             || event.eventType.WorkflowRunFailed? || event.eventType.WorkflowRunCompleted?
    ensures StepBooked(events + [event], step)
  {
    forall eventType ensures
      event.eventType == eventType && !event.eventType.WorkflowRunFailed? && !event.eventType.WorkflowRunCompleted? ==>
        CountType(events + [event], eventType, step.id) == CountType(events, eventType, step.id) {
      CountAppend(events, event, eventType, step.id);
    }
    BookingCounts(events, event, step.id);
    forall n ensures Outcomes(events + [event], step.id, n) == Outcomes(events, step.id, n) {
      OutcomesAppend(events, event, step.id, n);
    }
    UnmatchedUnaffected(events, events + [event], step.id, step.attempts);
  }

  lemma BookingCounts(events: seq<Event>, event: Event, stepId: string)
    ensures forall eventType ::
              CountType(events + [event], eventType, stepId) ==
              CountType(events, eventType, stepId)
              + if event.eventType == eventType && event.stepId == Some(stepId) then 1 else 0
  {
    forall eventType ensures
        CountType(events + [event], eventType, stepId) ==
        CountType(events, eventType, stepId)
        + if event.eventType == eventType && event.stepId == Some(stepId) then 1 else 0 {
      CountAppend(events, event, eventType, stepId);
    }
  }

  lemma BookingStarts(events: seq<Event>, event: Event, before: StepRecord, after: StepRecord)
    requires StepBooked(events, before) && after.id == before.id
    requires event.eventType.StepAttemptStarted? && event.stepId == Some(before.id)
    requires RunnableStatus(before.status)
    requires after.status.IntentRecorded? && after.attempts == before.attempts + 1
    ensures StepBooked(events + [event], after)
  {
    BookingCounts(events, event, before.id);
    forall n ensures Outcomes(events + [event], before.id, n) == Outcomes(events, before.id, n) {
      OutcomesAppend(events, event, before.id, n);
    }
    UnmatchedUnaffected(events, events + [event], before.id, before.attempts);
  }

  lemma BookingCloses(events: seq<Event>, event: Event, before: StepRecord, after: StepRecord)
    requires StepBooked(events, before) && after.id == before.id && after.attempts == before.attempts
    requires before.status.IntentRecorded? && Closes(event, before.id, before.attempts)
    requires after.status == (if event.eventType.StepRetryScheduled? then RetryWait
                              else if event.eventType.StepCompleted? then Completed else Failed)
    ensures StepBooked(events + [event], after)
  {
    BookingCounts(events, event, before.id);
    forall n ensures Outcomes(events + [event], before.id, n) ==
                     Outcomes(events, before.id, n) + if n == before.attempts then 1 else 0 {
      OutcomesAppend(events, event, before.id, n);
    }
    UnmatchedUnaffected(events, events + [event], before.id, before.attempts - 1);
  }

  lemma ApplyBooked(runId: string, run: WorkflowRun, events: seq<Event>, event: Event)
    requires Shaped(runId, run) && Booked(events, run)
    requires ApplyEvent(runId, Some(run), |events| + 1, event).Ok?
    ensures Booked(events + [event], ApplyEvent(runId, Some(run), |events| + 1, event).value)
  {
    var after := ApplyEvent(runId, Some(run), |events| + 1, event).value;
    forall i | 0 <= i < |after.steps| ensures StepBooked(events + [event], after.steps[i]) {
      assert StepBooked(events, run.steps[i]);
      if event.eventType.WorkflowRunCompleted? || event.eventType.WorkflowRunFailed?
         || event.stepId != Some(run.steps[i].id) {
        BookingUnaffected(events, event, run.steps[i]);
      } else {
        StepIndexOf(runId, run, i);
        if event.eventType.StepAttemptStarted? {
          BookingStarts(events, event, run.steps[i], after.steps[i]);
        } else {
          BookingCloses(events, event, run.steps[i], after.steps[i]);
        }
      }
    }
  }

  lemma CreationBooked(runId: string, events: seq<Event>)
    requires |events| == 1 && Replay(runId, events).Ok?
    ensures Booked(events, Replay(runId, events).value.value)
  {
    assert events[..0] == [];
    forall id, eventType | eventType != WorkflowRunCreated ensures CountType(events, eventType, id) == 0 {
    }
    forall id, n ensures Outcomes(events, id, n) == 0 {
    }
  }

  /** In an accepted history every step's attempts are counted: each attempt has at most one outcome,
      no outcome lacks its attempt, and the starts are the outcomes plus the unmatched attempts. */
  lemma {:induction false} ReplayBooked(runId: string, events: seq<Event>)
    requires Replay(runId, events).Ok? && Replay(runId, events).value.Some?
    ensures Booked(events, Replay(runId, events).value.value)
  {
    var n := |events| - 1;
    assert events == events[..n] + [events[n]];
    if n == 0 {
      CreationBooked(runId, events);
    } else {
      PrefixAccepted(runId, events, n);
      ReplayBooked(runId, events[..n]);
      ReplayShaped(runId, events[..n]);
      ApplyBooked(runId, Replay(runId, events[..n]).value.value, events[..n], events[n]);
    }
  }

  /** The run as it stood before event `k` of an accepted history was applied to it. */
  lemma RunBefore(runId: string, events: seq<Event>, k: nat) returns (run: WorkflowRun)
    requires Replay(runId, events).Ok? && k < |events| && !events[k].eventType.WorkflowRunCreated?
    ensures k > 0 && Replay(runId, events[..k]) == Ok(Some(run))
    ensures ApplyEvent(runId, Some(run), k + 1, events[k]).Ok?
  {
    PrefixAccepted(runId, events, k + 1);
    PrefixAccepted(runId, events, k);
    var prefix := events[..k + 1];
    assert prefix[..k] == events[..k] && prefix[k] == events[k];
    run := Replay(runId, events[..k]).value.value;
  }

  lemma CountIncludes(events: seq<Event>, k: nat, eventType: EventType, stepId: string)
    requires k < |events|
    ensures CountType(events[..k + 1], eventType, stepId) ==
            CountType(events[..k], eventType, stepId)
            + if events[k].eventType == eventType && events[k].stepId == Some(stepId) then 1 else 0
  {
    assert events[..k + 1] == events[..k] + [events[k]];
    CountAppend(events[..k], events[k], eventType, stepId);
  }

  /** Attempt starts are numbered 1, 2, 3, ... without gaps. */
  lemma AttemptsNumbered(runId: string, events: seq<Event>, k: nat, stepId: string)
    requires Replay(runId, events).Ok? && k < |events|
    requires events[k].eventType.StepAttemptStarted? && events[k].stepId == Some(stepId)
    ensures events[k].attempt == Some(CountType(events[..k + 1], StepAttemptStarted, stepId))
  {
    var before := RunBefore(runId, events, k);
    ReplayBooked(runId, events[..k]);
    CountIncludes(events, k, StepAttemptStarted, stepId);
    var i := StepIndex(before.steps, stepId).value;
    assert StepBooked(events[..k], before.steps[i]);
  }

  /** An outcome closes the attempt that was started last, which has no outcome yet. */
  lemma OutcomeClosesCurrent(runId: string, events: seq<Event>, k: nat)
    requires Replay(runId, events).Ok? && k < |events| && IsOutcome(events[k])
    ensures events[k].stepId.Some?
    ensures events[k].attempt == Some(CountType(events[..k], StepAttemptStarted, events[k].stepId.value))
    ensures Outcomes(events[..k], events[k].stepId.value, events[k].attempt.value) == 0
  {
    var before := RunBefore(runId, events, k);
    ReplayBooked(runId, events[..k]);
    var i := StepIndex(before.steps, events[k].stepId.value).value;
    assert StepBooked(events[..k], before.steps[i]);
  }

  /** The step that an outcome event names is a step of the run. */
  lemma OutcomeNamesStep(runId: string, events: seq<Event>, k: nat) returns (i: nat)
    requires Replay(runId, events).Ok? && Replay(runId, events).value.Some? && k < |events| && IsOutcome(events[k])
    ensures events[k].stepId.Some?
    ensures i < |Replay(runId, events).value.value.steps|
            && Replay(runId, events).value.value.steps[i].id == events[k].stepId.value
  {
    var before := RunBefore(runId, events, k);
    i := StepIndex(before.steps, events[k].stepId.value).value;
    HistoryExtends(runId, events, k);
    assert SameDefinition(before.steps[i], Replay(runId, events).value.value.steps[i]);
  }

  lemma {:induction false} ClosingEvent(events: seq<Event>, stepId: string, n: int) returns (k: nat)
    requires Outcomes(events, stepId, n) >= 1
    ensures k < |events| && Closes(events[k], stepId, n)
  {
    var m := |events| - 1;
    if Closes(events[m], stepId, n) {
      k := m;
    } else {
      k := ClosingEvent(events[..m], stepId, n);
    }
  }

  /** Whatever step and attempt one asks for: an accepted history holds at most one outcome for them. */
  lemma AttemptClosedOnce(runId: string, events: seq<Event>, stepId: string, n: int)
    requires Replay(runId, events).Ok? && Replay(runId, events).value.Some?
    ensures Outcomes(events, stepId, n) <= 1
  {
    if Outcomes(events, stepId, n) >= 1 {
      var k := ClosingEvent(events, stepId, n);
      var i := OutcomeNamesStep(runId, events, k);
      ReplayBooked(runId, events);
      assert StepBooked(events, Replay(runId, events).value.value.steps[i]);
    }
  }

  /** An attempt event restates the definition of its step, which no later event changes. */
  lemma AttemptRestatesDefinition(runId: string, events: seq<Event>, k: nat) returns (i: nat)
    requires Replay(runId, events).Ok? && Replay(runId, events).value.Some? && k < |events|
    requires events[k].eventType.StepAttemptStarted?
    ensures events[k].payload.StartedPayload? && events[k].stepId.Some? && events[k].attempt.Some?
    ensures var steps := Replay(runId, events).value.value.steps;
            && i < |steps| && steps[i].id == events[k].stepId.value
            && steps[i].operation == events[k].payload.operation && steps[i].request == events[k].payload.request
            && steps[i].operationKey == events[k].payload.operationKey
            && 1 <= events[k].attempt.value <= steps[i].attempts
  {
    var before := RunBefore(runId, events, k);
    i := StartRestates(runId, before, k + 1, events[k]);
    ReplayBooked(runId, events[..k]);
    assert StepBooked(events[..k], before.steps[i]);
    var prefix := events[..k + 1];
    assert prefix[..k] == events[..k] && prefix[k] == events[k];
    HistoryExtends(runId, events, k + 1);
    assert SameDefinition(Replay(runId, prefix).value.value.steps[i], Replay(runId, events).value.value.steps[i]);
  }

  lemma StartRestates(runId: string, run: WorkflowRun, expected: int, event: Event) returns (i: nat)
    requires ApplyEvent(runId, Some(run), expected, event).Ok? && event.eventType.StepAttemptStarted?
    ensures event.payload.StartedPayload? && event.stepId.Some? && event.attempt.Some? && i < |run.steps|
    ensures var steps := ApplyEvent(runId, Some(run), expected, event).value.steps;
            && |steps| == |run.steps| && steps[i].id == event.stepId.value
            && steps[i].operation == event.payload.operation && steps[i].request == event.payload.request
            && steps[i].operationKey == event.payload.operationKey
            && steps[i].attempts == event.attempt.value == run.steps[i].attempts + 1
  {
    i := StepIndex(run.steps, event.stepId.value).value;
  }

  // ----- what the reducer has checked about each event -----

  /** Envelope and metadata of an event at its place in an accepted history. */
  predicate WellPlaced(runId: string, event: Event, k: nat) {
    event.runId == runId && event.sequence == k + 1 && 1 <= event.schemaVersion <= 3
    && PayloadMatches(event.eventType, event.payload)
    && (event.eventType.WorkflowRunCreated? <==> k == 0)
    && (event.eventType.WorkflowRunCreated? ==>
          event.schemaVersion == 3 && event.stepId.None? && event.attempt.None? && event.payload.steps != [])
    && (event.eventType.StepAttemptStarted? && event.schemaVersion == 2 ==>
          event.payload.workerId.Some? && event.payload.fenceToken.Some?)
    && (event.eventType !in {WorkflowRunCreated, WorkflowRunCompleted, WorkflowRunFailed} ==>
          event.stepId.Some? && event.attempt.Some?)
    && (event.eventType.WorkflowRunCompleted? ==> event.stepId.None? && event.attempt.None?)
    && (event.eventType.WorkflowRunFailed? ==> event.stepId == Some(event.payload.stepId) && event.attempt.None?)
  }

  lemma AppliedWellPlaced(runId: string, run: Option<WorkflowRun>, k: nat, event: Event)
    requires ApplyEvent(runId, run, k + 1, event).Ok? && (run.None? <==> k == 0)
    ensures WellPlaced(runId, event, k)
  {
  }

  /** Every event of an accepted history is well placed, and one that ends the run is the last. */
  lemma EventsWellPlaced(runId: string, events: seq<Event>, k: nat)
    requires Replay(runId, events).Ok? && k < |events|
    ensures WellPlaced(runId, events[k], k)
    ensures events[k].eventType.WorkflowRunCompleted? || events[k].eventType.WorkflowRunFailed? ==> k == |events| - 1
  {
    PrefixAccepted(runId, events, k + 1);
    PrefixAccepted(runId, events, k);
    var prefix := events[..k + 1];
    assert prefix[..k] == events[..k] && prefix[k] == events[k];
    var before := Replay(runId, events[..k]).value;
    if k == 0 {
      assert events[..0] == [];
    }
    AppliedWellPlaced(runId, before, k, events[k]);
    if events[k].eventType.WorkflowRunCompleted? || events[k].eventType.WorkflowRunFailed? {
      assert !Replay(runId, prefix).value.value.status.Running?;
      NothingFollowsEnd(runId, prefix, events);
    }
  }

  /** The event that fails a run names a failed step and its error. */
  lemma FailureNamesStep(runId: string, events: seq<Event>, k: nat) returns (i: nat)
    requires Replay(runId, events).Ok? && Replay(runId, events).value.Some? && k < |events|
    requires events[k].eventType.WorkflowRunFailed?
    ensures events[k].payload.RunFailedPayload?
    ensures var steps := Replay(runId, events).value.value.steps;
            i < |steps| && steps[i].id == events[k].payload.stepId && steps[i].status.Failed?
            && steps[i].lastError == Some(events[k].payload.error)
  {
    EventsWellPlaced(runId, events, k);
    var before := RunBefore(runId, events, k);
    i := StepIndex(before.steps, events[k].payload.stepId).value;
    assert events[..k + 1] == events;
  }
}
