/** What the entries of a timeline tell about an accepted history and its run (observability.py). */
module TimelineFacts {
  import opened Models
  import opened History
  import opened HistoryFacts
  import opened Timeline

  /** A retry shows its wait to within half a millisecond, and 0 if its deadline had passed; no other entry shows a
      wait. */
  lemma EntryWait(run: WorkflowRun, origin: Time, event: Event, entry: TimelineEntry)
    requires EntryFor(run, origin, event, entry) && PayloadMatches(event.eventType, event.payload)
    ensures entry.waitMs.Some? <==> event.eventType.StepRetryScheduled?
    ensures event.eventType.StepRetryScheduled? ==>
              var gap := event.payload.nextAttemptAt - event.occurredAt;
              && (gap >= 0 ==> -500 <= 1000 * entry.waitMs.value - gap <= 500)
              && (gap < 0 ==> entry.waitMs.value == 0)
    ensures -500 <= 1000 * entry.elapsedMs - (event.occurredAt - origin) <= 500
  {
    MillisecondsRound(event.occurredAt - origin, 0);
    if event.eventType.StepRetryScheduled? {
      MillisecondsRound(event.payload.nextAttemptAt - event.occurredAt, 0);
      MillisecondsRound(0, event.payload.nextAttemptAt - event.occurredAt);
    }
  }

  /** The step that an event of an accepted history names is a step of the reduced run. */
  lemma EventNamesStep(events: seq<Event>, k: nat) returns (i: nat)
    requires Reduce(events).Ok? && k < |events| && events[k].stepId.Some?
    ensures i < |Reduce(events).value.steps| && Reduce(events).value.steps[i].id == events[k].stepId.value
  {
    var runId := events[0].runId;
    if events[k].eventType.StepAttemptStarted? {
      i := AttemptRestatesDefinition(runId, events, k);
    } else if IsOutcome(events[k]) {
      i := OutcomeNamesStep(runId, events, k);
    } else {
      i := EndingNamesStep(runId, events, k);
    }
  }

  lemma EndingNamesStep(runId: string, events: seq<Event>, k: nat) returns (i: nat)
    requires Replay(runId, events).Ok? && Replay(runId, events).value.Some? && k < |events| && events[k].stepId.Some?
    requires !events[k].eventType.StepAttemptStarted? && !IsOutcome(events[k])
    ensures i < |Replay(runId, events).value.value.steps|
            && Replay(runId, events).value.value.steps[i].id == events[k].stepId.value
  {
    CreationHasNoStep(runId, events, k);
    var before := RunBefore(runId, events, k);
    i := StepIndex(before.steps, events[k].stepId.value).value;
    HistoryExtends(runId, events, k);
    assert SameDefinition(before.steps[i], Replay(runId, events).value.value.steps[i]);
  }

  lemma CreationHasNoStep(runId: string, events: seq<Event>, k: nat)
    requires Replay(runId, events).Ok? && k < |events| && events[k].stepId.Some?
    ensures !events[k].eventType.WorkflowRunCreated?
  {
    PrefixAccepted(runId, events, k + 1);
    PrefixAccepted(runId, events, k);
    var prefix := events[..k + 1];
    assert prefix[..k] == events[..k] && prefix[k] == events[k];
  }

  /** An entry about a step shows the operation of this step of the reduced run. */
  lemma EntryOperation(events: seq<Event>, k: nat, entry: TimelineEntry) returns (i: nat)
    requires Reduce(events).Ok? && k < |events| && events[k].stepId.Some?
    requires EntryFor(Reduce(events).value, events[0].occurredAt, events[k], entry)
    ensures i < |Reduce(events).value.steps| && Reduce(events).value.steps[i].id == events[k].stepId.value
    ensures entry.operation == Some(Reduce(events).value.steps[i].operation)
  {
    i := EventNamesStep(events, k);
    ReplayShaped(events[0].runId, events);
    StepIndexOf(events[0].runId, Reduce(events).value, i);
  }

  lemma OutcomeApplied(runId: string, run: WorkflowRun, expected: int, event: Event, after: WorkflowRun)
    returns (i: nat)
    requires ApplyEvent(runId, Some(run), expected, event) == Ok(after)
    requires event.eventType.StepCompleted? || event.eventType.StepFailed?
    ensures i < |after.steps| && OutcomeOn(after.steps[i], event)
  {
    i := StepIndex(run.steps, event.stepId.value).value;
  }

  /** The runs just before and just after event `k`; the final run extends the second. */
  lemma RunsAround(runId: string, events: seq<Event>, k: nat) returns (before: WorkflowRun, after: WorkflowRun)
    requires Replay(runId, events).Ok? && Replay(runId, events).value.Some? && k < |events|
    requires !events[k].eventType.WorkflowRunCreated?
    ensures ApplyEvent(runId, Some(before), k + 1, events[k]) == Ok(after)
    ensures Extends(after, Replay(runId, events).value.value)
  {
    before := RunBefore(runId, events, k);
    after := ApplyEvent(runId, Some(before), k + 1, events[k]).value;
    assert events[..k + 1] == events[..k] + [events[k]];
    ReplayAppend(runId, events[..k], events[k]);
    HistoryExtends(runId, events, k + 1);
  }

  /** The step stands as the final event of its work says. */
  predicate OutcomeOn(step: StepRecord, event: Event) {
    event.stepId == Some(step.id)
    && (event.eventType.StepCompleted? ==>
          event.payload.CompletedPayload? && step.status.Completed? && step.output == Some(event.payload.output))
    && (event.eventType.StepFailed? ==>
          event.payload.FailedPayload? && step.status.Failed? && step.lastError == Some(event.payload.error))
  }

  /** A finished step keeps what its outcome event said. */
  lemma OutcomeKept(runId: string, events: seq<Event>, k: nat) returns (i: nat)
    requires Replay(runId, events).Ok? && Replay(runId, events).value.Some? && k < |events|
    requires events[k].eventType.StepCompleted? || events[k].eventType.StepFailed?
    ensures i < |Replay(runId, events).value.value.steps|
    ensures OutcomeOn(Replay(runId, events).value.value.steps[i], events[k])
  {
    var before, after := RunsAround(runId, events, k);
    i := OutcomeApplied(runId, before, k + 1, events[k], after);
    FinishedKept(after, Replay(runId, events).value.value, i);
  }

  lemma FinishedKept(before: WorkflowRun, after: WorkflowRun, i: nat)
    requires Extends(before, after) && i < |before.steps| && Finished(before.steps[i])
    ensures i < |after.steps| && after.steps[i] == before.steps[i]
  {
  }

  /** The detail of an entry is what the reduced run still says: the number of its steps, the key of the step, its
      output, or why it failed. */
  lemma EntryDetail(events: seq<Event>, k: nat, entry: TimelineEntry) returns (i: nat)
    requires Reduce(events).Ok? && k < |events|
    requires EntryFor(Reduce(events).value, events[0].occurredAt, events[k], entry)
    ensures var run, event := Reduce(events).value, events[k];
            && (event.eventType.WorkflowRunCreated? ==> entry.detail == Materialized(|run.steps|))
            && (event.eventType.StepAttemptStarted? ==>
                  i < |run.steps| && event.stepId == Some(run.steps[i].id)
                  && entry.detail == Intent(run.steps[i].operationKey))
            && (event.eventType.StepCompleted? ==>
                  i < |run.steps| && event.stepId == Some(run.steps[i].id) && run.steps[i].output.Some?
                  && entry.detail == Reference(run.steps[i].output.value))
            && (event.eventType.StepFailed? ==>
                  i < |run.steps| && event.stepId == Some(run.steps[i].id) && run.steps[i].lastError.Some?
                  && entry.detail == Reason(run.steps[i].lastError.value))
            && (event.eventType.StepRetryScheduled? ==>
                  event.payload.RetryPayload? && entry.detail == Reason(event.payload.error))
            && (event.eventType.WorkflowRunFailed? ==>
                  event.payload.RunFailedPayload? && entry.detail == Reason(event.payload.error))
            && (event.eventType.WorkflowRunCompleted? ==> entry.detail == AllComplete)
  {
    var runId := events[0].runId;
    i := 0;
    PayloadsMatch(runId, events, k);
    if events[k].eventType.StepAttemptStarted? {
      i := AttemptRestatesDefinition(runId, events, k);
    } else if events[k].eventType.StepCompleted? || events[k].eventType.StepFailed? {
      i := OutcomeKept(runId, events, k);
    }
  }
}
