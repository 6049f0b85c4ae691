/** One lemma per transaction: on a running run it commits events that the reducer accepts
    and that lead to exactly the rows it wrote. */
module Transitions {
  import opened Models
  import opened History
  import opened HistoryFacts
  import opened Database
  import opened Refinement

  // ----- what each transaction writes into a step and into the log -----

  function WithStep(run: WorkflowRun, i: nat, step: StepRecord): WorkflowRun
    requires i < |run.steps|
  {
    run.(steps := run.steps[i := step])
  }

  function StartedStep(step: StepRecord, now: Time): StepRecord {
    step.(status := IntentRecorded, attempts := step.attempts + 1, nextAttemptAt := None, lastError := None,
          updatedAt := now)
  }

  function RetriedStep(step: StepRecord, error: string, deadline: Time, now: Time): StepRecord {
    step.(status := RetryWait, lastError := Some(error), nextAttemptAt := Some(deadline), updatedAt := now)
  }

  /** The failing transaction leaves the deadline column alone. */
  function FailedStepRecord(step: StepRecord, error: string, now: Time): StepRecord {
    step.(status := Failed, lastError := Some(error), updatedAt := now)
  }

  function CompletedStep(step: StepRecord, output: ToolResult, now: Time): StepRecord {
    step.(status := Completed, output := Some(output), nextAttemptAt := None, lastError := None,
          completedAt := Some(now), updatedAt := now)
  }

  function StepEvent(step: StepRecord, sequence: int, eventType: EventType, payload: Payload, attempt: int,
                     schemaVersion: int, now: Time): Event
  {
    Event(step.runId, sequence, eventType, schemaVersion, Some(step.id), Some(attempt), payload, now)
  }

  function StartedEvent(step: StepRecord, sequence: int, ownerId: Option<string>, fenceToken: Option<int>,
                        now: Time): Event
  {
    StepEvent(step, sequence, StepAttemptStarted,
              StartedPayload(step.operation, step.request, step.operationKey, ownerId, fenceToken), step.attempts + 1,
              if ownerId.Some? then ATTEMPT_EVENT_SCHEMA_VERSION else EVENT_SCHEMA_VERSION, now)
  }

  function OutcomeEvent(step: StepRecord, sequence: int, eventType: EventType, payload: Payload, now: Time): Event {
    StepEvent(step, sequence, eventType, payload, step.attempts, EVENT_SCHEMA_VERSION, now)
  }

  function EndedEvent(runId: string, sequence: int, eventType: EventType, stepId: Option<string>, payload: Payload,
                      now: Time): Event
  {
    Event(runId, sequence, eventType, EVENT_SCHEMA_VERSION, stepId, None, payload, now)
  }

  // ----- the reducer accepts these events -----

  lemma StartAccepted(runId: string, run: WorkflowRun, i: nat, sequence: int, ownerId: Option<string>,
                      fenceToken: Option<int>, now: Time)
    requires Shaped(runId, run) && run.status.Running? && i < |run.steps|
    requires RunnableStatus(run.steps[i].status) && DependenciesDone(run, run.steps[i])
    requires ownerId.Some? <==> fenceToken.Some?
    ensures ApplyEvent(runId, Some(run), sequence, StartedEvent(run.steps[i], sequence, ownerId, fenceToken, now)) ==
            Ok(WithStep(run, i, StartedStep(run.steps[i], now)))
  {
    StepIndexOf(runId, run, i);
  }

  lemma RetryAccepted(runId: string, run: WorkflowRun, i: nat, sequence: int, error: string, deadline: Time, now: Time)
    requires Shaped(runId, run) && run.status.Running? && i < |run.steps| && run.steps[i].status.IntentRecorded?
    ensures ApplyEvent(runId, Some(run), sequence,
                       OutcomeEvent(run.steps[i], sequence, StepRetryScheduled, RetryPayload(error, deadline), now)) ==
            Ok(WithStep(run, i, RetriedStep(run.steps[i], error, deadline, now)))
  {
    StepIndexOf(runId, run, i);
  }

  lemma CompletionAccepted(runId: string, run: WorkflowRun, i: nat, sequence: int, output: ToolResult, now: Time)
    requires Shaped(runId, run) && run.status.Running? && i < |run.steps| && run.steps[i].status.IntentRecorded?
    ensures ApplyEvent(runId, Some(run), sequence,
                       OutcomeEvent(run.steps[i], sequence, StepCompleted, CompletedPayload(output), now)) ==
            Ok(WithStep(run, i, CompletedStep(run.steps[i], output, now)))
  {
    StepIndexOf(runId, run, i);
  }

  /** The reducer clears the deadline of a failed step; the row agrees because an active attempt has none. */
  lemma FailureAccepted(runId: string, run: WorkflowRun, i: nat, sequence: int, error: string, now: Time)
    requires Shaped(runId, run) && run.status.Running? && i < |run.steps|
    requires run.steps[i].status.IntentRecorded? && run.steps[i].nextAttemptAt.None?
    ensures ApplyEvent(runId, Some(run), sequence,
                       OutcomeEvent(run.steps[i], sequence, StepFailed, FailedPayload(error), now)) ==
            Ok(WithStep(run, i, FailedStepRecord(run.steps[i], error, now)))
  {
    StepIndexOf(runId, run, i);
  }

  lemma RunFailureAccepted(runId: string, run: WorkflowRun, i: nat, sequence: int, error: string, now: Time)
    requires Shaped(runId, run) && run.status.Running? && i < |run.steps|
    requires run.steps[i].status.Failed? && run.steps[i].lastError == Some(error)
    ensures ApplyEvent(runId, Some(run), sequence,
                       EndedEvent(runId, sequence, WorkflowRunFailed, Some(run.steps[i].id),
                                  RunFailedPayload(run.steps[i].id, error), now)) ==
            Ok(run.(status := RunFailed, updatedAt := now))
  {
    StepIndexOf(runId, run, i);
  }

  lemma RunCompletionAccepted(runId: string, run: WorkflowRun, sequence: int, now: Time)
    requires run.status.Running? && AllStepsCompleted(run)
    ensures ApplyEvent(runId, Some(run), sequence,
                       EndedEvent(runId, sequence, WorkflowRunCompleted, None, RunCompletedPayload, now)) ==
            Ok(run.(status := RunCompleted, updatedAt := now, completedAt := Some(now)))
  {
  }

  // ----- the resulting run is sound -----

  /** Moving step `i` on, without finishing it, keeps a running run sound. */
  lemma UnfinishedStaysSound(run: WorkflowRun, i: nat, step: StepRecord)
    requires Sound(run) && run.status.Running? && i < |run.steps|
    requires SameDefinition(run.steps[i], step) && run.steps[i].attempts <= step.attempts
    requires !Finished(run.steps[i]) && !Finished(step) && StepSound(run, step)
    ensures Sound(WithStep(run, i, step))
  {
    var after := WithStep(run, i, step);
    CompletedIdsGrow(run, after);
    StepsStaySound(run, after, i);
    assert !after.steps[i].status.Completed?;
    assert forall j :: 0 <= j < |after.steps| && j != i ==> after.steps[j] == run.steps[j];
  }

  /** Finishing step `i`, together with the run status this calls for, keeps the run sound. */
  lemma FinishedStaysSound(run: WorkflowRun, after: WorkflowRun, i: nat)
    requires Sound(run) && run.status.Running? && i < |run.steps| && run.steps[i].status.IntentRecorded?
    requires after == run.(steps := after.steps, status := after.status, updatedAt := after.updatedAt,
                           completedAt := after.completedAt)
    requires |after.steps| == |run.steps| && after.steps == run.steps[i := after.steps[i]]
    requires SameDefinition(run.steps[i], after.steps[i])
    requires after.steps[i].attempts == run.steps[i].attempts && after.steps[i].nextAttemptAt.None?
    requires (after.steps[i].status.Completed? && after.steps[i].output.Some?
              && after.status == (if AllStepsCompleted(after) then RunCompleted else Running))
             || (after.steps[i].status.Failed? && after.status.RunFailed?)
    ensures Sound(after)
  {
    CompletedIdsGrow(run, after);
    assert StepSound(run, run.steps[i]);
    StepsStaySound(run, after, i);
    assert forall j :: 0 <= j < |after.steps| && j != i ==> after.steps[j] == run.steps[j];
    assert forall j :: 0 <= j < |run.steps| ==> !run.steps[j].status.Failed?;
  }

  lemma StartedStaysSound(runId: string, run: WorkflowRun, i: nat, now: Time)
    requires Shaped(runId, run) && Sound(run) && run.status.Running? && i < |run.steps|
    requires RunnableStatus(run.steps[i].status) && DependenciesDone(run, run.steps[i])
    ensures Sound(WithStep(run, i, StartedStep(run.steps[i], now)))
  {
    assert StepSound(run, run.steps[i]);
    UnfinishedStaysSound(run, i, StartedStep(run.steps[i], now));
  }

  lemma RetriedStaysSound(runId: string, run: WorkflowRun, i: nat, error: string, deadline: Time, now: Time)
    requires Shaped(runId, run) && Sound(run) && run.status.Running? && i < |run.steps|
    requires run.steps[i].status.IntentRecorded?
    ensures Sound(WithStep(run, i, RetriedStep(run.steps[i], error, deadline, now)))
  {
    assert StepSound(run, run.steps[i]);
    UnfinishedStaysSound(run, i, RetriedStep(run.steps[i], error, deadline, now));
  }

  lemma FailedStaysSound(runId: string, run: WorkflowRun, i: nat, error: string, now: Time)
    requires Shaped(runId, run) && Sound(run) && run.status.Running? && i < |run.steps|
    requires run.steps[i].status.IntentRecorded?
    ensures run.steps[i].nextAttemptAt.None?
    ensures Sound(WithStep(run, i, FailedStepRecord(run.steps[i], error, now)).(status := RunFailed, updatedAt := now))
  {
    assert StepSound(run, run.steps[i]);
    FinishedStaysSound(run, WithStep(run, i, FailedStepRecord(run.steps[i], error, now)).
                              (status := RunFailed, updatedAt := now), i);
  }

  lemma CompletedStaysSound(runId: string, run: WorkflowRun, i: nat, output: ToolResult, now: Time)
    requires Shaped(runId, run) && Sound(run) && run.status.Running? && i < |run.steps|
    requires run.steps[i].status.IntentRecorded?
    ensures var middle := WithStep(run, i, CompletedStep(run.steps[i], output, now));
            if AllStepsCompleted(middle)
            then Sound(middle.(status := RunCompleted, updatedAt := now, completedAt := Some(now)))
            else Sound(middle)
  {
    var middle := WithStep(run, i, CompletedStep(run.steps[i], output, now));
    var after := if AllStepsCompleted(middle)
                 then middle.(status := RunCompleted, updatedAt := now, completedAt := Some(now)) else middle;
    assert StepSound(run, run.steps[i]);
    assert AllStepsCompleted(after) <==> AllStepsCompleted(middle);
    FinishedStaysSound(run, after, i);
  }

  // ----- what the transactions do to the tables -----

  ghost predicate Keyed(db: Db) {
    db.steps.Keys == db.runs.Keys && db.dependencies.Keys == db.runs.Keys && db.events.Keys == db.runs.Keys
  }

  /** Logging an event of a step and rewriting its row, as every step transition does. */
  lemma StepWritten(db: Db, db': Db, runId: string, i: nat, row: StepRow, eventType: EventType, payload: Payload,
                    now: Time, attempt: int, schemaVersion: int)
    requires Keyed(db) && runId in db.runs && i < |RowsOf(db.steps, runId)| && db.steps[runId][i].id == row.id
    requires db' == SetStep(AppendEvent(db, runId, eventType, payload, now,
                                        Some(row.id), Some(attempt), schemaVersion), runId, i, row)
    ensures var run := Projection(db, runId);
            && ChangesOnly(db, db', runId) && db'.throttles == db.throttles && db'.runs == db.runs
            && db'.steps[runId] == db.steps[runId][i := row]
            && Projection(db', runId) == WithStep(run, i, StepFromRow(row, run.steps[i].dependsOn))
            && RowsOf(db'.events, runId) == RowsOf(db.events, runId)
                 + [Event(runId, NextSequence(RowsOf(db.events, runId)), eventType, schemaVersion, Some(row.id),
                         Some(attempt), payload, now)]
  {
    ProjectionAfterSetStep(db.runs[runId], RowsOf(db.steps, runId), RowsOf(db.dependencies, runId), i, row);
  }

  function StartedRow(row: StepRow, now: Time): StepRow {
    row.(status := IntentRecorded, attempts := row.attempts + 1, nextAttemptAt := None, lastError := None,
         updatedAt := now)
  }

  /** What has been checked when an attempt is recorded, and what is then done. */
  lemma RecordAttemptAdmitted(db: Db, runId: string, stepId: string, ownerId: Option<string>, fenceToken: Option<int>,
                              leaseNow: Time, now: Time)
    returns (i: nat)
    requires RecordAttempt(db, runId, stepId, ownerId, fenceToken, leaseNow, now).Ok?
    ensures RowIndex(RowsOf(db.steps, runId), stepId) == Some(i)
    ensures RunnableStatus(db.steps[runId][i].status)
    ensures !Blocked(RowsOf(db.steps, runId), RowsOf(db.dependencies, runId), stepId)
    ensures ownerId.Some? <==> fenceToken.Some?
    ensures var row := db.steps[runId][i];
            RecordAttempt(db, runId, stepId, ownerId, fenceToken, leaseNow, now).value ==
            (SetStep(AppendEvent(db, runId, StepAttemptStarted,
                                 StartedPayload(row.operation, row.request, row.operationKey, ownerId, fenceToken),
                                 now, Some(row.id), Some(row.attempts + 1),
                                 if ownerId.Some? then ATTEMPT_EVENT_SCHEMA_VERSION else EVENT_SCHEMA_VERSION),
                     runId, i, StartedRow(row, now)),
             StepFromRow(StartedRow(row, now), Regroup(RowsOf(db.dependencies, runId), stepId)))
  {
    i := RowIndex(RowsOf(db.steps, runId), stepId).value;
  }

  lemma RecordAttemptWrites(db: Db, runId: string, stepId: string, ownerId: Option<string>, fenceToken: Option<int>,
                            leaseNow: Time, now: Time)
    returns (i: nat)
    requires Keyed(db) && runId in db.runs && db.runs[runId].runId == runId
    requires RecordAttempt(db, runId, stepId, ownerId, fenceToken, leaseNow, now).Ok?
    requires forall k :: 0 <= k < |RowsOf(db.steps, runId)| ==> db.steps[runId][k].runId == runId
    ensures RowIndex(RowsOf(db.steps, runId), stepId) == Some(i) && RunnableStatus(db.steps[runId][i].status)
    ensures !Blocked(RowsOf(db.steps, runId), RowsOf(db.dependencies, runId), stepId)
    ensures ownerId.Some? <==> fenceToken.Some?
    ensures var (db', step) := RecordAttempt(db, runId, stepId, ownerId, fenceToken, leaseNow, now).value;
            step == StartedStep(Projection(db, runId).steps[i], now)
            && AttemptWritten(db, db', runId, i, step, ownerId, fenceToken, now)
  {
    i := RecordAttemptAdmitted(db, runId, stepId, ownerId, fenceToken, leaseNow, now);
    AttemptWrites(db, RecordAttempt(db, runId, stepId, ownerId, fenceToken, leaseNow, now).value.0, runId, i, ownerId,
                  fenceToken, now);
    StartedRowStep(db, runId, i, now);
  }

  lemma StartedRowStep(db: Db, runId: string, i: nat, now: Time)
    requires runId in db.runs && i < |RowsOf(db.steps, runId)|
    ensures var row := db.steps[runId][i];
            StepFromRow(StartedRow(row, now), Regroup(RowsOf(db.dependencies, runId), row.id)) ==
            StartedStep(Projection(db, runId).steps[i], now)
  {
  }

  ghost predicate AttemptWritten(db: Db, db': Db, runId: string, i: nat, step: StepRecord,
                                 ownerId: Option<string>, fenceToken: Option<int>, now: Time)
    requires runId in db.runs && i < |RowsOf(db.steps, runId)|
  {
    && ChangesOnly(db, db', runId) && db'.throttles == db.throttles && db'.runs == db.runs
    && Projection(db', runId) == WithStep(Projection(db, runId), i, step)
    && RowsOf(db'.events, runId) == RowsOf(db.events, runId)
         + [StartedEvent(Projection(db, runId).steps[i], NextSequence(RowsOf(db.events, runId)),
                              ownerId, fenceToken, now)]
  }

  lemma AttemptWrites(db: Db, db': Db, runId: string, i: nat, ownerId: Option<string>, fenceToken: Option<int>,
                      now: Time)
    requires Keyed(db) && runId in db.runs && i < |RowsOf(db.steps, runId)| && db.steps[runId][i].runId == runId
    requires var row := db.steps[runId][i];
             db' == SetStep(AppendEvent(db, runId, StepAttemptStarted,
                                 StartedPayload(row.operation, row.request, row.operationKey, ownerId, fenceToken),
                                        now, Some(row.id), Some(row.attempts + 1),
                                        if ownerId.Some? then ATTEMPT_EVENT_SCHEMA_VERSION else EVENT_SCHEMA_VERSION),
                            runId, i, StartedRow(row, now))
    ensures AttemptWritten(db, db', runId, i, StartedStep(Projection(db, runId).steps[i], now), ownerId, fenceToken,
                           now)
  {
    var row, step := db.steps[runId][i], Projection(db, runId).steps[i];
    assert StepFromRow(StartedRow(row, now), step.dependsOn) == StartedStep(step, now);
    StepWritten(db, db', runId, i, StartedRow(row, now), StepAttemptStarted,
                StartedPayload(row.operation, row.request, row.operationKey, ownerId,
                               fenceToken), now, row.attempts + 1,
                if ownerId.Some? then ATTEMPT_EVENT_SCHEMA_VERSION else EVENT_SCHEMA_VERSION);
  }

  lemma ScheduleRetryWrites(db: Db, runId: string, stepId: string, error: string, nextAttemptAt: Time,
                            ownerId: Option<string>, fenceToken: Option<int>, throttleTool: bool,
                            leaseNow: Time, now: Time)
    returns (i: nat)
    requires Keyed(db) && runId in db.runs && db.runs[runId].runId == runId
    requires ScheduleRetry(db, runId, stepId, error, nextAttemptAt, ownerId, fenceToken, throttleTool, leaseNow,
                           now).Ok?
    requires forall k :: 0 <= k < |RowsOf(db.steps, runId)| ==> db.steps[runId][k].runId == runId
    ensures ActiveAttempt(db, runId, stepId, ownerId, fenceToken, leaseNow) == Ok(i)
    ensures var db' := ScheduleRetry(db, runId, stepId, error, nextAttemptAt, ownerId, fenceToken, throttleTool,
                                     leaseNow, now).value;
            var run := Projection(db, runId);
            && ChangesOnly(db, db', runId)
            && db'.throttles == Cooldowns(db.throttles, throttleTool, run.steps[i].toolKey, nextAttemptAt, error, now)
            && Projection(db', runId) == WithStep(run, i, RetriedStep(run.steps[i], error, nextAttemptAt, now))
            && RowsOf(db'.events, runId) == RowsOf(db.events, runId)
                 + [OutcomeEvent(run.steps[i], NextSequence(RowsOf(db.events, runId)), StepRetryScheduled,
                                 RetryPayload(error, nextAttemptAt), now)]
  {
    var db' := ScheduleRetry(db, runId, stepId, error, nextAttemptAt, ownerId, fenceToken, throttleTool, leaseNow,
                             now).value;
    var rows, edges := RowsOf(db.steps, runId), RowsOf(db.dependencies, runId);
    i := RowIndex(rows, stepId).value;
    ProjectionAfterSetStep(db.runs[runId], rows, edges, i, db'.steps[runId][i]);
  }

  lemma FailStepWrites(db: Db, runId: string, stepId: string, error: string,
                       ownerId: Option<string>, fenceToken: Option<int>, leaseNow: Time, now: Time)
    returns (i: nat)
    requires Keyed(db) && runId in db.runs && db.runs[runId].runId == runId
    requires FailStep(db, runId, stepId, error, ownerId, fenceToken, leaseNow, now).Ok?
    requires forall k :: 0 <= k < |RowsOf(db.steps, runId)| ==> db.steps[runId][k].runId == runId
    ensures ActiveAttempt(db, runId, stepId, ownerId, fenceToken, leaseNow) == Ok(i)
    ensures var db' := FailStep(db, runId, stepId, error, ownerId, fenceToken, leaseNow, now).value;
            var run, events := Projection(db, runId), RowsOf(db.events, runId);
            var failed := OutcomeEvent(run.steps[i], NextSequence(events), StepFailed, FailedPayload(error), now);
            && ChangesOnly(db, db', runId) && db'.throttles == db.throttles
            && Projection(db', runId) ==
                 WithStep(run, i, FailedStepRecord(run.steps[i], error, now)).(status := RunFailed, updatedAt := now)
            && RowsOf(db'.events, runId) == events
                 + [failed, EndedEvent(runId, NextSequence(events + [failed]), WorkflowRunFailed, Some(stepId),
                                       RunFailedPayload(stepId, error), now)]
  {
    var db' := FailStep(db, runId, stepId, error, ownerId, fenceToken, leaseNow, now).value;
    var rows, edges := RowsOf(db.steps, runId), RowsOf(db.dependencies, runId);
    i := RowIndex(rows, stepId).value;
    ProjectionAfterSetStep(db'.runs[runId], rows, edges, i, db'.steps[runId][i]);
    assert RunFromRows(db'.runs[runId], rows, edges) == Projection(db, runId).(status := RunFailed, updatedAt := now);
  }

  lemma FinishStepWrites(db: Db, runId: string, i: nat, output: ToolResult, now: Time)
    requires Keyed(db) && runId in db.runs && i < |RowsOf(db.steps, runId)| && db.steps[runId][i].runId == runId
    ensures var db' := FinishStep(db, runId, i, output, now);
            var run, events := Projection(db, runId), RowsOf(db.events, runId);
            && ChangesOnly(db, db', runId) && db'.throttles == db.throttles
            && Projection(db', runId) == WithStep(run, i, CompletedStep(run.steps[i], output, now))
            && (AllRowsCompleted(db'.steps[runId]) <==> AllStepsCompleted(Projection(db', runId)))
            && RowsOf(db'.events, runId) == events
                 + [OutcomeEvent(run.steps[i], NextSequence(events), StepCompleted, CompletedPayload(output), now)]
  {
    var row := db.steps[runId][i];
    StepWritten(db, FinishStep(db, runId, i, output, now), runId, i,
                row.(status := Completed, output := Some(output), nextAttemptAt := None, lastError := None,
                     completedAt := Some(now), updatedAt := now),
                StepCompleted, CompletedPayload(output), now, row.attempts, EVENT_SCHEMA_VERSION);
    AllCompletedMatches(db.runs[runId], FinishStep(db, runId, i, output, now).steps[runId],
                        RowsOf(db.dependencies, runId));
  }

  lemma FinishRunWrites(db: Db, runId: string, now: Time)
    requires Keyed(db) && runId in db.runs
    ensures var db' := FinishRun(db, runId, now);
            var events := RowsOf(db.events, runId);
            && ChangesOnly(db, db', runId) && db'.throttles == db.throttles
            && Projection(db', runId) == Projection(db, runId).
                                  (status := RunCompleted, updatedAt := now, completedAt := Some(now))
            && RowsOf(db'.events, runId) == events
                 + [EndedEvent(runId, NextSequence(events), WorkflowRunCompleted, None, RunCompletedPayload, now)]
  {
  }

  lemma AllCompletedMatches(run: RunRow, rows: seq<StepRow>, edges: seq<DependencyRow>)
    ensures AllRowsCompleted(rows) <==> AllStepsCompleted(RunFromRows(run, rows, edges))
  {
    var steps := RunFromRows(run, rows, edges).steps;
    assert forall j :: 0 <= j < |rows| ==> steps[j].status == rows[j].status;
    assert forall j :: 0 <= j < |steps| ==> rows[j].status == steps[j].status;
  }

  // ----- committing -----

  /** What the invariant says about one run. */
  lemma RunFacts(db: Db, runId: string)
    requires DbInv(db) && runId in db.runs
    ensures Keyed(db) && RunInv(db, runId) && db.runs[runId].runId == runId
    ensures Shaped(runId, Projection(db, runId)) && Sound(Projection(db, runId))
    ensures NextSequence(RowsOf(db.events, runId)) == |RowsOf(db.events, runId)| + 1
    ensures forall k :: 0 <= k < |RowsOf(db.steps, runId)| ==> db.steps[runId][k].runId == runId
  {
    assert RunInv(db, runId);
    ReplayShaped(runId, RowsOf(db.events, runId));
    NextSequenceExpected(runId, RowsOf(db.events, runId));
    forall k | 0 <= k < |RowsOf(db.steps, runId)| ensures db.steps[runId][k].runId == runId {
      assert Projection(db, runId).steps[k].runId == runId;
    }
  }

  lemma NextSequenceAfter(db: Db, runId: string, run: WorkflowRun, event: Event)
    requires DbInv(db) && runId in db.runs
    requires ApplyEvent(runId, Some(Projection(db, runId)), |RowsOf(db.events, runId)| + 1, event) == Ok(run)
    ensures NextSequence(RowsOf(db.events, runId) + [event]) == |RowsOf(db.events, runId)| + 2
  {
    assert RunInv(db, runId);
    ReplayAppend(runId, RowsOf(db.events, runId), event);
    NextSequenceExpected(runId, RowsOf(db.events, runId) + [event]);
  }

  lemma StartCommits(db: Db, db': Db, runId: string, i: nat, ownerId: Option<string>, fenceToken: Option<int>,
                     now: Time)
    requires DbInv(db) && ChangesOnly(db, db', runId)
    requires Projection(db, runId).status.Running? && i < |Projection(db, runId).steps|
    requires RunnableStatus(Projection(db, runId).steps[i].status)
    requires DependenciesDone(Projection(db, runId), Projection(db, runId).steps[i])
    requires ownerId.Some? <==> fenceToken.Some?
    requires Projection(db', runId) == WithStep(Projection(db, runId), i,
                                                StartedStep(Projection(db, runId).steps[i], now))
    requires RowsOf(db'.events, runId) == RowsOf(db.events, runId)
               + [StartedEvent(Projection(db, runId).steps[i], NextSequence(RowsOf(db.events, runId)),
                              ownerId, fenceToken, now)]
    ensures Committed(db, db', runId,
              [StartedEvent(Projection(db, runId).steps[i], |RowsOf(db.events, runId)| + 1, ownerId, fenceToken, now)])
  {
    RunFacts(db, runId);
    var run, n := Projection(db, runId), |RowsOf(db.events, runId)|;
    var event := StartedEvent(run.steps[i], n + 1, ownerId, fenceToken, now);
    StartAccepted(runId, run, i, n + 1, ownerId, fenceToken, now);
    StartedStaysSound(runId, run, i, now);
    CommitOne(db, db', runId, event);
  }

  lemma RetryCommits(db: Db, db': Db, runId: string, i: nat, error: string, deadline: Time, now: Time)
    requires DbInv(db) && ChangesOnly(db, db', runId)
    requires Projection(db, runId).status.Running? && i < |Projection(db, runId).steps|
    requires Projection(db, runId).steps[i].status.IntentRecorded?
    requires Projection(db', runId) == WithStep(Projection(db, runId), i,
                                                RetriedStep(Projection(db, runId).steps[i], error, deadline, now))
    requires RowsOf(db'.events, runId) == RowsOf(db.events, runId)
               + [OutcomeEvent(Projection(db, runId).steps[i], NextSequence(RowsOf(db.events, runId)),
                               StepRetryScheduled, RetryPayload(error, deadline), now)]
    ensures Committed(db, db', runId,
              [OutcomeEvent(Projection(db, runId).steps[i], |RowsOf(db.events, runId)| + 1, StepRetryScheduled,
                            RetryPayload(error, deadline), now)])
  {
    RunFacts(db, runId);
    var run, n := Projection(db, runId), |RowsOf(db.events, runId)|;
    var event := OutcomeEvent(run.steps[i], n + 1, StepRetryScheduled, RetryPayload(error, deadline), now);
    RetryAccepted(runId, run, i, n + 1, error, deadline, now);
    RetriedStaysSound(runId, run, i, error, deadline, now);
    CommitOne(db, db', runId, event);
  }

  /** The reducer's view of a failure: the failed step and the failed run, in two events. */
  lemma FailureReduces(runId: string, run: WorkflowRun, i: nat, sequence: int, error: string, now: Time)
    requires Shaped(runId, run) && Sound(run) && run.status.Running? && i < |run.steps|
             && run.steps[i].status.IntentRecorded?
    ensures var middle := WithStep(run, i, FailedStepRecord(run.steps[i], error, now));
            && ApplyEvent(runId, Some(run), sequence,
                 OutcomeEvent(run.steps[i], sequence, StepFailed, FailedPayload(error), now)) == Ok(middle)
            && ApplyEvent(runId, Some(middle), sequence + 1,
                 EndedEvent(runId, sequence + 1, WorkflowRunFailed, Some(run.steps[i].id),
                            RunFailedPayload(run.steps[i].id, error), now)) ==
               Ok(middle.(status := RunFailed, updatedAt := now))
  {
    FailedStaysSound(runId, run, i, error, now);
    FailureAccepted(runId, run, i, sequence, error, now);
    ApplyExtends(runId, run, sequence, OutcomeEvent(run.steps[i], sequence, StepFailed, FailedPayload(error), now));
    var middle := WithStep(run, i, FailedStepRecord(run.steps[i], error, now));
    ShapePersists(runId, run, middle);
    RunFailureAccepted(runId, middle, i, sequence + 1, error, now);
  }

  lemma FailureCommits(db: Db, db': Db, runId: string, i: nat, error: string, now: Time)
    requires DbInv(db) && ChangesOnly(db, db', runId)
    requires Projection(db, runId).status.Running? && i < |Projection(db, runId).steps|
    requires Projection(db, runId).steps[i].status.IntentRecorded?
    requires var run, events := Projection(db, runId), RowsOf(db.events, runId);
             var failed := OutcomeEvent(run.steps[i], NextSequence(events), StepFailed, FailedPayload(error), now);
             && Projection(db', runId) ==
                  WithStep(run, i, FailedStepRecord(run.steps[i], error, now)).(status := RunFailed, updatedAt := now)
             && RowsOf(db'.events, runId) == events
                  + [failed, EndedEvent(runId, NextSequence(events + [failed]), WorkflowRunFailed,
                                        Some(run.steps[i].id), RunFailedPayload(run.steps[i].id, error), now)]
    ensures var run, n := Projection(db, runId), |RowsOf(db.events, runId)|;
            Committed(db, db', runId,
              [OutcomeEvent(run.steps[i], n + 1, StepFailed, FailedPayload(error), now),
               EndedEvent(runId, n + 2, WorkflowRunFailed, Some(run.steps[i].id),
                          RunFailedPayload(run.steps[i].id, error), now)])
  {
    RunFacts(db, runId);
    var run, n := Projection(db, runId), |RowsOf(db.events, runId)|;
    var middle := WithStep(run, i, FailedStepRecord(run.steps[i], error, now));
    var failed := OutcomeEvent(run.steps[i], n + 1, StepFailed, FailedPayload(error), now);
    FailureReduces(runId, run, i, n + 1, error, now);
    FailedStaysSound(runId, run, i, error, now);
    NextSequenceAfter(db, runId, middle, failed);
    CommitTwo(db, db', runId, middle, failed,
              EndedEvent(runId, n + 2, WorkflowRunFailed, Some(run.steps[i].id),
                         RunFailedPayload(run.steps[i].id, error), now));
  }

  /** A completion that leaves steps unfinished. */
  lemma CompletionCommits(db: Db, db': Db, runId: string, i: nat, output: ToolResult, now: Time)
    requires DbInv(db) && ChangesOnly(db, db', runId)
    requires Projection(db, runId).status.Running? && i < |Projection(db, runId).steps|
    requires Projection(db, runId).steps[i].status.IntentRecorded?
    requires var run, events := Projection(db, runId), RowsOf(db.events, runId);
             && Projection(db', runId) == WithStep(run, i, CompletedStep(run.steps[i], output, now))
             && !AllStepsCompleted(Projection(db', runId))
             && RowsOf(db'.events, runId) == events
                  + [OutcomeEvent(run.steps[i], NextSequence(events), StepCompleted, CompletedPayload(output), now)]
    ensures var run, n := Projection(db, runId), |RowsOf(db.events, runId)|;
            Committed(db, db', runId, [OutcomeEvent(run.steps[i], n + 1, StepCompleted, CompletedPayload(output), now)])
  {
    RunFacts(db, runId);
    var run, n := Projection(db, runId), |RowsOf(db.events, runId)|;
    CompletionAccepted(runId, run, i, n + 1, output, now);
    CompletedStaysSound(runId, run, i, output, now);
    CommitOne(db, db', runId, OutcomeEvent(run.steps[i], n + 1, StepCompleted, CompletedPayload(output), now));
  }

  /** The completion that ends the run. */
  lemma LastCompletionCommits(db: Db, db': Db, runId: string, i: nat, output: ToolResult, now: Time)
    requires DbInv(db) && ChangesOnly(db, db', runId)
    requires Projection(db, runId).status.Running? && i < |Projection(db, runId).steps|
    requires Projection(db, runId).steps[i].status.IntentRecorded?
    requires var run, events := Projection(db, runId), RowsOf(db.events, runId);
             var middle := WithStep(run, i, CompletedStep(run.steps[i], output, now));
             var completed := OutcomeEvent(run.steps[i], NextSequence(events), StepCompleted, CompletedPayload(output),
                                           now);
             && AllStepsCompleted(middle)
             && Projection(db', runId) == middle.(status := RunCompleted, updatedAt := now, completedAt := Some(now))
             && RowsOf(db'.events, runId) == events
                  + [completed, EndedEvent(runId, NextSequence(events + [completed]), WorkflowRunCompleted, None,
                                          RunCompletedPayload, now)]
    ensures var run, n := Projection(db, runId), |RowsOf(db.events, runId)|;
            Committed(db, db', runId,
              [OutcomeEvent(run.steps[i], n + 1, StepCompleted, CompletedPayload(output), now),
               EndedEvent(runId, n + 2, WorkflowRunCompleted, None, RunCompletedPayload, now)])
  {
    RunFacts(db, runId);
    var run, n := Projection(db, runId), |RowsOf(db.events, runId)|;
    var middle := WithStep(run, i, CompletedStep(run.steps[i], output, now));
    var completed := OutcomeEvent(run.steps[i], n + 1, StepCompleted, CompletedPayload(output), now);
    CompletionAccepted(runId, run, i, n + 1, output, now);
    RunCompletionAccepted(runId, middle, n + 2, now);
    CompletedStaysSound(runId, run, i, output, now);
    NextSequenceAfter(db, runId, middle, completed);
    CommitTwo(db, db', runId, middle, completed,
              EndedEvent(runId, n + 2, WorkflowRunCompleted, None, RunCompletedPayload, now));
  }

  lemma ChangesOnlyTransitive(a: Db, b: Db, c: Db, runId: string)
    requires ChangesOnly(a, b, runId) && ChangesOnly(b, c, runId)
    ensures ChangesOnly(a, c, runId)
  {
  }

  lemma LastFinishWrites(db: Db, runId: string, i: nat, output: ToolResult, now: Time)
    requires Keyed(db) && runId in db.runs && i < |RowsOf(db.steps, runId)| && db.steps[runId][i].runId == runId
    ensures var db' := FinishRun(FinishStep(db, runId, i, output, now), runId, now);
            var run, events := Projection(db, runId), RowsOf(db.events, runId);
            var completed := OutcomeEvent(run.steps[i], NextSequence(events), StepCompleted, CompletedPayload(output),
                                          now);
            && ChangesOnly(db, db', runId) && db'.throttles == db.throttles
            && Projection(db', runId) == WithStep(run, i, CompletedStep(run.steps[i], output, now)).(
                                           status := RunCompleted, updatedAt := now, completedAt := Some(now))
            && RowsOf(db'.events, runId) == events
                 + [completed, EndedEvent(runId, NextSequence(events + [completed]), WorkflowRunCompleted, None,
                                          RunCompletedPayload, now)]
  {
    var finished := FinishStep(db, runId, i, output, now);
    FinishStepWrites(db, runId, i, output, now);
    FinishRunWrites(finished, runId, now);
    ChangesOnlyTransitive(db, finished, FinishRun(finished, runId, now), runId);
  }

  lemma FinishCommits(db: Db, runId: string, i: nat, output: ToolResult, now: Time)
    requires DbInv(db) && runId in db.runs && db.runs[runId].status.Running?
    requires i < |RowsOf(db.steps, runId)| && db.steps[runId][i].status.IntentRecorded?
    ensures var finished := FinishStep(db, runId, i, output, now);
            var db' := if AllRowsCompleted(finished.steps[runId]) then FinishRun(finished, runId, now) else finished;
            var run, n := Projection(db, runId), |RowsOf(db.events, runId)|;
            var middle := WithStep(run, i, CompletedStep(run.steps[i], output, now));
            var completed := OutcomeEvent(run.steps[i], n + 1, StepCompleted, CompletedPayload(output), now);
            var ended := EndedEvent(runId, n + 2, WorkflowRunCompleted, None, RunCompletedPayload, now);
            && db'.throttles == db.throttles
            && Projection(db', runId) == (if AllStepsCompleted(middle)
                 then middle.(status := RunCompleted, updatedAt := now, completedAt := Some(now)) else middle)
            && Committed(db, db', runId, if AllStepsCompleted(middle) then [completed, ended] else [completed])
  {
    RunFacts(db, runId);
    var finished := FinishStep(db, runId, i, output, now);
    FinishStepWrites(db, runId, i, output, now);
    if AllStepsCompleted(Projection(finished, runId)) {
      LastFinishWrites(db, runId, i, output, now);
      LastCompletionCommits(db, FinishRun(finished, runId, now), runId, i, output, now);
    } else {
      CompletionCommits(db, finished, runId, i, output, now);
    }
  }

  lemma RecordAttemptCommits(db: Db, runId: string, stepId: string, ownerId: Option<string>, fenceToken: Option<int>,
                             leaseNow: Time, now: Time)
    returns (i: nat)
    requires DbInv(db) && runId in db.runs && db.runs[runId].status.Running?
    requires RecordAttempt(db, runId, stepId, ownerId, fenceToken, leaseNow, now).Ok?
    ensures i < |Projection(db, runId).steps| && Projection(db, runId).steps[i].id == stepId
    ensures RunnableStatus(Projection(db, runId).steps[i].status)
    ensures var (db', step) := RecordAttempt(db, runId, stepId, ownerId, fenceToken, leaseNow, now).value;
            var run := Projection(db, runId);
            && db'.throttles == db.throttles && db'.runs == db.runs
            && step == StartedStep(run.steps[i], now)
            && Projection(db', runId) == WithStep(run, i, step)
            && Committed(db, db', runId,
                 [StartedEvent(run.steps[i], |RowsOf(db.events, runId)| + 1, ownerId, fenceToken, now)])
  {
    RunFacts(db, runId);
    i := RecordAttemptWrites(db, runId, stepId, ownerId, fenceToken, leaseNow, now);
    BlockedExactly(runId, db.runs[runId], RowsOf(db.steps, runId), RowsOf(db.dependencies, runId), i);
    StartCommits(db, RecordAttempt(db, runId, stepId, ownerId, fenceToken, leaseNow, now).value.0,
                 runId, i, ownerId, fenceToken, now);
  }

  lemma ScheduleRetryCommits(db: Db, runId: string, stepId: string, error: string, nextAttemptAt: Time,
                             ownerId: Option<string>, fenceToken: Option<int>, throttleTool: bool,
                             leaseNow: Time, now: Time)
    returns (i: nat)
    requires DbInv(db) && runId in db.runs && db.runs[runId].status.Running?
    requires ScheduleRetry(db, runId, stepId, error, nextAttemptAt, ownerId, fenceToken, throttleTool, leaseNow,
                           now).Ok?
    ensures i < |Projection(db, runId).steps| && Projection(db, runId).steps[i].id == stepId
    ensures Projection(db, runId).steps[i].status.IntentRecorded?
    ensures var db' := ScheduleRetry(db, runId, stepId, error, nextAttemptAt, ownerId, fenceToken, throttleTool,
                                     leaseNow, now).value;
            var run := Projection(db, runId);
            && Projection(db', runId) == WithStep(run, i, RetriedStep(run.steps[i], error, nextAttemptAt, now))
            && db'.throttles == Cooldowns(db.throttles, throttleTool, run.steps[i].toolKey, nextAttemptAt, error, now)
            && Committed(db, db', runId,
                 [OutcomeEvent(run.steps[i], |RowsOf(db.events, runId)| + 1, StepRetryScheduled,
                               RetryPayload(error, nextAttemptAt), now)])
  {
    RunFacts(db, runId);
    i := ScheduleRetryWrites(db, runId, stepId, error, nextAttemptAt, ownerId, fenceToken, throttleTool, leaseNow, now);
    RetryCommits(db, ScheduleRetry(db, runId, stepId, error, nextAttemptAt, ownerId, fenceToken, throttleTool,
                                   leaseNow, now).value,
                 runId, i, error, nextAttemptAt, now);
  }

  lemma FailStepCommits(db: Db, runId: string, stepId: string, error: string,
                        ownerId: Option<string>, fenceToken: Option<int>, leaseNow: Time, now: Time)
    returns (i: nat)
    requires DbInv(db) && runId in db.runs && db.runs[runId].status.Running?
    requires FailStep(db, runId, stepId, error, ownerId, fenceToken, leaseNow, now).Ok?
    ensures i < |Projection(db, runId).steps| && Projection(db, runId).steps[i].id == stepId
    ensures Projection(db, runId).steps[i].status.IntentRecorded?
    ensures var db' := FailStep(db, runId, stepId, error, ownerId, fenceToken, leaseNow, now).value;
            var run, n := Projection(db, runId), |RowsOf(db.events, runId)|;
            && db'.throttles == db.throttles
            && Projection(db', runId) ==
                 WithStep(run, i, FailedStepRecord(run.steps[i], error, now)).(status := RunFailed, updatedAt := now)
            && Committed(db, db', runId,
                 [OutcomeEvent(run.steps[i], n + 1, StepFailed, FailedPayload(error), now),
                  EndedEvent(runId, n + 2, WorkflowRunFailed, Some(stepId), RunFailedPayload(stepId, error), now)])
  {
    RunFacts(db, runId);
    i := FailStepWrites(db, runId, stepId, error, ownerId, fenceToken, leaseNow, now);
    FailureCommits(db, FailStep(db, runId, stepId, error, ownerId, fenceToken, leaseNow, now).value, runId, i, error,
                   now);
  }

  /** The completion of the last step also ends the run. */
  lemma CompleteStepCommits(db: Db, runId: string, stepId: string, output: ToolResult,
                            ownerId: Option<string>, fenceToken: Option<int>, leaseNow: Time, now: Time)
    returns (i: nat)
    requires DbInv(db) && runId in db.runs && db.runs[runId].status.Running?
    requires ActiveAttempt(db, runId, stepId, ownerId, fenceToken, leaseNow).Ok?
    ensures ActiveAttempt(db, runId, stepId, ownerId, fenceToken, leaseNow) == Ok(i)
    ensures i < |Projection(db, runId).steps| && Projection(db, runId).steps[i].id == stepId
    ensures Projection(db, runId).steps[i].status.IntentRecorded?
    ensures CompleteStep(db, runId, stepId, output, ownerId, fenceToken, leaseNow, now).Ok?
    ensures var db' := CompleteStep(db, runId, stepId, output, ownerId, fenceToken, leaseNow, now).value;
            var run, n := Projection(db, runId), |RowsOf(db.events, runId)|;
            var middle := WithStep(run, i, CompletedStep(run.steps[i], output, now));
            var completed := OutcomeEvent(run.steps[i], n + 1, StepCompleted, CompletedPayload(output), now);
            var ended := EndedEvent(runId, n + 2, WorkflowRunCompleted, None, RunCompletedPayload, now);
            && db'.throttles == db.throttles
            && Projection(db', runId) == (if AllStepsCompleted(middle)
                 then middle.(status := RunCompleted, updatedAt := now, completedAt := Some(now)) else middle)
            && Committed(db, db', runId, if AllStepsCompleted(middle) then [completed, ended] else [completed])
  {
    RunFacts(db, runId);
    i := ActiveAttempt(db, runId, stepId, ownerId, fenceToken, leaseNow).value;
    FinishCommits(db, runId, i, output, now);
  }
}
