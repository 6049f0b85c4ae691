/** The storage calls by themselves, without the engine around them: they do not look at the run's status, so a call
    keeps the history reducible exactly when the run was running. Engine runs never make the other calls, because of
    fencing; a caller that passes no owner at all can. */
module RawCalls {
  import opened Models
  import opened HistoryFacts
  import opened Database
  import opened Refinement
  import opened Transitions

  /** Appending anything to the history of a run that has ended makes the history unacceptable. */
  lemma EndedRunRejects(db: Db, db': Db, runId: string, appended: seq<Event>)
    requires DbInv(db) && runId in db.runs && !db.runs[runId].status.Running? && appended != []
    requires RowsOf(db'.events, runId) == RowsOf(db.events, runId) + appended
    ensures !ProjectionMatchesHistory(db', runId)
  {
    var before, after := RowsOf(db.events, runId), RowsOf(db'.events, runId);
    assert RunInv(db, runId);
    EndedRejects(runId, before, after);
    SequencesContiguous(runId, before);
    assert after[0] == before[0];
  }

  lemma CommittedMatches(db: Db, db': Db, runId: string, appended: seq<Event>)
    requires Committed(db, db', runId, appended)
    ensures ProjectionMatchesHistory(db', runId)
  {
    assert RunInv(db', runId);
    InvariantMatchesHistory(db', runId);
  }

  lemma RecordAttemptMatchesExactly(db: Db, db': Db, step: StepRecord, runId: string, stepId: string,
                                    ownerId: Option<string>, fenceToken: Option<int>, leaseNow: Time, now: Time)
    requires DbInv(db) && runId in db.runs
    requires RecordAttempt(db, runId, stepId, ownerId, fenceToken, leaseNow, now) == Ok((db', step))
    ensures ProjectionMatchesHistory(db', runId) <==> db.runs[runId].status.Running?
  {
    RunFacts(db, runId);
    if db.runs[runId].status.Running? {
      var i := RecordAttemptCommits(db, runId, stepId, ownerId, fenceToken, leaseNow, now);
      CommittedMatches(db, db', runId,
                       [StartedEvent(Projection(db, runId).steps[i], |RowsOf(db.events, runId)| + 1,
                                      ownerId, fenceToken, now)]);
    } else {
      var i := RecordAttemptWrites(db, runId, stepId, ownerId, fenceToken, leaseNow, now);
      EndedRunRejects(db, db', runId,
                      [StartedEvent(Projection(db, runId).steps[i], |RowsOf(db.events, runId)| + 1,
                                      ownerId, fenceToken, now)]);
    }
  }

  lemma ScheduleRetryMatchesExactly(db: Db, db': Db, runId: string, stepId: string, error: string, nextAttemptAt: Time,
                                    ownerId: Option<string>, fenceToken: Option<int>, throttleTool: bool,
                                    leaseNow: Time, now: Time)
    requires DbInv(db) && runId in db.runs
    requires ScheduleRetry(db, runId, stepId, error, nextAttemptAt, ownerId, fenceToken, throttleTool, leaseNow,
                           now) == Ok(db')
    ensures ProjectionMatchesHistory(db', runId) <==> db.runs[runId].status.Running?
  {
    RunFacts(db, runId);
    var n := |RowsOf(db.events, runId)|;
    if db.runs[runId].status.Running? {
      var i := ScheduleRetryCommits(db, runId, stepId, error, nextAttemptAt, ownerId, fenceToken, throttleTool,
                                    leaseNow, now);
      CommittedMatches(db, db', runId,
                       [OutcomeEvent(Projection(db, runId).steps[i], n + 1, StepRetryScheduled,
                                      RetryPayload(error, nextAttemptAt), now)]);
    } else {
      var i := ScheduleRetryWrites(db, runId, stepId, error, nextAttemptAt, ownerId, fenceToken, throttleTool,
                                   leaseNow, now);
      EndedRunRejects(db, db', runId,
                      [OutcomeEvent(Projection(db, runId).steps[i], n + 1, StepRetryScheduled,
                                      RetryPayload(error, nextAttemptAt), now)]);
    }
  }

  lemma FailStepMatchesExactly(db: Db, db': Db, runId: string, stepId: string, error: string,
                               ownerId: Option<string>, fenceToken: Option<int>, leaseNow: Time, now: Time)
    requires DbInv(db) && runId in db.runs
    requires FailStep(db, runId, stepId, error, ownerId, fenceToken, leaseNow, now) == Ok(db')
    ensures ProjectionMatchesHistory(db', runId) <==> db.runs[runId].status.Running?
  {
    RunFacts(db, runId);
    var events := RowsOf(db.events, runId);
    if db.runs[runId].status.Running? {
      var i := FailStepCommits(db, runId, stepId, error, ownerId, fenceToken, leaseNow, now);
      CommittedMatches(db, db', runId,
                       [OutcomeEvent(Projection(db, runId).steps[i], |events| + 1,
                                     StepFailed, FailedPayload(error), now),
                        EndedEvent(runId, |events| + 2, WorkflowRunFailed, Some(stepId),
                                   RunFailedPayload(stepId, error), now)]);
    } else {
      var i := FailStepWrites(db, runId, stepId, error, ownerId, fenceToken, leaseNow, now);
      var failed := OutcomeEvent(Projection(db, runId).steps[i], NextSequence(events), StepFailed,
                                 FailedPayload(error), now);
      EndedRunRejects(db, db', runId, [failed, EndedEvent(runId, NextSequence(events + [failed]), WorkflowRunFailed,
                                   Some(stepId), RunFailedPayload(stepId, error), now)]);
    }
  }

  /** Completing keeps the history reducible exactly when the run is running or nothing was active to complete. */
  lemma CompleteStepMatchesExactly(db: Db, db': Db, runId: string, stepId: string, output: ToolResult,
                                   ownerId: Option<string>, fenceToken: Option<int>, leaseNow: Time, now: Time)
    requires DbInv(db) && runId in db.runs
    requires CompleteStep(db, runId, stepId, output, ownerId, fenceToken, leaseNow, now) == Ok(db')
    ensures ProjectionMatchesHistory(db', runId) <==>
            db.runs[runId].status.Running? || ActiveAttempt(db, runId, stepId, ownerId, fenceToken, leaseNow).Err?
  {
    RunFacts(db, runId);
    var active := ActiveAttempt(db, runId, stepId, ownerId, fenceToken, leaseNow);
    if active.Err? {
      InvariantMatchesHistory(db, runId);
    } else if db.runs[runId].status.Running? {
      var i := CompleteStepCommits(db, runId, stepId, output, ownerId, fenceToken, leaseNow, now);
      assert RunInv(db', runId);
      InvariantMatchesHistory(db', runId);
    } else {
      LateFinishRejects(db, db', runId, active.value, output, now);
    }
  }

  /** A step that is completed after the run has ended. */
  lemma LateFinishRejects(db: Db, db': Db, runId: string, i: nat, output: ToolResult, now: Time)
    requires DbInv(db) && runId in db.runs && !db.runs[runId].status.Running? && i < |RowsOf(db.steps, runId)|
    requires db' == FinishStep(db, runId, i, output, now)
             || db' == FinishRun(FinishStep(db, runId, i, output, now), runId, now)
    ensures !ProjectionMatchesHistory(db', runId)
  {
    RunFacts(db, runId);
    var completed := OutcomeEvent(Projection(db, runId).steps[i], NextSequence(RowsOf(db.events, runId)),
                                  StepCompleted, CompletedPayload(output), now);
    if db' == FinishStep(db, runId, i, output, now) {
      FinishStepWrites(db, runId, i, output, now);
      EndedRunRejects(db, db', runId, [completed]);
    } else {
      LastFinishWrites(db, runId, i, output, now);
      EndedRunRejects(db, db', runId,
        [completed, EndedEvent(runId, NextSequence(RowsOf(db.events, runId) + [completed]), WorkflowRunCompleted, None,
                               RunCompletedPayload, now)]);
    }
  }

  // ----- which calls succeed -----

  /** The caller claims no ownership at all, or owns the run by an unexpired lease. */
  predicate Allows(db: Db, runId: string, ownerId: Option<string>, fenceToken: Option<int>, now: Time) {
    (ownerId.None? && fenceToken.None?)
    || (ownerId.Some? && fenceToken.Some? && runId in db.leases && db.leases[runId].ownerId == ownerId.value
        && db.leases[runId].fenceToken == fenceToken.value && db.leases[runId].expiresAt > now)
  }

  /** Step `i` of the run has this ID. */
  predicate Names(db: Db, runId: string, stepId: string, i: nat) {
    runId in db.runs && i < |Projection(db, runId).steps| && Projection(db, runId).steps[i].id == stepId
  }

  /** What a refused call complains about: first the step, then the ownership, then the lease. */
  predicate Complains(error: StorageError, db: Db, runId: string, ownerId: Option<string>, fenceToken: Option<int>,
                      now: Time, last: StorageError)
  {
    error == if ownerId.None? != fenceToken.None? then OwnershipIncomplete
             else if !Allows(db, runId, ownerId, fenceToken, now) then LeaseLost else last
  }

  lemma NamedRow(db: Db, runId: string, stepId: string) returns (i: nat)
    requires DbInv(db)
    ensures RowIndex(RowsOf(db.steps, runId), stepId).Some? ==>
              Names(db, runId, stepId, i) && RowIndex(RowsOf(db.steps, runId), stepId) == Some(i)
              && Projection(db, runId).steps[i].status == db.steps[runId][i].status
              && (Blocked(RowsOf(db.steps, runId), RowsOf(db.dependencies, runId), stepId) <==>
                    !DependenciesDone(Projection(db, runId), Projection(db, runId).steps[i]))
    ensures RowIndex(RowsOf(db.steps, runId), stepId).None? ==> forall j: nat :: !Names(db, runId, stepId, j)
  {
    var index := RowIndex(RowsOf(db.steps, runId), stepId);
    i := 0;
    if index.Some? {
      i := index.value;
      RunFacts(db, runId);
      BlockedExactly(runId, db.runs[runId], RowsOf(db.steps, runId), RowsOf(db.dependencies, runId), i);
    } else {
      forall j: nat ensures !Names(db, runId, stepId, j) {
        if runId in db.runs && j < |Projection(db, runId).steps| {
          assert Projection(db, runId).steps[j].id == RowsOf(db.steps, runId)[j].id;
        }
      }
    }
  }

  /** Recording succeeds exactly for a known, runnable step whose dependencies are completed, by a caller who is allowed
      to; otherwise the first complaint is returned. */
  lemma RecordAttemptSucceedsExactly(db: Db, runId: string, stepId: string, ownerId: Option<string>,
                                     fenceToken: Option<int>, leaseNow: Time, now: Time)
    returns (i: nat)
    requires DbInv(db)
    ensures var result := RecordAttempt(db, runId, stepId, ownerId, fenceToken, leaseNow, now);
            if !Names(db, runId, stepId, i)
            then (forall j: nat :: !Names(db, runId, stepId, j)) && result == Err(StepMissing)
            else
              var step := Projection(db, runId).steps[i];
              var ready := RunnableStatus(step.status) && DependenciesDone(Projection(db, runId), step);
              && (result.Ok? <==> Allows(db, runId, ownerId, fenceToken, leaseNow) && ready)
              && (result.Err? ==> Complains(result.error, db, runId, ownerId, fenceToken, leaseNow,
                                            if RunnableStatus(step.status) then DependenciesBlocked
                                            else StepNotRunnable))
  {
    i := NamedRow(db, runId, stepId);
  }

  /** An outcome is accepted exactly for a known step with an open attempt, by a caller who is allowed to; completing a
      known step without one is accepted too and changes nothing. */
  lemma OutcomeSucceedsExactly(db: Db, runId: string, stepId: string, error: string, deadline: Time, throttleTool: bool,
                               output: ToolResult, ownerId: Option<string>, fenceToken: Option<int>, leaseNow: Time,
                               now: Time)
    returns (i: nat)
    requires DbInv(db)
    ensures var retried := ScheduleRetry(db, runId, stepId, error, deadline, ownerId, fenceToken, throttleTool,
                                         leaseNow, now);
            var failed := FailStep(db, runId, stepId, error, ownerId, fenceToken, leaseNow, now);
            var completed := CompleteStep(db, runId, stepId, output, ownerId, fenceToken, leaseNow, now);
            if !Names(db, runId, stepId, i)
            then (forall j: nat :: !Names(db, runId, stepId, j))
                 && retried == Err(StepMissing) && failed == Err(StepMissing) && completed == Err(StepMissing)
            else
              var open := Projection(db, runId).steps[i].status.IntentRecorded?;
              var allowed := Allows(db, runId, ownerId, fenceToken, leaseNow);
              && (retried.Ok? <==> allowed && open) && (failed.Ok? <==> allowed && open) && (completed.Ok? <==> allowed)
              && (allowed && !open ==> completed == Ok(db))
              && (retried.Err? ==>
                    Complains(retried.error, db, runId, ownerId, fenceToken, leaseNow, NoActiveAttempt))
              && (failed.Err? ==> failed.error == retried.error)
              && (completed.Err? ==> completed.error == retried.error)
  {
    i := NamedRow(db, runId, stepId);
    var active := ActiveAttempt(db, runId, stepId, ownerId, fenceToken, leaseNow);
  }
}
