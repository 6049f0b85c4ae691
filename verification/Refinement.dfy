/** Every committed transition keeps the projection equal to the reduced history of its run. */
module Refinement {
  import opened Models
  import opened Graph
  import opened History
  import opened HistoryFacts
  import opened Database

  // ----- invariants of one run -----

  predicate DependenciesDone(run: WorkflowRun, step: StepRecord) {
    (set d | d in step.dependsOn) <= CompletedIds(run)
  }

  /** What the engine keeps about one step beyond what the reducer checks. */
  ghost predicate StepSound(run: WorkflowRun, step: StepRecord) {
    IsStepId(step.id) && RequestMatches(step.operation, step.request)
    && (step.status.IntentRecorded? ==> step.nextAttemptAt.None?)
    && (step.status.Completed? ==> step.output.Some?)
    && (if step.status.Pending? then step.attempts == 0 else step.attempts >= 1)
    && (step.attempts >= 1 ==> DependenciesDone(run, step))
  }

  ghost predicate StatusExact(run: WorkflowRun) {
    (run.status.RunCompleted? <==> AllStepsCompleted(run))
    && (run.status.RunFailed? <==> SomeStepFailed(run))
    && (forall i, j :: 0 <= i < j < |run.steps| && run.steps[i].status.Failed? ==> !run.steps[j].status.Failed?)
  }

  ghost predicate Sound(run: WorkflowRun) {
    StatusExact(run) && forall i :: 0 <= i < |run.steps| ==> StepSound(run, run.steps[i])
  }

  ghost predicate RunInv(db: Db, runId: string) {
    runId in db.runs && IsRunId(runId)
    && Replay(runId, RowsOf(db.events, runId)) == Ok(Some(Projection(db, runId)))
    && Sound(Projection(db, runId))
  }

  ghost predicate DbInv(db: Db) {
    db.steps.Keys == db.runs.Keys && db.dependencies.Keys == db.runs.Keys && db.events.Keys == db.runs.Keys
    && db.leases.Keys <= db.runs.Keys
    && forall r {:trigger RunInv(db, r)} :: r in db.runs ==> RunInv(db, r)
  }

  /** The history of the run reduces, and to exactly the projected run. */
  ghost predicate ProjectionMatchesHistory(db: Db, runId: string) {
    runId in db.runs && Reduce(RowsOf(db.events, runId)) == Ok(Projection(db, runId))
  }

  lemma InvariantMatchesHistory(db: Db, runId: string)
    requires RunInv(db, runId)
    ensures ProjectionMatchesHistory(db, runId)
  {
    var events := RowsOf(db.events, runId);
    ReplayShaped(runId, events);
    FirstEventNamesRun(runId, events);
  }

  lemma {:induction false} FirstEventNamesRun(runId: string, events: seq<Event>)
    requires events != [] && Replay(runId, events).Ok?
    ensures events[0].runId == runId
  {
    if |events| > 1 {
      PrefixAccepted(runId, events, |events| - 1);
      FirstEventNamesRun(runId, events[..|events| - 1]);
    }
  }

  // ----- sequence numbers -----

  lemma {:induction false} SequencesContiguous(runId: string, events: seq<Event>)
    requires Replay(runId, events).Ok?
    ensures forall k :: 0 <= k < |events| ==> events[k].sequence == k + 1 && events[k].runId == runId
  {
    if events != [] {
      var n := |events| - 1;
      PrefixAccepted(runId, events, n);
      SequencesContiguous(runId, events[..n]);
      forall k | 0 <= k < n ensures events[k].sequence == k + 1 && events[k].runId == runId {
        assert events[..n][k] == events[k];
      }
    }
  }

  lemma {:induction false} MaxSequenceIsLast(events: seq<Event>)
    requires events != [] && forall k :: 0 <= k < |events| ==> events[k].sequence == k + 1
    ensures MaxSequence(events) == |events|
  {
    if |events| > 1 {
      MaxSequenceIsLast(events[..|events| - 1]);
    }
  }

  /** The sequence number an appended event gets is the one the reducer expects next. */
  lemma NextSequenceExpected(runId: string, events: seq<Event>)
    requires Replay(runId, events).Ok?
    ensures NextSequence(events) == |events| + 1
  {
    SequencesContiguous(runId, events);
    if events != [] {
      MaxSequenceIsLast(events);
    }
  }

  // ----- rows and records -----

  lemma {:induction false} RegroupMember(edges: seq<DependencyRow>, stepId: string, d: string)
    ensures d in Regroup(edges, stepId) <==> exists e :: 0 <= e < |edges| && edges[e] == DependencyRow(stepId, d)
  {
    if edges != [] {
      var n := |edges| - 1;
      RegroupMember(edges[..n], stepId, d);
      if e :| 0 <= e < |edges| && edges[e] == DependencyRow(stepId, d) {
        assert e < n ==> edges[..n][e] == edges[e];
      }
    }
  }

  /** The join that looks for incomplete dependencies agrees with the reducer's subset test. */
  lemma BlockedExactly(runId: string, run: RunRow, rows: seq<StepRow>, edges: seq<DependencyRow>, i: nat)
    requires Shaped(runId, RunFromRows(run, rows, edges)) && i < |rows|
    ensures Blocked(rows, edges, rows[i].id) <==>
            !DependenciesDone(RunFromRows(run, rows, edges), RunFromRows(run, rows, edges).steps[i])
  {
    var projected := RunFromRows(run, rows, edges);
    var step := projected.steps[i];
    if Blocked(rows, edges, step.id) {
      var e, r :| 0 <= e < |edges| && 0 <= r < |rows| && edges[e].stepId == step.id
                  && rows[r].id == edges[e].dependencyId && !rows[r].status.Completed?;
      RegroupMember(edges, step.id, rows[r].id);
      assert rows[r].id in set d | d in step.dependsOn;
      if rows[r].id in CompletedIds(projected) {
        var k :| 0 <= k < |rows| && projected.steps[k].status.Completed? && projected.steps[k].id == rows[r].id;
        StepIdsUnique(runId, projected, k, r);
      }
    }
    if !DependenciesDone(projected, step) {
      var d :| d in step.dependsOn && d !in CompletedIds(projected);
      RegroupMember(edges, step.id, d);
      var r := DependencyStep(runId, projected, i, d);
      assert projected.steps[r].id == rows[r].id;
    }
  }

  /** A declared dependency is a step of the run. */
  lemma DependencyStep(runId: string, run: WorkflowRun, i: nat, d: string) returns (r: nat)
    requires Shaped(runId, run) && i < |run.steps| && d in run.steps[i].dependsOn
    ensures r < |run.steps| && run.steps[r].id == d
  {
    assert StepError(RunNodes(run), RunNodes(run)[i]).None?;
    assert Known(RunNodes(run), d);
    r :| 0 <= r < |run.steps| && RunNodes(run)[r].id == d;
  }

  lemma RowIndexMatches(run: RunRow, rows: seq<StepRow>, edges: seq<DependencyRow>, id: string)
    requires RowIndex(rows, id).Some?
    ensures StepIndex(RunFromRows(run, rows, edges).steps, id) == RowIndex(rows, id)
  {
    var steps := RunFromRows(run, rows, edges).steps;
    var i, found := RowIndex(rows, id).value, StepIndex(steps, id);
    assert steps[i].id == id;
    assert rows[found.value].id == steps[found.value].id;
    assert steps[i].id == rows[i].id;
  }

  lemma ProjectionAfterSetStep(run: RunRow, rows: seq<StepRow>, edges: seq<DependencyRow>, i: nat, row: StepRow)
    requires i < |rows| && row.id == rows[i].id
    ensures RunFromRows(run, rows[i := row], edges) ==
            RunFromRows(run, rows, edges).(
              steps := RunFromRows(run, rows, edges).steps[i := StepFromRow(row, Regroup(edges, row.id))])
  {
    assert RunFromRows(run, rows[i := row], edges).steps ==
           RunFromRows(run, rows, edges).steps[i := StepFromRow(row, Regroup(edges, row.id))];
  }

  // ----- soundness of a run is kept by the events the engine appends -----

  lemma CompletedIdsGrow(before: WorkflowRun, after: WorkflowRun)
    requires Extends(before, after)
    ensures CompletedIds(before) <= CompletedIds(after)
  {
    forall id | id in CompletedIds(before) ensures id in CompletedIds(after) {
      var i :| 0 <= i < |before.steps| && before.steps[i].status.Completed? && before.steps[i].id == id;
      assert after.steps[i] == before.steps[i];
    }
  }

  /** Replacing one step of a running run keeps every step sound when the new step is. */
  lemma StepsStaySound(before: WorkflowRun, after: WorkflowRun, i: nat)
    requires Sound(before) && Extends(before, after) && i < |before.steps|
    requires after.steps == before.steps[i := after.steps[i]]
    requires StepSound(after, after.steps[i])
    ensures forall j :: 0 <= j < |after.steps| ==> StepSound(after, after.steps[j])
  {
    CompletedIdsGrow(before, after);
    forall j | 0 <= j < |after.steps| ensures StepSound(after, after.steps[j]) {
      assert StepSound(before, before.steps[j]);
      assert after.steps[j] == if j == i then after.steps[i] else before.steps[j];
    }
  }

  /** Runs other than `runId` are untouched. */
  ghost predicate OthersUntouched(db: Db, db': Db, runId: string) {
    forall r :: r != runId ==>
      (r in db'.runs <==> r in db.runs) && (r in db.runs ==>
        db'.runs[r] == db.runs[r] && RowsOf(db'.steps, r) == RowsOf(db.steps, r)
        && RowsOf(db'.dependencies, r) == RowsOf(db.dependencies, r) && RowsOf(db'.events, r) == RowsOf(db.events, r))
  }

  lemma UntouchedRunInv(db: Db, db': Db, runId: string, r: string)
    requires OthersUntouched(db, db', runId) && r != runId && RunInv(db, r)
    ensures RunInv(db', r) && Projection(db', r) == Projection(db, r)
  {
  }

  /** The history of one run grew by `appended` and its projection moved on; nothing else changed. */
  ghost predicate MovedOn(db: Db, db': Db, runId: string, appended: seq<Event>) {
    runId in db.runs && runId in db'.runs
    && db'.runs.Keys == db.runs.Keys && db'.leases == db.leases
    && OthersUntouched(db, db', runId)
    && RowsOf(db'.events, runId) == RowsOf(db.events, runId) + appended
    && Extends(Projection(db, runId), Projection(db', runId))
  }

  /** The committed result of a transition: the run moved on, and every history still reduces to its projection. */
  ghost predicate Committed(db: Db, db': Db, runId: string, appended: seq<Event>) {
    DbInv(db') && MovedOn(db, db', runId, appended)
  }

  /** `db'` differs from `db` in the rows and events of one existing run only. */
  ghost predicate ChangesOnly(db: Db, db': Db, runId: string) {
    runId in db.runs && OthersUntouched(db, db', runId)
    && db'.runs.Keys == db.runs.Keys && db'.steps.Keys == db.runs.Keys
    && db'.dependencies.Keys == db.runs.Keys && db'.events.Keys == db.runs.Keys && db'.leases == db.leases
  }

  lemma RestoreInvariant(db: Db, db': Db, runId: string)
    requires DbInv(db) && ChangesOnly(db, db', runId) && RunInv(db', runId)
    ensures DbInv(db')
  {
    forall r | r in db'.runs ensures RunInv(db', r) {
      if r != runId {
        assert RunInv(db, r);
        UntouchedRunInv(db, db', runId, r);
      }
    }
  }

  lemma CommitOne(db: Db, db': Db, runId: string, event: Event)
    requires DbInv(db) && ChangesOnly(db, db', runId)
    requires RowsOf(db'.events, runId) == RowsOf(db.events, runId) + [event]
    requires ApplyEvent(runId, Some(Projection(db, runId)), |RowsOf(db.events, runId)| + 1,
                        event) == Ok(Projection(db', runId))
    requires Sound(Projection(db', runId))
    ensures Committed(db, db', runId, [event])
  {
    var events := RowsOf(db.events, runId);
    assert RunInv(db, runId);
    ReplayAppend(runId, events, event);
    ApplyExtends(runId, Projection(db, runId), |events| + 1, event);
    RestoreInvariant(db, db', runId);
  }

  lemma ReplayAppendTwo(runId: string, events: seq<Event>, run: WorkflowRun, middle: WorkflowRun, last: WorkflowRun,
                        first: Event, second: Event)
    requires Replay(runId, events) == Ok(Some(run))
    requires ApplyEvent(runId, Some(run), |events| + 1, first) == Ok(middle)
    requires ApplyEvent(runId, Some(middle), |events| + 2, second) == Ok(last)
    ensures Replay(runId, events + [first, second]) == Ok(Some(last))
    ensures Extends(run, last)
  {
    ReplayAppend(runId, events, first);
    ReplayAppend(runId, events + [first], second);
    assert events + [first] + [second] == events + [first, second];
    ApplyExtends(runId, run, |events| + 1, first);
    ApplyExtends(runId, middle, |events| + 2, second);
    ExtendsTransitive(run, middle, last);
  }

  lemma CommitTwo(db: Db, db': Db, runId: string, middle: WorkflowRun, first: Event, second: Event)
    requires DbInv(db) && ChangesOnly(db, db', runId)
    requires RowsOf(db'.events, runId) == RowsOf(db.events, runId) + [first, second]
    requires ApplyEvent(runId, Some(Projection(db, runId)), |RowsOf(db.events, runId)| + 1, first) == Ok(middle)
    requires ApplyEvent(runId, Some(middle), |RowsOf(db.events, runId)| + 2, second) == Ok(Projection(db', runId))
    requires Sound(Projection(db', runId))
    ensures Committed(db, db', runId, [first, second])
  {
    var events := RowsOf(db.events, runId);
    assert RunInv(db, runId);
    ReplayAppendTwo(runId, events, Projection(db, runId), middle, Projection(db', runId), first, second);
    RestoreInvariant(db, db', runId);
  }
}
