/** Who is served next (storage.py): which steps a claim may take, and that older work is never passed over unless a
    deadline, a cooldown or a lease holds it back. */
module Scheduling {
  import opened Models
  import opened History
  import opened Database
  import opened Refinement
  import opened Transitions
  import opened Protocol
  import opened Execution
  import opened Progress

  /** The step could be worked on if its time had come: its run goes on, it is not finished, and everything that it
      depends on is completed. */
  predicate Ready(run: WorkflowRun, i: nat)
    requires i < |run.steps|
  {
    run.status.Running?
    && (run.steps[i].status.Pending? || run.steps[i].status.IntentRecorded? || run.steps[i].status.RetryWait?)
    && forall d :: d in run.steps[i].dependsOn ==>
         exists h :: 0 <= h < |run.steps| && run.steps[h].id == d && run.steps[h].status.Completed?
  }

  /** At `now` the step waits for its retry deadline, for its tool to cool down, or for the lease on its run. */
  predicate Held(db: Db, now: Time, runId: string, step: StepRecord) {
    (step.nextAttemptAt.Some? && step.nextAttemptAt.value > now)
    || (step.toolKey in db.throttles && db.throttles[step.toolKey].blockedUntil > now)
    || (runId in db.leases && db.leases[runId].expiresAt > now)
  }

  lemma DependenciesDoneExactly(run: WorkflowRun, i: nat)
    requires i < |run.steps|
    ensures DependenciesDone(run, run.steps[i]) <==>
            forall d :: d in run.steps[i].dependsOn ==>
              exists h :: 0 <= h < |run.steps| && run.steps[h].id == d && run.steps[h].status.Completed?
  {
    if DependenciesDone(run, run.steps[i]) {
      forall d | d in run.steps[i].dependsOn
        ensures exists h :: 0 <= h < |run.steps| && run.steps[h].id == d && run.steps[h].status.Completed?
      {
        assert d in CompletedIds(run);
      }
    }
  }

  lemma AdmittedWhenReady(db: Db, now: Time, runId: string, i: nat)
    requires DbInv(db) && runId in db.runs && i < |Projection(db, runId).steps|
    ensures Selectable(db, now, runId, i) <==>
            Ready(Projection(db, runId), i) && !Held(db, now, runId, Projection(db, runId).steps[i])
  {
    RunFacts(db, runId);
    BlockedExactly(runId, db.runs[runId], RowsOf(db.steps, runId), RowsOf(db.dependencies, runId), i);
    DependenciesDoneExactly(Projection(db, runId), i);
  }

  /** In every reachable state the selection query admits exactly the ready steps that nothing holds back. */
  lemma AdmittedExactly(cfg: Config, states: seq<System>, actions: seq<Action>, k: nat, now: Time, runId: string,
                        i: nat)
    requires Protocol.Execution(cfg, states, actions) && k < |states|
    requires runId in states[k].db.runs && i < |Projection(states[k].db, runId).steps|
    ensures Selectable(states[k].db, now, runId, i) <==>
            Ready(Projection(states[k].db, runId), i)
            && !Held(states[k].db, now, runId, Projection(states[k].db, runId).steps[i])
  {
    InvariantHolds(cfg, states, actions, k);
    AdmittedWhenReady(states[k].db, now, runId, i);
  }

  /** A claim takes a step that is ready and not held back, as the readers see it. */
  lemma ClaimTakesReadyStep(cfg: Config, states: seq<System>, actions: seq<Action>, k: nat)
    requires Protocol.Execution(cfg, states, actions) && k < |actions| && actions[k].Claim? && actions[k].pick.Some?
    ensures var db, (runId, i) := states[k].db, actions[k].pick.value;
            runId in db.runs && i < |Projection(db, runId).steps| && Ready(Projection(db, runId), i)
            && !Held(db, actions[k].now, runId, Projection(db, runId).steps[i])
    ensures var worker := WorkerAt(states[k + 1], actions[k].worker);
            worker.Claimed? && worker.lease.runId == actions[k].pick.value.0
            && worker.step == Projection(states[k].db, actions[k].pick.value.0).steps[actions[k].pick.value.1]
  {
    assert Step(cfg, states[k], actions[k], states[k + 1]);
    var (runId, i) := actions[k].pick.value;
    AdmittedExactly(cfg, states, actions, k, actions[k].now, runId, i);
  }

  /** Of two ready steps that nothing holds back, a claim does not take the one of the younger run, nor of two steps of
      one run the one at the higher position. */
  lemma ClaimServesOldest(cfg: Config, states: seq<System>, actions: seq<Action>, k: nat, q: string, j: nat)
    requires Protocol.Execution(cfg, states, actions) && k < |actions| && actions[k].Claim? && actions[k].pick.Some?
    requires q in states[k].db.runs && j < |Projection(states[k].db, q).steps|
    requires Ready(Projection(states[k].db, q), j)
             && !Held(states[k].db, actions[k].now, q, Projection(states[k].db, q).steps[j])
    ensures actions[k].pick.value.0 in states[k].db.runs
    ensures var run, other := Projection(states[k].db, actions[k].pick.value.0), Projection(states[k].db, q);
            run.createdAt <= other.createdAt
            && (run.createdAt == other.createdAt ==> actions[k].pick.value.1 <= j)
  {
    assert Step(cfg, states[k], actions[k], states[k + 1]);
    InvariantHolds(cfg, states, actions, k);
    AdmittedWhenReady(states[k].db, actions[k].now, q, j);
    PositionsAreIndices(states[k].db, q, j);
    PositionsAreIndices(states[k].db, actions[k].pick.value.0, actions[k].pick.value.1);
  }

  lemma PositionsAreIndices(db: Db, runId: string, i: nat)
    requires DbInv(db) && runId in db.runs && i < |RowsOf(db.steps, runId)|
    ensures db.steps[runId][i].position == i && db.runs[runId].createdAt == Projection(db, runId).createdAt
  {
    RunFacts(db, runId);
    assert Projection(db, runId).steps[i].position == i;
  }

  /** A running run that is older than the run of a claim has been overtaken only because every step of it that is
      ready, and there is one, waits for a deadline, a cooldown or the lease. */
  lemma OvertakenOnlyWhenHeld(cfg: Config, states: seq<System>, actions: seq<Action>, k: nat, q: string)
    returns (j: nat)
    requires Protocol.Execution(cfg, states, actions) && k < |actions| && actions[k].Claim? && actions[k].pick.Some?
    requires q in states[k].db.runs && actions[k].pick.value.0 in states[k].db.runs
    requires states[k].db.runs[q].status.Running?
             && states[k].db.runs[q].createdAt < states[k].db.runs[actions[k].pick.value.0].createdAt
    ensures j < |Projection(states[k].db, q).steps| && Ready(Projection(states[k].db, q), j)
    ensures forall h :: 0 <= h < |Projection(states[k].db, q).steps| && Ready(Projection(states[k].db, q), h) ==>
              Held(states[k].db, actions[k].now, q, Projection(states[k].db, q).steps[h])
  {
    InvariantHolds(cfg, states, actions, k);
    RunFacts(states[k].db, q);
    j := RunningHasReadyStep(q, Projection(states[k].db, q));
    DependenciesDoneExactly(Projection(states[k].db, q), j);
    forall h | 0 <= h < |Projection(states[k].db, q).steps| && Ready(Projection(states[k].db, q), h)
      ensures Held(states[k].db, actions[k].now, q, Projection(states[k].db, q).steps[h])
    {
      if !Held(states[k].db, actions[k].now, q, Projection(states[k].db, q).steps[h]) {
        ClaimServesOldest(cfg, states, actions, k, q, h);
      }
    }
  }
}
