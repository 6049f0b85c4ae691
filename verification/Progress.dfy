/** Progress: a running run always has a step to offer, and the work spent on it is bounded. */
module Progress {
  import opened Models
  import opened Graph
  import opened History
  import opened HistoryFacts
  import opened Database
  import opened Refinement
  import opened Transitions
  import opened Counting
  import opened Gateway
  import opened Protocol
  import opened Invariant
  import opened Preservation
  import opened CommitPreservation
  import opened Execution
  import opened Safety

  // ----- never stuck -----

  function Later(a: Time, b: Time): Time {
    if a >= b then a else b
  }

  /** At `now` neither a retry deadline, nor the cooldown of the row's tool, nor a lease holds the row back. */
  predicate Due(db: Db, now: Time, runId: string, row: StepRow) {
    (row.nextAttemptAt.Some? ==> row.nextAttemptAt.value <= now)
    && (row.toolKey in db.throttles ==> db.throttles[row.toolKey].blockedUntil <= now)
    && (runId in db.leases ==> db.leases[runId].expiresAt <= now)
  }

  /** The row is due from this moment on. */
  function ReadyAt(db: Db, runId: string, row: StepRow): (ready: Time)
    ensures forall now :: now >= ready ==> Due(db, now, runId, row)
  {
    var deadline := if row.nextAttemptAt.Some? then row.nextAttemptAt.value else 0;
    var cooldown := if row.toolKey in db.throttles then db.throttles[row.toolKey].blockedUntil else 0;
    var lease := if runId in db.leases then db.leases[runId].expiresAt else 0;
    Later(deadline, Later(cooldown, lease))
  }

  /** A sound running run has a runnable step whose dependencies are all completed. */
  lemma RunningHasReadyStep(runId: string, run: WorkflowRun) returns (i: nat)
    requires Shaped(runId, run) && StatusExact(run) && run.status.Running?
    ensures i < |run.steps| && RunnableStatus(run.steps[i].status) && DependenciesDone(run, run.steps[i])
  {
    var nodes, done := RunNodes(run), CompletedIds(run);
    var n :| 0 <= n < |run.steps| && !run.steps[n].status.Completed?;
    if nodes[n].id in done {
      var m :| 0 <= m < |run.steps| && run.steps[m].status.Completed? && run.steps[m].id == run.steps[n].id;
      StepIdsUnique(runId, run, m, n);
    }
    i := AcyclicHasReadyStep(nodes, done);
    assert run.steps[i].id == nodes[i].id;
    assert !SomeStepFailed(run);
  }

  /** In every reachable state a running run has a step that the selection query admits exactly when it is due:
      nothing but its retry deadline, its tool's cooldown and the run's lease can hold it back. */
  lemma NeverStuck(cfg: Config, states: seq<System>, actions: seq<Action>, k: nat, runId: string) returns (i: nat)
    requires Protocol.Execution(cfg, states, actions) && k < |states|
    requires runId in states[k].db.runs && states[k].db.runs[runId].status.Running?
    ensures i < |RowsOf(states[k].db.steps, runId)|
    ensures forall now ::
              Selectable(states[k].db, now, runId, i) <==>
              Due(states[k].db, now, runId, RowsOf(states[k].db.steps, runId)[i])
  {
    InvariantHolds(cfg, states, actions, k);
    i := ReadyRow(states[k].db, runId);
  }

  lemma ReadyRow(db: Db, runId: string) returns (i: nat)
    requires DbInv(db) && runId in db.runs && db.runs[runId].status.Running?
    ensures i < |RowsOf(db.steps, runId)|
    ensures forall now :: Selectable(db, now, runId, i) <==> Due(db, now, runId, RowsOf(db.steps, runId)[i])
  {
    RunFacts(db, runId);
    i := RunningHasReadyStep(runId, Projection(db, runId));
    BlockedExactly(runId, db.runs[runId], RowsOf(db.steps, runId), RowsOf(db.dependencies, runId), i);
    assert Projection(db, runId).steps[i].status == db.steps[runId][i].status;
  }

  lemma {:induction false} FirstCandidate(db: Db, now: Time,
                                          candidates: set<(string, nat)>) returns (first: (string, nat))
    requires candidates != {} && forall c :: c in candidates ==> Selectable(db, now, c.0, c.1)
    ensures first in candidates && Selectable(db, now, first.0, first.1)
    ensures forall c :: c in candidates ==> Selectable(db, now, c.0, c.1) && NoLater(db, first.0, first.1, c.0, c.1)
    decreases |candidates|
  {
    var c :| c in candidates;
    var rest := candidates - {c};
    assert candidates == rest + {c};
    if rest == {} {
      first := c;
    } else {
      var other := FirstCandidate(db, now, rest);
      first := if NoLater(db, c.0, c.1, other.0, other.1) then c else other;
      forall d | d in candidates ensures Selectable(db, now, d.0, d.1) && NoLater(db, first.0, first.1, d.0, d.1) {
        assert d != c ==> d in rest;
      }
    }
  }

  /** Whenever some row is admitted, the query has a first row to return, so an idle worker's claim succeeds. */
  lemma SomeRowSelected(db: Db, now: Time, runId: string, i: nat) returns (first: (string, nat))
    requires Selectable(db, now, runId, i)
    ensures Selected(db, now, first.0, first.1)
  {
    var candidates :=
      set r, j: nat | r in db.runs && 0 <= j < |RowsOf(db.steps, r)| && Selectable(db, now, r, j) :: (r, j);
    assert (runId, i) in candidates;
    first := FirstCandidate(db, now, candidates);
    forall r: string, j: nat | Selectable(db, now, r, j) ensures NoLater(db, first.0, first.1, r, j) {
      assert (r, j) in candidates;
    }
  }

  /** While a run is running, an idle worker that looks late enough always gets a claim. */
  lemma IdleWorkerCanClaim(cfg: Config, states: seq<System>, actions: seq<Action>, k: nat, runId: string, w: nat,
                           ownerId: string, ttl: Time) returns (ready: Time)
    requires Protocol.Execution(cfg, states, actions) && k < |states| && WorkerAt(states[k], w).Idle?
    requires runId in states[k].db.runs && states[k].db.runs[runId].status.Running?
    ensures forall now :: now >= ready ==> CanClaim(states[k], w, ownerId, ttl, now)
  {
    var i := NeverStuck(cfg, states, actions, k, runId);
    ready := ReadyAt(states[k].db, runId, RowsOf(states[k].db.steps, runId)[i]);
    forall now | now >= ready ensures CanClaim(states[k], w, ownerId, ttl, now) {
      var first := SomeRowSelected(states[k].db, now, runId, i);
      assert Enabled(states[k], Claim(w, ownerId, ttl, now, Some(first)));
    }
  }

  ghost predicate CanClaim(s: System, w: nat, ownerId: string, ttl: Time, now: Time) {
    exists pick :: Enabled(s, Claim(w, ownerId, ttl, now, Some(pick)))
  }

  // ----- bounded outcomes -----

  function Max(a: int, b: int): int {
    if a >= b then a else b
  }

  function IsRetryOf(stepId: string): Event -> bool {
    (event: Event) => event.eventType == StepRetryScheduled && event.stepId == Some(stepId)
  }

  function AttemptOf(): Event -> int {
    (event: Event) => if event.attempt.Some? then event.attempt.value else 0
  }

  lemma {:induction false} RetriesCounted(events: seq<Event>, stepId: string)
    ensures CountType(events, StepRetryScheduled, stepId) == Count(events, IsRetryOf(stepId))
  {
    if events != [] {
      RetriesCounted(events[..|events| - 1], stepId);
    }
  }

  lemma {:induction false} ClosedOnceAtLeast(events: seq<Event>, k: nat, stepId: string, attempt: int)
    requires k < |events| && Closes(events[k], stepId, attempt)
    ensures Outcomes(events, stepId, attempt) >= 1
  {
    var n := |events| - 1;
    if k < n {
      assert events[..n][k] == events[k];
      ClosedOnceAtLeast(events[..n], k, stepId, attempt);
    }
  }

  lemma {:induction false} ClosedTwice(events: seq<Event>, j: nat, k: nat, stepId: string, attempt: int)
    requires j < k < |events| && Closes(events[j], stepId, attempt) && Closes(events[k], stepId, attempt)
    ensures Outcomes(events, stepId, attempt) >= 2
  {
    var n := |events| - 1;
    assert events[..n][j] == events[j];
    if k < n {
      assert events[..n][k] == events[k];
      ClosedTwice(events[..n], j, k, stepId, attempt);
    } else {
      ClosedOnceAtLeast(events[..n], j, stepId, attempt);
    }
  }

  lemma {:induction false} IntervalSize(s: set<int>, n: nat)
    requires forall x :: x in s ==> 1 <= x <= n
    ensures |s| <= n
  {
    if n == 0 {
      assert forall x :: x !in s;
    } else {
      IntervalSize(s - {n}, n - 1);
    }
  }

  /** The retries of one step, as the log records them, stay below the attempt limit. */
  lemma RetryWithinBudget(cfg: Config, db: Db, retries: seq<RetryEntry>, runId: string, k: nat)
    requires DbInv(db) && RetriesInv(cfg, db, retries) && runId in db.runs && k < |RowsOf(db.events, runId)|
    requires RowsOf(db.events, runId)[k].eventType.StepRetryScheduled?
    ensures RowsOf(db.events, runId)[k].attempt.Some?
            && 1 <= RowsOf(db.events, runId)[k].attempt.value < cfg.settings.maxAttempts
  {
    assert Covered(db, retries, runId, k);
    var e :| 0 <= e < |retries| && retries[e].runId == runId && retries[e].sequence == k + 1;
    assert Logged(db, retries[e]);
  }

  lemma RetriesBounded(cfg: Config, db: Db, retries: seq<RetryEntry>, runId: string, i: nat)
    requires DbInv(db) && RetriesInv(cfg, db, retries) && runId in db.runs && i < |Projection(db, runId).steps|
    ensures CountType(RowsOf(db.events, runId), StepRetryScheduled, Projection(db, runId).steps[i].id)
            <= Max(0, cfg.settings.maxAttempts - 1)
  {
    var events, id := RowsOf(db.events, runId), Projection(db, runId).steps[i].id;
    assert RunInv(db, runId);
    ReplayBooked(runId, events);
    assert StepBooked(events, Projection(db, runId).steps[i]);
    forall j, k | 0 <= j < k < |events| && IsRetryOf(id)(events[j]) && IsRetryOf(id)(events[k])
      ensures AttemptOf()(events[j]) != AttemptOf()(events[k])
    {
      RetryWithinBudget(cfg, db, retries, runId, j);
      RetryWithinBudget(cfg, db, retries, runId, k);
      if events[j].attempt == events[k].attempt {
        ClosedTwice(events, j, k, id, events[j].attempt.value);
      }
    }
    RetriesCounted(events, id);
    CountIsKeyCount(events, IsRetryOf(id), AttemptOf());
    var attempts := KeySet(events, IsRetryOf(id), AttemptOf());
    forall x | x in attempts ensures 1 <= x <= Max(0, cfg.settings.maxAttempts - 1) {
      KeySetMember(events, IsRetryOf(id), AttemptOf(), x);
      var k :| 0 <= k < |events| && IsRetryOf(id)(events[k]) && AttemptOf()(events[k]) == x;
      RetryWithinBudget(cfg, db, retries, runId, k);
    }
    IntervalSize(attempts, Max(0, cfg.settings.maxAttempts - 1));
  }

  /** Each step has at most max(1, max_attempts) committed outcomes, and its attempts are these plus the lost ones. */
  lemma StepWorkBounded(cfg: Config, states: seq<System>, actions: seq<Action>, k: nat, runId: string, i: nat)
    requires Protocol.Execution(cfg, states, actions) && k < |states|
    requires runId in states[k].db.runs && i < |Projection(states[k].db, runId).steps|
    ensures var events, step := RowsOf(states[k].db.events, runId), Projection(states[k].db, runId).steps[i];
            && OutcomeTotal(events, step.id) <= Max(1, cfg.settings.maxAttempts)
            && step.attempts == OutcomeTotal(events, step.id) + Unmatched(events, step.id, step.attempts)
  {
    InvariantHolds(cfg, states, actions, k);
    StepBounded(cfg, states[k].db, states[k].retries, runId, i);
  }

  lemma StepBounded(cfg: Config, db: Db, retries: seq<RetryEntry>, runId: string, i: nat)
    requires DbInv(db) && RetriesInv(cfg, db, retries) && runId in db.runs && i < |Projection(db, runId).steps|
    ensures var events, step := RowsOf(db.events, runId), Projection(db, runId).steps[i];
            && OutcomeTotal(events, step.id) <= Max(1, cfg.settings.maxAttempts)
            && step.attempts == OutcomeTotal(events, step.id) + Unmatched(events, step.id, step.attempts)
  {
    var events := RowsOf(db.events, runId);
    RetriesBounded(cfg, db, retries, runId, i);
    assert RunInv(db, runId);
    ReplayBooked(runId, events);
    assert StepBooked(events, Projection(db, runId).steps[i]);
  }

  function OutcomeSum(events: seq<Event>, steps: seq<StepRecord>): nat {
    if steps == [] then 0 else OutcomeSum(events, steps[..|steps| - 1]) + OutcomeTotal(events, steps[|steps| - 1].id)
  }

  function LostSum(events: seq<Event>, steps: seq<StepRecord>): nat {
    if steps == [] then 0
    else LostSum(events, steps[..|steps| - 1]) + Unmatched(events, steps[|steps| - 1].id, steps[|steps| - 1].attempts)
  }

  lemma {:induction false} SumsBounded(events: seq<Event>, steps: seq<StepRecord>, bound: nat)
    requires forall i :: 0 <= i < |steps| ==> OutcomeTotal(events, steps[i].id) <= bound
    requires forall i :: 0 <= i < |steps| ==>
               steps[i].attempts == OutcomeTotal(events, steps[i].id) + Unmatched(events, steps[i].id,
                     steps[i].attempts)
    ensures AttemptTotal(steps) == OutcomeSum(events, steps) + LostSum(events, steps)
    ensures OutcomeSum(events, steps) <= |steps| * bound
  {
    if steps != [] {
      var n := |steps| - 1;
      SumsBounded(events, steps[..n], bound);
      assert n * bound + bound == (n + 1) * bound;
    }
  }

  /** A run of n steps makes at most n * max(1, max_attempts) attempts that end in a committed outcome; all others
      were lost to a crash, to a lost lease, or are still under way. */
  lemma RunWorkBounded(cfg: Config, states: seq<System>, actions: seq<Action>, k: nat, runId: string)
    requires Protocol.Execution(cfg, states, actions) && k < |states| && runId in states[k].db.runs
    ensures var events, steps := RowsOf(states[k].db.events, runId), Projection(states[k].db, runId).steps;
            && AttemptTotal(steps) == OutcomeSum(events, steps) + LostSum(events, steps)
            && OutcomeSum(events, steps) <= |steps| * Max(1, cfg.settings.maxAttempts)
  {
    InvariantHolds(cfg, states, actions, k);
    var events, steps := RowsOf(states[k].db.events, runId), Projection(states[k].db, runId).steps;
    forall i | 0 <= i < |steps|
      ensures OutcomeTotal(events, steps[i].id) <= Max(1, cfg.settings.maxAttempts)
      ensures steps[i].attempts == OutcomeTotal(events, steps[i].id) + Unmatched(events, steps[i].id, steps[i].attempts)
    {
      StepBounded(cfg, states[k].db, states[k].retries, runId, i);
    }
    SumsBounded(events, steps, Max(1, cfg.settings.maxAttempts));
  }

  // ----- a measure for runs without losses -----

  lemma {:induction false} CountGrows(before: seq<Event>, after: seq<Event>, eventType: EventType, stepId: string)
    requires before <= after
    ensures CountType(before, eventType, stepId) <= CountType(after, eventType, stepId)
  {
    if before != after {
      CountGrows(before, after[..|after| - 1], eventType, stepId);
    }
  }

  lemma OutcomesGrow(before: seq<Event>, after: seq<Event>, stepId: string)
    requires before <= after
    ensures OutcomeTotal(before, stepId) <= OutcomeTotal(after, stepId)
    ensures |before| < |after| && after[|before|].attempt.Some?
            && Closes(after[|before|], stepId, after[|before|].attempt.value) ==>
              OutcomeTotal(before, stepId) < OutcomeTotal(after, stepId)
  {
    forall eventType ensures CountType(before, eventType, stepId) <= CountType(after, eventType, stepId) {
      CountGrows(before, after, eventType, stepId);
    }
    if |before| < |after| && after[|before|].attempt.Some?
       && Closes(after[|before|], stepId, after[|before|].attempt.value) {
      var next := before + [after[|before|]];
      assert next <= after;
      forall eventType
        ensures CountType(next, eventType, stepId) ==
                CountType(before, eventType, stepId)
                + (if after[|before|].eventType == eventType then 1 else 0)
        ensures CountType(next, eventType, stepId) <= CountType(after, eventType, stepId)
      {
        CountAppend(before, after[|before|], eventType, stepId);
        CountGrows(next, after, eventType, stepId);
      }
    }
  }

  lemma {:induction false} OutcomeSumGrows(before: seq<Event>, after: seq<Event>, steps: seq<StepRecord>,
                                           steps': seq<StepRecord>)
    requires before <= after && |steps| == |steps'| && forall i :: 0 <= i < |steps| ==> steps'[i].id == steps[i].id
    ensures OutcomeSum(before, steps) <= OutcomeSum(after, steps')
    ensures (exists i :: 0 <= i < |steps| && OutcomeTotal(before, steps[i].id) < OutcomeTotal(after, steps[i].id)) ==>
              OutcomeSum(before, steps) < OutcomeSum(after, steps')
  {
    if steps != [] {
      var n := |steps| - 1;
      assert forall i :: 0 <= i < n ==> steps[..n][i] == steps[i] && steps'[..n][i] == steps'[i];
      OutcomeSumGrows(before, after, steps[..n], steps'[..n]);
      OutcomesGrow(before, after, steps[n].id);
      if i :| 0 <= i < |steps| && OutcomeTotal(before, steps[i].id) < OutcomeTotal(after, steps[i].id) {
        assert i < n ==> steps[..n][i] == steps[i];
      }
    }
  }

  /** How many outcomes the run may still commit. */
  function OutcomeBudget(settings: Settings, db: Db, runId: string): int
    requires runId in db.runs
  {
    |Projection(db, runId).steps| * Max(1, settings.maxAttempts) - OutcomeSum(RowsOf(db.events, runId),
          Projection(db, runId).steps)
  }

  lemma {:induction false} SumsBelow(events: seq<Event>, steps: seq<StepRecord>, bound: nat)
    requires forall i :: 0 <= i < |steps| ==> OutcomeTotal(events, steps[i].id) <= bound
    requires exists i :: 0 <= i < |steps| && OutcomeTotal(events, steps[i].id) < bound
    ensures OutcomeSum(events, steps) < |steps| * bound
  {
    var n := |steps| - 1;
    var init := steps[..n];
    assert n * bound + bound == (n + 1) * bound;
    var i :| 0 <= i < |steps| && OutcomeTotal(events, steps[i].id) < bound;
    if i < n {
      assert OutcomeTotal(events, init[i].id) < bound;
      SumsBelow(events, init, bound);
    } else {
      SumsAtMost(events, init, bound);
    }
  }

  lemma {:induction false} SumsAtMost(events: seq<Event>, steps: seq<StepRecord>, bound: nat)
    requires forall i :: 0 <= i < |steps| ==> OutcomeTotal(events, steps[i].id) <= bound
    ensures OutcomeSum(events, steps) <= |steps| * bound
  {
    if steps != [] {
      var n := |steps| - 1;
      assert n * bound + bound == (n + 1) * bound;
      SumsAtMost(events, steps[..n], bound);
    }
  }

  /** A run never commits more outcomes than it may, and as long as it is running it may commit one more. */
  lemma BudgetSuffices(cfg: Config, db: Db, retries: seq<RetryEntry>, runId: string)
    requires DbInv(db) && RetriesInv(cfg, db, retries) && runId in db.runs
    ensures OutcomeBudget(cfg.settings, db, runId) >= if db.runs[runId].status.Running? then 1 else 0
  {
    var run, events := Projection(db, runId), RowsOf(db.events, runId);
    var bound := Max(1, cfg.settings.maxAttempts);
    forall i | 0 <= i < |run.steps| ensures OutcomeTotal(events, run.steps[i].id) <= bound {
      StepBounded(cfg, db, retries, runId, i);
    }
    SumsAtMost(events, run.steps, bound);
    if run.status.Running? {
      RunFacts(db, runId);
      var i := RunningHasReadyStep(runId, run);
      RetriesBounded(cfg, db, retries, runId, i);
      ReplayBooked(runId, events);
      assert StepBooked(events, run.steps[i]);
      SumsBelow(events, run.steps, bound);
    }
  }

  lemma SameSteps(before: WorkflowRun, after: WorkflowRun)
    requires Extends(before, after)
    ensures |after.steps| == |before.steps| && forall i :: 0 <= i < |before.steps| ==>
              after.steps[i].id == before.steps[i].id
  {
    forall i | 0 <= i < |before.steps| ensures after.steps[i].id == before.steps[i].id {
      assert SameDefinition(before.steps[i], after.steps[i]);
    }
  }

  lemma BudgetShrinks(settings: Settings, db: Db, db': Db, runId: string)
    requires Grows(db, db') && runId in db.runs
    ensures runId in db'.runs && OutcomeBudget(settings, db', runId) <= OutcomeBudget(settings, db, runId)
  {
    SameSteps(Projection(db, runId), Projection(db', runId));
    OutcomeSumGrows(RowsOf(db.events, runId), RowsOf(db'.events, runId), Projection(db, runId).steps,
                    Projection(db', runId).steps);
  }

  /** A commit with a live lease adds an outcome to its run. */
  lemma CommitUsesBudget(cfg: Config, s: System, s': System, worker: Worker, clock: Time, leaseNow: Time, now: Time)
    requires DbInv(s.db) && WorkerInv(s.db, s.ledger, worker) && worker.Answered? && !worker.outcome.Unreadable?
    requires PassesLeaseCheck(s.db, worker.lease, leaseNow)
    requires s' == CommitOutcome(cfg, s, worker.step, worker.lease, worker.outcome, clock, leaseNow, now)
    ensures worker.lease.runId in s.db.runs && worker.lease.runId in s'.db.runs
    ensures OutcomeBudget(cfg.settings, s'.db, worker.lease.runId) < OutcomeBudget(cfg.settings, s.db,
          worker.lease.runId)
  {
    var r := worker.lease.runId;
    var i := HolderSeesStep(s.db, s.ledger, worker, leaseNow);
    var appended := CommitEffect(cfg, s, s', worker, clock, leaseNow, now);
    CommittedGrows(s.db, s'.db, r, appended);
    ClosingUsesBudget(cfg.settings, s.db, s'.db, r, appended, i, worker.step.attempts);
  }

  lemma ClosingUsesBudget(settings: Settings, db: Db, db': Db, runId: string, appended: seq<Event>, i: nat,
                          attempt: int)
    requires Grows(db, db') && runId in db.runs && runId in db'.runs && i < |Projection(db, runId).steps|
    requires RowsOf(db'.events, runId) == RowsOf(db.events, runId) + appended
    requires appended != [] && Closes(appended[0], Projection(db, runId).steps[i].id, attempt)
    ensures OutcomeBudget(settings, db', runId) < OutcomeBudget(settings, db, runId)
  {
    var before, after := RowsOf(db.events, runId), RowsOf(db'.events, runId);
    assert after[|before|] == appended[0];
    OutcomesGrow(before, after, Projection(db, runId).steps[i].id);
    SameSteps(Projection(db, runId), Projection(db', runId));
    OutcomeSumGrows(before, after, Projection(db, runId).steps, Projection(db', runId).steps);
  }

  /** The measure is never negative, never grows, and every commit with a live lease makes it smaller. */
  lemma BudgetDecreases(cfg: Config, states: seq<System>, actions: seq<Action>, k: nat, runId: string)
    requires Protocol.Execution(cfg, states, actions) && k < |actions| && runId in states[k].db.runs
    ensures runId in states[k + 1].db.runs
    ensures 0 <= OutcomeBudget(cfg.settings, states[k + 1].db, runId) <= OutcomeBudget(cfg.settings, states[k].db,
          runId)
    ensures actions[k].Commit? ==> WorkerAt(states[k], actions[k].worker).Answered?
    ensures var worker := WorkerAt(states[k], if actions[k].Commit? then actions[k].worker else 0);
            actions[k].Commit? && worker.lease.runId == runId
            && PassesLeaseCheck(states[k].db, worker.lease, actions[k].leaseNow)
            && !worker.outcome.Unreadable? ==>
              OutcomeBudget(cfg.settings, states[k + 1].db, runId) < OutcomeBudget(cfg.settings, states[k].db, runId)
  {
    StepGrows(cfg, states, actions, k);
    BudgetShrinks(cfg.settings, states[k].db, states[k + 1].db, runId);
    RunWorkBounded(cfg, states, actions, k + 1, runId);
    if actions[k].Commit? {
      CommitShrinksBudget(cfg, states, actions, k);
    }
  }

  lemma CommitShrinksBudget(cfg: Config, states: seq<System>, actions: seq<Action>, k: nat)
    requires Protocol.Execution(cfg, states, actions) && k < |actions| && actions[k].Commit?
    ensures var worker := WorkerAt(states[k], actions[k].worker);
            worker.Answered?
            && (PassesLeaseCheck(states[k].db, worker.lease, actions[k].leaseNow) && !worker.outcome.Unreadable? ==>
                  worker.lease.runId in states[k].db.runs && worker.lease.runId in states[k + 1].db.runs
                  && OutcomeBudget(cfg.settings, states[k + 1].db, worker.lease.runId)
                       < OutcomeBudget(cfg.settings, states[k].db, worker.lease.runId))
  {
    var s, a := states[k], actions[k];
    assert Step(cfg, s, a, states[k + 1]);
    InvariantHolds(cfg, states, actions, k);
    WorkerInvAt(cfg, s, a.worker);
    var worker := WorkerAt(s, a.worker);
    if PassesLeaseCheck(s.db, worker.lease, a.leaseNow) && !worker.outcome.Unreadable? {
      var s' := CommitOutcome(cfg, s, worker.step, worker.lease, worker.outcome, a.clock, a.leaseNow, a.now);
      CommitUsesBudget(cfg, s, s', worker, a.clock, a.leaseNow, a.now);
    }
  }

  // ----- leases over time -----

  /** A claim made at `now` holds for the given time: until then its holder passes the lease check and nobody can
      claim any step of the run; afterwards the check fails. */
  lemma ClaimHoldsForTtl(db: Db, runId: string, ownerId: string, ttl: Time, now: Time, t: Time)
    ensures var db' := ClaimStep(db, runId, ownerId, ttl, now);
            && (PassesLeaseCheck(db', ClaimLease(db, runId, ownerId, ttl, now), t) <==> t < now + ttl)
            && (t < now + ttl ==> forall i: nat :: !Selectable(db', t, runId, i))
  {
  }

  /** A heartbeat that comes in time extends the lease to `ttl` from then on; one that comes too late, or from another
      owner or fence, leaves the tables alone, so an expired lease is never revived. */
  lemma RenewalExtends(db: Db, lease: Lease, ttl: Time, now: Time, t: Time)
    ensures var db' := RenewLease(db, lease.runId, lease.ownerId, lease.fenceToken, ttl, now);
            if PassesLeaseCheck(db, lease, now) then PassesLeaseCheck(db', lease, t) <==> t < now + ttl
            else db' == db
  {
  }

  /** A release by the holder frees the run at once: from then on no lease check passes, and the lease holds nothing
      back. */
  lemma ReleaseFrees(db: Db, lease: Lease, now: Time, t: Time)
    requires Owns(db, lease.runId, lease.ownerId, lease.fenceToken) && t >= now
    ensures var db' := ReleaseLease(db, lease.runId, lease.ownerId, lease.fenceToken, now);
            && !PassesLeaseCheck(db', lease, t)
            && (forall i: nat :: Selectable(db', t, lease.runId, i) <==>
                  Selectable(db.(leases := db.leases - {lease.runId}), t, lease.runId, i))
            && NextFence(db', lease.runId) == NextFence(db, lease.runId)
  {
  }
}
