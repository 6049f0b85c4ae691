/** Safety over whole executions: history equals projection, nothing is undone, stale owners cannot commit. */
module Safety {
  import opened Models
  import opened Graph
  import opened History
  import opened HistoryFacts
  import opened Database
  import opened Refinement
  import opened Transitions
  import opened Lifecycle
  import opened Gateway
  import opened Ledger
  import opened Protocol
  import opened Invariant
  import opened Preservation
  import opened CommitPreservation
  import opened Execution

  // ----- history refines projection -----

  /** After every step of every execution, reducing the events of any run gives exactly the projected run. */
  lemma HistoryEqualsProjection(cfg: Config, states: seq<System>, actions: seq<Action>, k: nat, runId: string)
    requires Protocol.Execution(cfg, states, actions) && k < |states| && runId in states[k].db.runs
    ensures Reduce(RowsOf(states[k].db.events, runId)) == Ok(Projection(states[k].db, runId))
  {
    InvariantHolds(cfg, states, actions, k);
    assert RunInv(states[k].db, runId);
    InvariantMatchesHistory(states[k].db, runId);
  }

  /** The run's status says exactly how its steps stand; in engine runs at most one step ever fails. */
  lemma StatusCoherent(cfg: Config, states: seq<System>, actions: seq<Action>, k: nat, runId: string)
    requires Protocol.Execution(cfg, states, actions) && k < |states| && runId in states[k].db.runs
    ensures var run := Projection(states[k].db, runId);
            && (run.status.RunCompleted? <==> AllStepsCompleted(run))
            && (run.status.RunFailed? <==> ExactlyOneFailed(run))
            && (run.status.Running? <==> !SomeStepFailed(run) && !AllStepsCompleted(run))
  {
    InvariantHolds(cfg, states, actions, k);
    RunFacts(states[k].db, runId);
    SoundStatus(Projection(states[k].db, runId));
  }

  lemma SoundStatus(run: WorkflowRun)
    requires Sound(run) && run.steps != []
    ensures run.status.RunCompleted? <==> AllStepsCompleted(run)
    ensures run.status.RunFailed? <==> ExactlyOneFailed(run)
    ensures run.status.Running? <==> !SomeStepFailed(run) && !AllStepsCompleted(run)
  {
    if run.status.RunFailed? {
      var i :| 0 <= i < |run.steps| && run.steps[i].status.Failed?;
      assert forall j :: 0 <= j < |run.steps| && run.steps[j].status.Failed? ==> j == i;
    }
    if AllStepsCompleted(run) {
      assert !SomeStepFailed(run);
    }
  }

  // ----- nothing is undone -----

  lemma GrowsReflexive(db: Db)
    ensures Grows(db, db)
  {
    forall r | r in db.runs ensures Extends(Projection(db, r), Projection(db, r)) {
      ExtendsReflexive(Projection(db, r));
    }
  }

  lemma GrowsTransitive(a: Db, b: Db, c: Db)
    requires Grows(a, b) && Grows(b, c)
    ensures Grows(a, c)
  {
    forall r | r in a.runs ensures Extends(Projection(a, r), Projection(c, r)) {
      ExtendsTransitive(Projection(a, r), Projection(b, r), Projection(c, r));
    }
  }

  /** The event that closes the attempt of an answered worker; an unreadable answer closes nothing. */
  function Closing(settings: Settings, step: StepRecord, outcome: Outcome, clock: Time): Option<(EventType, Payload)> {
    match outcome
    case Success(result) => Some((StepCompleted, CompletedPayload(result)))
    case Permanent(error) => Some((StepFailed, FailedPayload(error)))
    case Unreadable => None
    case Retryable(error, retryAfter, _) =>
      match Decide(settings, step.attempts, error, retryAfter)
      case GiveUp(reason) => Some((StepFailed, FailedPayload(reason)))
      case TryAgain(delay, _) => Some((StepRetryScheduled, RetryPayload(error, clock + delay)))
  }

  /** With a live lease the worker's own attempt is closed by the given event; without one nothing happens. */
  ghost predicate ClosesOwnAttempt(db: Db, db': Db, worker: Worker, leaseNow: Time, closing: (EventType, Payload),
                                   appended: seq<Event>)
    requires Active(worker) && !worker.Releasing?
  {
    if PassesLeaseCheck(db, worker.lease, leaseNow)
    then Committed(db, db', worker.lease.runId, appended) && appended != []
         && Closes(appended[0], worker.step.id, worker.step.attempts)
         && appended[0].eventType == closing.0 && appended[0].payload == closing.1
    else db' == db && appended == []
  }

  /** A call by an answered worker finds its attempt active exactly when the lease check passes. */
  lemma ActiveExactlyForHolder(db: Db, ledger: LedgerTables, worker: Worker, leaseNow: Time)
    requires DbInv(db) && WorkerInv(db, ledger, worker) && worker.Answered?
    ensures var active := ActiveAttempt(db, worker.lease.runId, worker.step.id, Some(worker.lease.ownerId),
                                        Some(worker.lease.fenceToken), leaseNow);
            && (active.Ok? <==> PassesLeaseCheck(db, worker.lease, leaseNow))
            && (active.Err? ==> !active.error.NoActiveAttempt?)
  {
    if PassesLeaseCheck(db, worker.lease, leaseNow) {
      var i := HolderSeesStep(db, ledger, worker, leaseNow);
      ActiveForHolder(db, worker, i, leaseNow);
    }
  }

  lemma FailEffect(s: System, worker: Worker, error: string, leaseNow: Time, now: Time) returns (appended: seq<Event>)
    requires DbInv(s.db) && WorkerInv(s.db, s.ledger, worker) && worker.Answered?
    ensures ClosesOwnAttempt(s.db, FailAttempt(s, worker.step, worker.lease, error, leaseNow, now).db, worker, leaseNow,
                             (StepFailed, FailedPayload(error)), appended)
  {
    ActiveExactlyForHolder(s.db, s.ledger, worker, leaseNow);
    var result := FailStep(s.db, worker.lease.runId, worker.step.id, error, Some(worker.lease.ownerId),
                           Some(worker.lease.fenceToken), leaseNow, now);
    appended := [];
    if result.Ok? {
      var i := FailBy(s.db, s.ledger, worker, result.value, error, leaseNow, now);
      appended := FailureEvents(worker.step, worker.lease.runId, |RowsOf(s.db.events, worker.lease.runId)|, error, now);
    }
  }

  lemma CompleteEffect(s: System, worker: Worker, output: ToolResult, leaseNow: Time,
                       now: Time) returns (appended: seq<Event>)
    requires DbInv(s.db) && WorkerInv(s.db, s.ledger, worker) && worker.Answered?
    ensures ClosesOwnAttempt(s.db, CompleteAttempt(s, worker.step, worker.lease, output, leaseNow, now).db, worker,
                             leaseNow,
                             (StepCompleted, CompletedPayload(output)), appended)
  {
    ActiveExactlyForHolder(s.db, s.ledger, worker, leaseNow);
    var result := CompleteStep(s.db, worker.lease.runId, worker.step.id, output, Some(worker.lease.ownerId),
                               Some(worker.lease.fenceToken), leaseNow, now);
    appended := [];
    if result.Ok? {
      var i, last := CompleteBy(s.db, s.ledger, worker, result.value, output, leaseNow, now);
      appended := CompletionEvents(worker.step, worker.lease.runId, |RowsOf(s.db.events, worker.lease.runId)|, output,
                                   last, now);
    }
  }

  lemma RetryEffect(s: System, s': System, worker: Worker, error: string, throttleTool: bool, delay: Time, local: bool,
                    clock: Time, leaseNow: Time, now: Time, closing: (EventType, Payload))
    returns (appended: seq<Event>)
    requires DbInv(s.db) && WorkerInv(s.db, s.ledger, worker) && worker.Answered?
    requires s' == RetryAttempt(s, worker.step, worker.lease, error, throttleTool, delay, local, clock, leaseNow, now)
    requires closing == (StepRetryScheduled, RetryPayload(error, clock + delay))
    ensures ClosesOwnAttempt(s.db, s'.db, worker, leaseNow, closing, appended)
  {
    ActiveExactlyForHolder(s.db, s.ledger, worker, leaseNow);
    var result := ScheduleRetry(s.db, worker.lease.runId, worker.step.id, error, clock + delay,
                                Some(worker.lease.ownerId),
                                Some(worker.lease.fenceToken), throttleTool, leaseNow, now);
    appended := [];
    if result.Ok? {
      var retry := ScheduledRetryCloses(s.db, s.ledger, worker, result.value, error, clock + delay, throttleTool,
                                        leaseNow, now);
      appended := [retry];
    }
  }

  lemma ScheduledRetryCloses(db: Db, ledger: LedgerTables, worker: Worker, db': Db, error: string, deadline: Time,
                             throttleTool: bool, leaseNow: Time, now: Time)
    returns (retry: Event)
    requires DbInv(db) && WorkerInv(db, ledger, worker) && worker.Answered?
    requires ScheduleRetry(db, worker.lease.runId, worker.step.id, error, deadline, Some(worker.lease.ownerId),
                           Some(worker.lease.fenceToken), throttleTool, leaseNow, now) == Ok(db')
    ensures Committed(db, db', worker.lease.runId, [retry]) && Closes(retry, worker.step.id, worker.step.attempts)
    ensures retry.eventType.StepRetryScheduled? && retry.payload == RetryPayload(error, deadline)
  {
    var i := RetryNamed(db, ledger, worker, db', error, deadline, throttleTool, leaseNow, now);
    retry := RetryCloses(db, db', worker, i, error, deadline, throttleTool, now);
  }

  ghost predicate CommitDoes(db: Db, db': Db, worker: Worker, leaseNow: Time, closing: Option<(EventType, Payload)>,
                             appended: seq<Event>)
    requires Active(worker) && !worker.Releasing?
  {
    if closing.None? then db' == db else ClosesOwnAttempt(db, db', worker, leaseNow, closing.value, appended)
  }

  lemma RetryableEffect(cfg: Config, s: System, s': System, worker: Worker, clock: Time, leaseNow: Time, now: Time)
    returns (appended: seq<Event>)
    requires DbInv(s.db) && WorkerInv(s.db, s.ledger, worker) && worker.Answered? && worker.outcome.Retryable?
    requires s' == CommitOutcome(cfg, s, worker.step, worker.lease, worker.outcome, clock, leaseNow, now)
    ensures CommitDoes(s.db, s'.db, worker, leaseNow, Closing(cfg.settings, worker.step, worker.outcome, clock),
                       appended)
  {
    var Retryable(error, retryAfter, throttleTool) := worker.outcome;
    var decision := Decide(cfg.settings, worker.step.attempts, error, retryAfter);
    if decision.GiveUp? {
      appended := FailEffect(s, worker, decision.error, leaseNow, now);
    } else {
      var closing := Closing(cfg.settings, worker.step, worker.outcome, clock).value;
      appended := RetryEffect(s, s', worker, error, throttleTool, decision.delay, decision.local, clock, leaseNow, now,
                              closing);
    }
  }

  lemma CommitEffect(cfg: Config, s: System, s': System, worker: Worker, clock: Time, leaseNow: Time, now: Time)
    returns (appended: seq<Event>)
    requires DbInv(s.db) && WorkerInv(s.db, s.ledger, worker) && worker.Answered?
    requires s' == CommitOutcome(cfg, s, worker.step, worker.lease, worker.outcome, clock, leaseNow, now)
    ensures CommitDoes(s.db, s'.db, worker, leaseNow, Closing(cfg.settings, worker.step, worker.outcome, clock),
                       appended)
  {
    match worker.outcome
    case Success(result) => appended := CompleteEffect(s, worker, result, leaseNow, now);
    case Permanent(error) => appended := FailEffect(s, worker, error, leaseNow, now);
    case Unreadable => appended := [];
    case Retryable(_, _, _) => appended := RetryableEffect(cfg, s, s', worker, clock, leaseNow, now);
  }

  lemma CommitGrows(cfg: Config, s: System, worker: Worker, clock: Time, leaseNow: Time, now: Time)
    requires DbInv(s.db) && WorkerInv(s.db, s.ledger, worker) && worker.Answered?
    ensures Grows(s.db, CommitOutcome(cfg, s, worker.step, worker.lease, worker.outcome, clock, leaseNow, now).db)
  {
    var s' := CommitOutcome(cfg, s, worker.step, worker.lease, worker.outcome, clock, leaseNow, now);
    var appended := CommitEffect(cfg, s, s', worker, clock, leaseNow, now);
    if s'.db == s.db {
      GrowsReflexive(s.db);
    } else {
      CommittedGrows(s.db, s'.db, worker.lease.runId, appended);
    }
  }

  lemma RecordGrows(s: System, w: nat, step: StepRecord, lease: Lease, leaseNow: Time, now: Time)
    requires DbInv(s.db) && WorkerAt(s, w) == Claimed(step, lease) && WorkerInv(s.db, s.ledger, Claimed(step, lease))
    ensures Grows(s.db, DoRecord(s, w, leaseNow, now).db)
  {
    if RecordAttempt(s.db, lease.runId, step.id, Some(lease.ownerId), Some(lease.fenceToken), leaseNow, now).Ok? {
      RecordedGrows(s.db, s.ledger, step, lease, leaseNow, now);
    } else {
      GrowsReflexive(s.db);
    }
  }

  lemma RecordedGrows(db: Db, ledger: LedgerTables, step: StepRecord, lease: Lease, leaseNow: Time, now: Time)
    requires DbInv(db) && WorkerInv(db, ledger, Claimed(step, lease))
    requires RecordAttempt(db, lease.runId, step.id, Some(lease.ownerId), Some(lease.fenceToken), leaseNow, now).Ok?
    ensures Grows(db, RecordAttempt(db, lease.runId, step.id, Some(lease.ownerId), Some(lease.fenceToken), leaseNow,
                                    now).value.0)
  {
    var i := RecordBy(db, ledger, step, lease, leaseNow, now);
    CommittedGrows(db, RecordAttempt(db, lease.runId, step.id, Some(lease.ownerId), Some(lease.fenceToken), leaseNow,
                                     now).value.0, lease.runId,
                   [StartedEvent(step, |RowsOf(db.events, lease.runId)| + 1, Some(lease.ownerId),
                                 Some(lease.fenceToken), now)]);
  }

  /** Messages, crashes and tool transactions leave the engine database alone. */
  predicate Quiet(a: Action) {
    !a.Create? && !a.Record? && !a.Commit? && !a.Release? && !a.Renew? && !(a.Claim? && a.pick.Some?)
  }

  lemma QuietKeepsDb(cfg: Config, s: System, a: Action)
    requires Enabled(s, a) && Quiet(a)
    ensures Do(cfg, s, a).db == s.db
  {
  }

  lemma RenewGrows(db: Db, runId: string, ownerId: string, fenceToken: int, ttl: Time, now: Time)
    requires DbInv(db)
    ensures Grows(db, RenewLease(db, runId, ownerId, fenceToken, ttl, now))
    ensures Grows(db, ReleaseLease(db, runId, ownerId, fenceToken, now))
  {
    RenewAdvances(db, runId, ownerId, fenceToken, ttl, now);
    LeaseStepGrows(db, RenewLease(db, runId, ownerId, fenceToken, ttl, now));
    LeaseStepGrows(db, ReleaseLease(db, runId, ownerId, fenceToken, now));
  }

  lemma ClaimGrows(db: Db, runId: string, ownerId: string, ttl: Time, now: Time)
    requires DbInv(db) && runId in db.runs
    ensures Grows(db, ClaimStep(db, runId, ownerId, ttl, now))
  {
    ClaimAdvances(db, runId, ownerId, ttl, now);
    LeaseStepGrows(db, ClaimStep(db, runId, ownerId, ttl, now));
  }

  lemma CreateGrows(s: System, runId: string, definition: WorkflowDefinition, toolKey: string, now: Time)
    requires DbInv(s.db) && runId !in s.db.runs && IsRunId(runId) && AcceptedDefinition(definition)
    ensures Grows(s.db, CreateRun(s.db, runId, definition, toolKey, now).value)
  {
    CreateRunCommits(s.db, runId, definition, toolKey, now);
    NewRunGrows(s.db, CreateRun(s.db, runId, definition, toolKey, now).value, runId);
  }

  predicate OnLeases(a: Action) {
    a.Release? || a.Renew? || (a.Claim? && a.pick.Some?)
  }

  lemma LeaseActionGrows(cfg: Config, s: System, a: Action)
    requires DbInv(s.db) && Enabled(s, a) && OnLeases(a)
    ensures Grows(s.db, Do(cfg, s, a).db)
  {
    match a
    case Claim(w, ownerId, ttl, now, Some(pick)) => ClaimGrows(s.db, pick.0, ownerId, ttl, now);
    case Release(w, now) =>
      var lease := WorkerAt(s, w).lease;
      RenewGrows(s.db, lease.runId, lease.ownerId, lease.fenceToken, 0, now);
    case Renew(runId, ownerId, fenceToken, ttl, now) => RenewGrows(s.db, runId, ownerId, fenceToken, ttl, now);
  }

  lemma ActionGrows(cfg: Config, s: System, a: Action)
    requires Inv(cfg, s) && Enabled(s, a)
    ensures Grows(s.db, Do(cfg, s, a).db)
  {
    if Quiet(a) {
      QuietKeepsDb(cfg, s, a);
      GrowsReflexive(s.db);
    } else {
      match a
      case Create(runId, definition, toolKey, now) =>
        if runId in s.db.runs {
          GrowsReflexive(s.db);
        } else {
          CreateGrows(s, runId, definition, toolKey, now);
        }
      case Record(w, leaseNow, now) =>
        WorkerInvAt(cfg, s, w);
        RecordGrows(s, w, WorkerAt(s, w).step, WorkerAt(s, w).lease, leaseNow, now);
      case Commit(w, clock, leaseNow, now) =>
        WorkerInvAt(cfg, s, w);
        CommitGrows(cfg, s, WorkerAt(s, w), clock, leaseNow, now);
      case Claim(_, _, _, _, Some(_)) => LeaseActionGrows(cfg, s, a);
      case Release(_, _) => LeaseActionGrows(cfg, s, a);
      case Renew(_, _, _, _, _) => LeaseActionGrows(cfg, s, a);
    }
  }

  lemma StepGrows(cfg: Config, states: seq<System>, actions: seq<Action>, k: nat)
    requires Protocol.Execution(cfg, states, actions) && k < |actions|
    ensures Grows(states[k].db, states[k + 1].db)
  {
    InvariantHolds(cfg, states, actions, k);
    assert Step(cfg, states[k], actions[k], states[k + 1]);
    ActionGrows(cfg, states[k], actions[k]);
  }

  /** Between two points of an execution histories only get longer, fences never fall, definitions and finished steps
      never change. */
  lemma {:induction false} NothingUndone(cfg: Config, states: seq<System>, actions: seq<Action>, j: nat, k: nat)
    requires Protocol.Execution(cfg, states, actions) && j <= k < |states|
    ensures Grows(states[j].db, states[k].db)
    decreases k - j
  {
    if j == k {
      GrowsReflexive(states[j].db);
    } else {
      var m := k - 1;
      NothingUndone(cfg, states, actions, j, m);
      StepGrows(cfg, states, actions, m);
      GrowsTransitive(states[j].db, states[m].db, states[k].db);
    }
  }

  /** Once a run has ended, its projection and its history stay as they are, whatever the other workers still do. */
  lemma TerminalAbsorbs(cfg: Config, states: seq<System>, actions: seq<Action>, j: nat, k: nat, runId: string)
    requires Protocol.Execution(cfg, states, actions) && j <= k < |states|
    requires runId in states[j].db.runs && !states[j].db.runs[runId].status.Running?
    ensures runId in states[k].db.runs && Projection(states[k].db, runId) == Projection(states[j].db, runId)
    ensures RowsOf(states[k].db.events, runId) == RowsOf(states[j].db.events, runId)
  {
    NothingUndone(cfg, states, actions, j, k);
    InvariantHolds(cfg, states, actions, j);
    InvariantHolds(cfg, states, actions, k);
    assert RunInv(states[j].db, runId) && RunInv(states[k].db, runId);
    NothingFollowsEnd(runId, RowsOf(states[j].db.events, runId), RowsOf(states[k].db.events, runId));
  }

  /** A completed step keeps its record, output included, for ever. */
  lemma CompletedStepsStay(cfg: Config, states: seq<System>, actions: seq<Action>, j: nat, k: nat, runId: string,
                           i: nat)
    requires Protocol.Execution(cfg, states, actions) && j <= k < |states|
    requires runId in states[j].db.runs && i < |Projection(states[j].db, runId).steps|
    requires Projection(states[j].db, runId).steps[i].status.Completed?
    ensures runId in states[k].db.runs && i < |Projection(states[k].db, runId).steps|
    ensures Projection(states[k].db, runId).steps[i] == Projection(states[j].db, runId).steps[i]
  {
    NothingUndone(cfg, states, actions, j, k);
  }

  // ----- fencing -----

  /** Of all workers holding a claim on a run, at most one can pass the lease check, whatever clocks they read. */
  lemma OneOwner(cfg: Config, states: seq<System>, actions: seq<Action>, k: nat, v: nat, w: nat, time1: Time,
                 time2: Time)
    requires Protocol.Execution(cfg, states, actions) && k < |states| && v != w
    requires Active(WorkerAt(states[k], v)) && Active(WorkerAt(states[k], w))
    requires WorkerAt(states[k], v).lease.runId == WorkerAt(states[k], w).lease.runId
    ensures !(PassesLeaseCheck(states[k].db, WorkerAt(states[k], v).lease, time1)
              && PassesLeaseCheck(states[k].db, WorkerAt(states[k], w).lease, time2))
  {
    InvariantHolds(cfg, states, actions, k);
  }

  /** Every claim gets a fence above all fences granted before: those of the lease row, of every worker and of the
      history. */
  lemma ClaimRaisesFence(cfg: Config, states: seq<System>, actions: seq<Action>, k: nat)
    requires Protocol.Execution(cfg, states, actions) && k < |actions| && actions[k].Claim? && actions[k].pick.Some?
    ensures WorkerAt(states[k + 1], actions[k].worker).Claimed?
    ensures var lease := WorkerAt(states[k + 1], actions[k].worker).lease;
            && lease.runId in states[k].db.runs && lease.runId in states[k + 1].db.leases
            && states[k + 1].db.leases[lease.runId] == lease
            && (lease.runId in states[k].db.leases ==> states[k].db.leases[lease.runId].fenceToken < lease.fenceToken)
            && FencesBelow(RowsOf(states[k].db.events, lease.runId), lease.fenceToken)
            && forall v ::
                 v in states[k].workers && Active(states[k].workers[v])
                 && states[k].workers[v].lease.runId == lease.runId
                 ==> states[k].workers[v].lease.fenceToken < lease.fenceToken
  {
    InvariantHolds(cfg, states, actions, k);
    assert Step(cfg, states[k], actions[k], states[k + 1]);
    ClaimedFenceIsNew(states[k], actions[k].pick.value.0);
    assert RunFences(states[k].db, actions[k].pick.value.0);
  }

  /** Once a later claim holds a higher fence, renewing or releasing with the old fence changes nothing, then or ever
      after. */
  lemma StaleLeaseCallsIgnored(cfg: Config, states: seq<System>, actions: seq<Action>, j: nat, k: nat, lease: Lease,
                               ttl: Time, now: Time)
    requires Protocol.Execution(cfg, states, actions) && j <= k < |states|
    requires lease.runId in states[j].db.leases && lease.fenceToken < states[j].db.leases[lease.runId].fenceToken
    ensures RenewLease(states[k].db, lease.runId, lease.ownerId, lease.fenceToken, ttl, now) == states[k].db
    ensures ReleaseLease(states[k].db, lease.runId, lease.ownerId, lease.fenceToken, now) == states[k].db
  {
    NothingUndone(cfg, states, actions, j, k);
  }

  /** A fence that has been superseded stays superseded: its worker can never commit again. */
  lemma StaleForEver(cfg: Config, states: seq<System>, actions: seq<Action>, j: nat, k: nat, lease: Lease,
                     leaseNow: Time)
    requires Protocol.Execution(cfg, states, actions) && j <= k < |states|
    requires lease.runId in states[j].db.leases && lease.fenceToken < states[j].db.leases[lease.runId].fenceToken
    ensures !PassesLeaseCheck(states[k].db, lease, leaseNow)
  {
    NothingUndone(cfg, states, actions, j, k);
  }

  // Recording and committing leave the lease rows and the set of runs alone.

  lemma FailKeepsTables(s: System, step: StepRecord, lease: Lease, error: string, leaseNow: Time, now: Time)
    ensures FailAttempt(s, step, lease, error, leaseNow, now).db.leases == s.db.leases
    ensures FailAttempt(s, step, lease, error, leaseNow, now).db.runs.Keys == s.db.runs.Keys
  {
  }

  lemma CompleteKeepsTables(s: System, step: StepRecord, lease: Lease, result: ToolResult, leaseNow: Time, now: Time)
    ensures CompleteAttempt(s, step, lease, result, leaseNow, now).db.leases == s.db.leases
    ensures CompleteAttempt(s, step, lease, result, leaseNow, now).db.runs.Keys == s.db.runs.Keys
  {
  }

  lemma RetryKeepsTables(s: System, step: StepRecord, lease: Lease, error: string, throttleTool: bool, delay: Time,
                         local: bool, clock: Time, leaseNow: Time, now: Time)
    ensures RetryAttempt(s, step, lease, error, throttleTool, delay, local, clock, leaseNow, now).db.leases
            == s.db.leases
    ensures RetryAttempt(s, step, lease, error, throttleTool, delay, local, clock, leaseNow, now).db.runs.Keys
            == s.db.runs.Keys
  {
  }

  lemma CommitKeepsTables(cfg: Config, s: System, step: StepRecord, lease: Lease, outcome: Outcome, clock: Time,
                          leaseNow: Time, now: Time)
    ensures CommitOutcome(cfg, s, step, lease, outcome, clock, leaseNow, now).db.leases == s.db.leases
    ensures CommitOutcome(cfg, s, step, lease, outcome, clock, leaseNow, now).db.runs.Keys == s.db.runs.Keys
  {
    match outcome
    case Success(result) => CompleteKeepsTables(s, step, lease, result, leaseNow, now);
    case Permanent(error) => FailKeepsTables(s, step, lease, error, leaseNow, now);
    case Unreadable =>
    case Retryable(error, retryAfter, throttleTool) =>
      match Decide(cfg.settings, step.attempts, error, retryAfter) {
        case GiveUp(reason) => FailKeepsTables(s, step, lease, reason, leaseNow, now);
        case TryAgain(delay, local) =>
          RetryKeepsTables(s, step, lease, error, throttleTool, delay, local, clock, leaseNow, now);
      }
  }

  lemma RecordKeepsTables(s: System, w: nat, leaseNow: Time, now: Time)
    requires WorkerAt(s, w).Claimed?
    ensures DoRecord(s, w, leaseNow, now).db.leases == s.db.leases
    ensures DoRecord(s, w, leaseNow, now).db.runs.Keys == s.db.runs.Keys
  {
  }

  ghost predicate PositiveFences(db: Db) {
    forall r :: r in db.leases ==> db.leases[r].fenceToken >= 1
  }

  lemma ActionKeepsFencesPositive(cfg: Config, s: System, a: Action)
    requires Enabled(s, a) && PositiveFences(s.db)
    ensures PositiveFences(Do(cfg, s, a).db)
  {
    if Quiet(a) {
      QuietKeepsDb(cfg, s, a);
    } else {
      match a
      case Record(w, leaseNow, now) => RecordKeepsTables(s, w, leaseNow, now);
      case Commit(w, clock, leaseNow, now) =>
        CommitKeepsTables(cfg, s, WorkerAt(s, w).step, WorkerAt(s, w).lease, WorkerAt(s, w).outcome, clock, leaseNow,
                          now);
      case _ =>
    }
  }

  /** Runs are created only by creating them, and never removed. */
  lemma ActionKeepsRuns(cfg: Config, s: System, a: Action)
    requires Enabled(s, a) && !a.Create?
    ensures Do(cfg, s, a).db.runs.Keys == s.db.runs.Keys
  {
    if Quiet(a) {
      QuietKeepsDb(cfg, s, a);
    } else {
      match a
      case Record(w, leaseNow, now) => RecordKeepsTables(s, w, leaseNow, now);
      case Commit(w, clock, leaseNow, now) =>
        CommitKeepsTables(cfg, s, WorkerAt(s, w).step, WorkerAt(s, w).lease, WorkerAt(s, w).outcome, clock, leaseNow,
                          now);
      case _ =>
    }
  }

  lemma {:induction false} FencesPositive(cfg: Config, states: seq<System>, actions: seq<Action>, k: nat)
    requires Protocol.Execution(cfg, states, actions) && k < |states|
    ensures PositiveFences(states[k].db)
  {
    if k > 0 {
      var j := k - 1;
      FencesPositive(cfg, states, actions, j);
      assert Step(cfg, states[j], actions[j], states[j + 1]);
      ActionKeepsFencesPositive(cfg, states[j], actions[j]);
    }
  }

  /** Rebuilding a run makes its fences start again at 1, so their order survives if and only if the run had no lease
      row. */
  lemma RebuildKeepsFenceOrderExactly(cfg: Config, states: seq<System>, actions: seq<Action>, k: nat, runId: string)
    requires Protocol.Execution(cfg, states, actions) && k < |states| && runId in states[k].db.runs
    ensures RebuildProjection(states[k].db, runId).Ok?
    ensures var db, db' := states[k].db, RebuildProjection(states[k].db, runId).value;
            NextFence(db', runId) == 1 && (NextFence(db, runId) <= NextFence(db', runId) <==> runId !in db.leases)
  {
    FencesPositive(cfg, states, actions, k);
    HistoryEqualsProjection(cfg, states, actions, k, runId);
    RebuildForgetsFence(states[k].db, runId);
  }

  /** In every history the fences of attempt events strictly increase, and each of them is recorded. */
  lemma AttemptFencesIncrease(cfg: Config, states: seq<System>, actions: seq<Action>, n: nat, runId: string, j: nat,
                              k: nat)
    requires Protocol.Execution(cfg, states, actions) && n < |states| && runId in states[n].db.runs
    requires j < k < |RowsOf(states[n].db.events, runId)|
    requires IsStart(states[n].db.events[runId][j]) && IsStart(states[n].db.events[runId][k])
    ensures var events := states[n].db.events[runId];
            && events[j].payload.fenceToken.Some? && events[k].payload.fenceToken.Some?
            && events[j].payload.fenceToken.value < events[k].payload.fenceToken.value
  {
    InvariantHolds(cfg, states, actions, n);
    assert RunFences(states[n].db, runId);
  }

  // ----- claim, intent and outcome form one unit -----

  predicate HasStep(db: Db, runId: string, stepId: string) {
    runId in db.runs
    && exists i :: 0 <= i < |Projection(db, runId).steps| && Projection(db, runId).steps[i].id == stepId
  }

  /** The worker's step belongs to the run, even after the worker has lost its lease. */
  predicate KnowsStep(db: Db, worker: Worker) {
    worker.Idle? || worker.Releasing? || HasStep(db, worker.lease.runId, worker.step.id)
  }

  lemma HasStepGrows(db: Db, db': Db, runId: string, stepId: string)
    requires Grows(db, db') && HasStep(db, runId, stepId)
    ensures HasStep(db', runId, stepId)
  {
    var i :| 0 <= i < |Projection(db, runId).steps| && Projection(db, runId).steps[i].id == stepId;
    assert SameDefinition(Projection(db, runId).steps[i], Projection(db', runId).steps[i]);
  }

  /** The worker ended, or works on the step it had. */
  predicate SameStep(before: Worker, after: Worker) {
    after.Idle? || after.Releasing?
    || (!before.Idle? && !before.Releasing? && after.lease == before.lease && after.step.id == before.step.id)
  }

  lemma RecordKeepsStep(s: System, w: nat, leaseNow: Time, now: Time)
    requires WorkerAt(s, w).Claimed?
    ensures SameStep(WorkerAt(s, w), WorkerAt(DoRecord(s, w, leaseNow, now), w))
    ensures forall v :: v != w ==> WorkerAt(DoRecord(s, w, leaseNow, now), v) == WorkerAt(s, v)
  {
  }

  lemma CommitKeepsWorkers(cfg: Config, s: System, step: StepRecord, lease: Lease, outcome: Outcome, clock: Time,
                           leaseNow: Time, now: Time)
    ensures CommitOutcome(cfg, s, step, lease, outcome, clock, leaseNow, now).workers == s.workers
    ensures CommitOutcome(cfg, s, step, lease, outcome, clock, leaseNow, now).ledger == s.ledger
  {
  }

  lemma ToolKeepsWorkers(cfg: Config, s: System, sent: Sent, throttled: bool, retryAfter: Option<Time>,
                         referenceId: string, now: Time)
    ensures DoLookup(cfg, s, sent, throttled, retryAfter).workers == s.workers
    ensures DoApply(cfg, s, sent, referenceId, now).workers == s.workers
  {
  }

  /** Apart from claiming, no action makes a worker turn to another step. */
  lemma StepUnchanged(cfg: Config, s: System, a: Action, w: nat)
    requires Enabled(s, a) && !(a.Claim? && a.worker == w)
    ensures SameStep(WorkerAt(s, w), WorkerAt(Do(cfg, s, a), w))
  {
    match a
    case Record(v, leaseNow, now) => RecordKeepsStep(s, v, leaseNow, now);
    case Commit(v, clock, leaseNow, now) =>
      CommitKeepsWorkers(cfg, s, WorkerAt(s, v).step, WorkerAt(s, v).lease, WorkerAt(s, v).outcome, clock, leaseNow,
                         now);
    case ToolLookup(sent, throttled, retryAfter) => ToolKeepsWorkers(cfg, s, sent, throttled, retryAfter, "", 0);
    case ToolApply(sent, referenceId, now) => ToolKeepsWorkers(cfg, s, sent, false, None, referenceId, now);
    case _ =>
  }

  lemma KnowsStepKept(cfg: Config, s: System, s': System, a: Action, w: nat)
    requires Enabled(s, a) && s' == Do(cfg, s, a) && Grows(s.db, s'.db) && KnowsStep(s.db, WorkerAt(s, w))
    ensures KnowsStep(s'.db, WorkerAt(s', w))
  {
    if a.Claim? && a.worker == w {
      if a.pick.Some? {
        ClaimedStepKnown(s, w, a.ownerId, a.ttl, a.now, a.pick.value.0, a.pick.value.1);
      }
    } else {
      StepUnchanged(cfg, s, a, w);
      if !WorkerAt(s', w).Idle? && !WorkerAt(s', w).Releasing? {
        HasStepGrows(s.db, s'.db, WorkerAt(s, w).lease.runId, WorkerAt(s, w).step.id);
      }
    }
  }

  lemma {:induction false} WorkersKnowSteps(cfg: Config, states: seq<System>, actions: seq<Action>, k: nat, w: nat)
    requires Protocol.Execution(cfg, states, actions) && k < |states|
    ensures KnowsStep(states[k].db, WorkerAt(states[k], w))
  {
    if k > 0 {
      var j := k - 1;
      WorkersKnowSteps(cfg, states, actions, j, w);
      StepGrows(cfg, states, actions, j);
      assert Step(cfg, states[j], actions[j], states[j + 1]);
      KnowsStepKept(cfg, states[j], states[j + 1], actions[j], w);
    }
  }

  lemma ClaimedStepKnown(s: System, w: nat, ownerId: string, ttl: Time, now: Time, runId: string, i: nat)
    requires runId in s.db.runs && i < |RowsOf(s.db.steps, runId)|
    ensures var s' := DoClaim(s, w, ownerId, ttl, now, runId, i); KnowsStep(s'.db, WorkerAt(s', w))
  {
    var s' := DoClaim(s, w, ownerId, ttl, now, runId, i);
    assert Projection(s'.db, runId).steps[i].id == WorkerAt(s', w).step.id;
  }

  lemma StepRowExists(db: Db, runId: string, stepId: string)
    requires HasStep(db, runId, stepId)
    ensures RowIndex(RowsOf(db.steps, runId), stepId).Some?
  {
    var i :| 0 <= i < |Projection(db, runId).steps| && Projection(db, runId).steps[i].id == stepId;
    assert RowsOf(db.steps, runId)[i].id == stepId;
  }

  lemma HolderRecords(db: Db, ledger: LedgerTables, step: StepRecord, lease: Lease, leaseNow: Time, now: Time)
    requires DbInv(db) && WorkerInv(db, ledger, Claimed(step, lease)) && PassesLeaseCheck(db, lease, leaseNow)
    ensures var result := RecordAttempt(db, lease.runId, step.id, Some(lease.ownerId), Some(lease.fenceToken),
                                        leaseNow, now);
            result.Ok? && result.value.1 == StartedStep(step, now)
  {
    var r := lease.runId;
    var i := HolderSeesStep(db, ledger, Claimed(step, lease), leaseNow);
    RunFacts(db, r);
    BlockedExactly(r, db.runs[r], RowsOf(db.steps, r), RowsOf(db.dependencies, r), i);
    assert db.steps[r][i].status == step.status;
    var h := RecordBy(db, ledger, step, lease, leaseNow, now);
  }

  /** A claimed step is recorded exactly when the lease check passes: in engine runs the calls for steps that are
      not runnable or have incomplete dependencies never fail, and the step is the one that was claimed. */
  lemma ClaimThenRecordAtomic(cfg: Config, states: seq<System>, actions: seq<Action>, k: nat, w: nat, leaseNow: Time,
                              now: Time)
    requires Protocol.Execution(cfg, states, actions) && k < |states| && WorkerAt(states[k], w).Claimed?
    ensures var db, step, lease := states[k].db, WorkerAt(states[k], w).step, WorkerAt(states[k], w).lease;
            var result := RecordAttempt(db, lease.runId, step.id, Some(lease.ownerId), Some(lease.fenceToken),
                                        leaseNow, now);
            && (result.Ok? <==> PassesLeaseCheck(db, lease, leaseNow))
            && (result.Err? ==> result.error == LeaseLost)
            && (result.Ok? ==> result.value.1 == StartedStep(step, now))
  {
    InvariantHolds(cfg, states, actions, k);
    WorkerInvAt(cfg, states[k], w);
    var db, worker := states[k].db, WorkerAt(states[k], w);
    var r := worker.lease.runId;
    WorkersKnowSteps(cfg, states, actions, k, w);
    StepRowExists(db, r, worker.step.id);
    if PassesLeaseCheck(db, worker.lease, leaseNow) {
      HolderRecords(db, states[k].ledger, worker.step, worker.lease, leaseNow, now);
    }
  }

  /** The first event appended to the run closes, as `closing` says, the worker's own attempt: the latest start of the
      step, authorized under the worker's fence and without an outcome so far. */
  ghost predicate OwnAttemptClosed(db: Db, db': Db, worker: Worker, closing: (EventType, Payload))
    requires Active(worker) && !worker.Releasing?
  {
    var events, later := RowsOf(db.events, worker.lease.runId), RowsOf(db'.events, worker.lease.runId);
    |events| < |later| && later[..|events|] == events
    && Closes(later[|events|], worker.step.id, worker.step.attempts)
    && later[|events|].eventType == closing.0 && later[|events|].payload == closing.1
    && CountType(events, StepAttemptStarted, worker.step.id) == worker.step.attempts
    && Outcomes(events, worker.step.id, worker.step.attempts) == 0
    && Authorized(db, SentFor(worker.step, worker.lease))
  }

  /** A commit by a worker whose lease check passes closes the attempt that this worker recorded under this fence: the
      latest start of the step carries the worker's fence, had no outcome yet, and gets the outcome the tool's answer
      calls for. Without a live lease nothing is written. So attempts never cross workers, and the silent return for
      steps without an active attempt is never taken. */
  lemma OutcomeBelongsToAttempt(cfg: Config, states: seq<System>, actions: seq<Action>, k: nat)
    requires Protocol.Execution(cfg, states, actions) && k < |actions| && actions[k].Commit?
    ensures WorkerAt(states[k], actions[k].worker).Answered?
    ensures var db, db', worker := states[k].db, states[k + 1].db, WorkerAt(states[k], actions[k].worker);
            var closing := Closing(cfg.settings, worker.step, worker.outcome, actions[k].clock);
            if closing.None? || !PassesLeaseCheck(db, worker.lease, actions[k].leaseNow)
            then db' == db
            else OwnAttemptClosed(db, db', worker, closing.value)
  {
    InvariantHolds(cfg, states, actions, k);
    assert Step(cfg, states[k], actions[k], states[k + 1]);
    var s, worker := states[k], WorkerAt(states[k], actions[k].worker);
    WorkerInvAt(cfg, s, actions[k].worker);
    CommitClosesOwn(cfg, s, CommitOutcome(cfg, s, worker.step, worker.lease, worker.outcome, actions[k].clock,
                                          actions[k].leaseNow, actions[k].now),
                    worker, actions[k].clock, actions[k].leaseNow, actions[k].now);
  }

  lemma CommitClosesOwn(cfg: Config, s: System, s': System, worker: Worker, clock: Time, leaseNow: Time, now: Time)
    requires DbInv(s.db) && WorkerInv(s.db, s.ledger, worker) && worker.Answered?
    requires s' == CommitOutcome(cfg, s, worker.step, worker.lease, worker.outcome, clock, leaseNow, now)
    ensures var closing := Closing(cfg.settings, worker.step, worker.outcome, clock);
            if closing.None? || !PassesLeaseCheck(s.db, worker.lease, leaseNow)
            then s'.db == s.db
            else OwnAttemptClosed(s.db, s'.db, worker, closing.value)
  {
    var closing := Closing(cfg.settings, worker.step, worker.outcome, clock);
    var appended := CommitEffect(cfg, s, s', worker, clock, leaseNow, now);
    if closing.Some? && PassesLeaseCheck(s.db, worker.lease, leaseNow) {
      OwnAttemptOpen(s.db, s.ledger, worker, leaseNow);
      AppendedCloses(s.db, s'.db, worker, leaseNow, closing.value, appended);
    }
  }

  lemma AppendedCloses(db: Db, db': Db, worker: Worker, leaseNow: Time, closing: (EventType, Payload),
                       appended: seq<Event>)
    requires Active(worker) && !worker.Releasing? && ClosesOwnAttempt(db, db', worker, leaseNow, closing, appended)
    requires PassesLeaseCheck(db, worker.lease, leaseNow) && Authorized(db, SentFor(worker.step, worker.lease))
    requires CountType(RowsOf(db.events, worker.lease.runId), StepAttemptStarted, worker.step.id) ==
             worker.step.attempts
    requires Outcomes(RowsOf(db.events, worker.lease.runId), worker.step.id, worker.step.attempts) == 0
    ensures OwnAttemptClosed(db, db', worker, closing)
  {
    var events, later := RowsOf(db.events, worker.lease.runId), RowsOf(db'.events, worker.lease.runId);
    assert later == events + appended;
  }

  lemma OwnAttemptOpen(db: Db, ledger: LedgerTables, worker: Worker, leaseNow: Time)
    requires DbInv(db) && WorkerInv(db, ledger, worker) && worker.Answered?
             && PassesLeaseCheck(db, worker.lease, leaseNow)
    ensures var events := RowsOf(db.events, worker.lease.runId);
            && CountType(events, StepAttemptStarted, worker.step.id) == worker.step.attempts
            && Outcomes(events, worker.step.id, worker.step.attempts) == 0
  {
    var i := HolderSeesStep(db, ledger, worker, leaseNow);
    var events := RowsOf(db.events, worker.lease.runId);
    assert RunInv(db, worker.lease.runId);
    ReplayBooked(worker.lease.runId, events);
    assert StepBooked(events, Projection(db, worker.lease.runId).steps[i]);
  }
}
