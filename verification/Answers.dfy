/** What each answer of the tool leads to (engine.py): from status, header and body of the reply, and from the number
    of attempts, to the rows, the events and the cooldowns that the worker's commit leaves behind. */
module Answers {
  import opened Models
  import opened History
  import opened HistoryFacts
  import opened Database
  import opened Refinement
  import opened Transitions
  import opened Gateway
  import opened Ledger
  import opened Protocol
  import opened Invariant
  import opened Preservation
  import opened CommitPreservation
  import opened Execution
  import opened Safety

  // ----- what a commit can leave behind -----

  /** The worker's step is step `i` of its run, before and after; no other step and no other run is touched. */
  ghost predicate OnlyStep(db: Db, db': Db, worker: Worker, i: nat)
    requires Active(worker) && !worker.Releasing?
  {
    var r := worker.lease.runId;
    r in db.runs && r in db'.runs && |Projection(db', r).steps| == |Projection(db, r).steps|
    && i < |Projection(db, r).steps| && Projection(db, r).steps[i] == worker.step
    && SameDefinition(worker.step, Projection(db', r).steps[i])
    && Projection(db', r).steps[i].attempts == worker.step.attempts
    && (forall h :: 0 <= h < |Projection(db, r).steps| && h != i ==>
          Projection(db', r).steps[h] == Projection(db, r).steps[h])
    && db'.runs.Keys == db.runs.Keys && OthersUntouched(db, db', r)
  }

  /** The first event that the commit appends to the run, about the worker's attempt. */
  predicate Appends(db: Db, db': Db, worker: Worker, eventType: EventType, payload: Payload)
    requires Active(worker) && !worker.Releasing?
  {
    var events, later := RowsOf(db.events, worker.lease.runId), RowsOf(db'.events, worker.lease.runId);
    |events| < |later| && later[..|events|] == events
    && later[|events|].eventType == eventType && later[|events|].payload == payload
    && later[|events|].stepId == Some(worker.step.id) && later[|events|].attempt == Some(worker.step.attempts)
  }

  /** The step waits until `deadline`, and the run goes on. */
  ghost predicate Rescheduled(db: Db, db': Db, worker: Worker, i: nat, deadline: Time, error: string)
    requires Active(worker) && !worker.Releasing?
  {
    OnlyStep(db, db', worker, i) && Projection(db', worker.lease.runId).status.Running?
    && Projection(db', worker.lease.runId).steps[i].status.RetryWait?
    && Projection(db', worker.lease.runId).steps[i].nextAttemptAt == Some(deadline)
    && Projection(db', worker.lease.runId).steps[i].lastError == Some(error)
    && Appends(db, db', worker, StepRetryScheduled, RetryPayload(error, deadline))
    && |RowsOf(db'.events, worker.lease.runId)| == |RowsOf(db.events, worker.lease.runId)| + 1
  }

  /** The step and with it the run has failed for good, and no cooldown has changed. */
  ghost predicate FailedForGood(db: Db, db': Db, worker: Worker, i: nat, error: string)
    requires Active(worker) && !worker.Releasing?
  {
    OnlyStep(db, db', worker, i) && Projection(db', worker.lease.runId).status.RunFailed?
    && Projection(db', worker.lease.runId).steps[i].status.Failed?
    && Projection(db', worker.lease.runId).steps[i].lastError == Some(error)
    && Appends(db, db', worker, StepFailed, FailedPayload(error))
    && |RowsOf(db'.events, worker.lease.runId)| == |RowsOf(db.events, worker.lease.runId)| + 2
    && db'.throttles == db.throttles
  }

  /** The step is completed with this result, and the run if no other step was missing. */
  ghost predicate CompletedWith(db: Db, db': Db, worker: Worker, i: nat, result: ToolResult, now: Time)
    requires Active(worker) && !worker.Releasing?
  {
    OnlyStep(db, db', worker, i)
    && Projection(db', worker.lease.runId).steps[i].status.Completed?
    && Projection(db', worker.lease.runId).steps[i].output == Some(result)
    && Projection(db', worker.lease.runId).steps[i].completedAt == Some(now)
    && (Projection(db', worker.lease.runId).status.RunCompleted? <==>
          forall h :: 0 <= h < |Projection(db, worker.lease.runId).steps| && h != i ==>
            Projection(db, worker.lease.runId).steps[h].status.Completed?)
    && !Projection(db', worker.lease.runId).status.RunFailed?
    && Appends(db, db', worker, StepCompleted, CompletedPayload(result))
    && db'.throttles == db.throttles
  }

  /** The tool cools down at least until `deadline` and not shorter than before, for the reason of the later of the two
      ends; all other tools as before. */
  ghost predicate Cooled(throttles: map<string, Throttle>, throttles': map<string, Throttle>, toolKey: string,
                         deadline: Time, reason: string)
  {
    toolKey in throttles' && throttles'[toolKey].blockedUntil >= deadline
    && (toolKey in throttles ==> throttles'[toolKey].blockedUntil >= throttles[toolKey].blockedUntil)
    && (throttles'[toolKey].blockedUntil == deadline
        || (toolKey in throttles && throttles'[toolKey].blockedUntil == throttles[toolKey].blockedUntil))
    && throttles'[toolKey].reason == (if toolKey in throttles && throttles[toolKey].blockedUntil > deadline
                                      then throttles[toolKey].reason else reason)
    && forall key :: key != toolKey ==>
         (key in throttles' <==> key in throttles) && (key in throttles ==> throttles'[key] == throttles[key])
  }

  /** The delay before the next attempt: the provider's if there is one, otherwise base * 2^(n-1), capped. */
  function DelayAfter(settings: Settings, attempt: int, retryAfter: Option<Time>): Time
    requires attempt >= 1
  {
    if retryAfter.Some? then retryAfter.value
    else
      var backoff := settings.baseBackoff * Pow2(attempt - 1);
      if backoff <= settings.maxBackoff then backoff else settings.maxBackoff
  }

  /** The retry policy: another attempt after exactly this delay while attempts are left, or else failure. A throttling
      cools the tool down as long as it delays the step; nothing else changes a cooldown. */
  ghost predicate TriesAgainOrGivesUp(settings: Settings, db: Db, db': Db, worker: Worker, i: nat, clock: Time,
                                      error: string, retryAfter: Option<Time>, throttleTool: bool)
    requires Active(worker) && !worker.Releasing? && worker.step.attempts >= 1
  {
    var deadline := clock + DelayAfter(settings, worker.step.attempts, retryAfter);
    if worker.step.attempts < settings.maxAttempts
    then Rescheduled(db, db', worker, i, deadline, error)
         && (if throttleTool then Cooled(db.throttles, db'.throttles, worker.step.toolKey, deadline, error)
             else db'.throttles == db.throttles)
    else FailedForGood(db, db', worker, i, "retry budget exhausted: " + error)
  }

  // ----- one commit -----

  lemma FailLeaves(db: Db, db': Db, worker: Worker, i: nat, error: string, now: Time)
    requires Active(worker) && !worker.Releasing? && FailCommitted(db, db', worker, i, error, now)
    ensures FailedForGood(db, db', worker, i, error)
  {
  }

  lemma RetryLeaves(db: Db, db': Db, worker: Worker, i: nat, error: string, deadline: Time, throttleTool: bool,
                    now: Time)
    requires Active(worker) && !worker.Releasing?
             && RetryCommitted(db, db', worker, i, error, deadline, throttleTool, now)
    requires db.runs[worker.lease.runId].status.Running?
    ensures Rescheduled(db, db', worker, i, deadline, error)
    ensures if throttleTool then Cooled(db.throttles, db'.throttles, worker.step.toolKey, deadline, error)
            else db'.throttles == db.throttles
  {
    CooldownsLeave(db.throttles, throttleTool, worker.step.toolKey, deadline, error, now);
  }

  lemma CooldownsLeave(throttles: map<string, Throttle>, throttleTool: bool, toolKey: string, deadline: Time,
                       reason: string, now: Time)
    ensures var throttles' := Cooldowns(throttles, throttleTool, toolKey, deadline, reason, now);
            if throttleTool then Cooled(throttles, throttles', toolKey, deadline, reason) else throttles' == throttles
  {
  }

  lemma CompletionLeaves(db: Db, db': Db, worker: Worker, i: nat, result: ToolResult, last: bool, now: Time)
    requires Active(worker) && !worker.Releasing? && CompleteCommitted(db, db', worker, i, result, last, now)
    requires DbInv(db) && db.runs[worker.lease.runId].status.Running?
    ensures CompletedWith(db, db', worker, i, result, now)
  {
    CompletedStepLeaves(db, db', worker, i, result, last, now);
    RunFacts(db, worker.lease.runId);
    RunFacts(db', worker.lease.runId);
    StatusAfterCompletion(Projection(db, worker.lease.runId), Projection(db', worker.lease.runId), i);
  }

  lemma CompletedStepLeaves(db: Db, db': Db, worker: Worker, i: nat, result: ToolResult, last: bool, now: Time)
    requires Active(worker) && !worker.Releasing? && CompleteCommitted(db, db', worker, i, result, last, now)
    ensures OnlyStep(db, db', worker, i) && DbInv(db')
    ensures var step := Projection(db', worker.lease.runId).steps[i];
            step.status.Completed? && step.output == Some(result) && step.completedAt == Some(now)
    ensures Appends(db, db', worker, StepCompleted, CompletedPayload(result)) && db'.throttles == db.throttles
  {
  }

  lemma StatusAfterCompletion(before: WorkflowRun, after: WorkflowRun, i: nat)
    requires StatusExact(before) && before.status.Running? && StatusExact(after)
    requires |after.steps| == |before.steps| && i < |after.steps| && after.steps[i].status.Completed?
    requires forall h :: 0 <= h < |before.steps| && h != i ==> after.steps[h] == before.steps[h]
    ensures after.status.RunCompleted? <==>
            forall h :: 0 <= h < |before.steps| && h != i ==> before.steps[h].status.Completed?
    ensures !after.status.RunFailed?
  {
    assert !SomeStepFailed(before);
  }

  /** A permanent refusal fails the step and the run. */
  lemma PermanentLeaves(cfg: Config, s: System, s': System, worker: Worker, clock: Time, leaseNow: Time, now: Time)
    returns (i: nat)
    requires DbInv(s.db) && WorkerInv(s.db, s.ledger, worker) && worker.Answered? && worker.outcome.Permanent?
    requires PassesLeaseCheck(s.db, worker.lease, leaseNow)
    requires s' == CommitOutcome(cfg, s, worker.step, worker.lease, worker.outcome, clock, leaseNow, now)
    ensures FailedForGood(s.db, s'.db, worker, i, worker.outcome.error)
  {
    i := FailureLeaves(s, s', worker, worker.outcome.error, leaseNow, now);
  }

  lemma FailureLeaves(s: System, s': System, worker: Worker, error: string, leaseNow: Time, now: Time)
    returns (i: nat)
    requires DbInv(s.db) && WorkerInv(s.db, s.ledger, worker) && worker.Answered?
    requires PassesLeaseCheck(s.db, worker.lease, leaseNow)
    requires s' == FailAttempt(s, worker.step, worker.lease, error, leaseNow, now)
    ensures FailedForGood(s.db, s'.db, worker, i, error)
  {
    ActiveExactlyForHolder(s.db, s.ledger, worker, leaseNow);
    var result := FailStep(s.db, worker.lease.runId, worker.step.id, error, Some(worker.lease.ownerId),
                           Some(worker.lease.fenceToken), leaseNow, now);
    i := FailBy(s.db, s.ledger, worker, result.value, error, leaseNow, now);
    FailLeaves(s.db, result.value, worker, i, error, now);
  }

  lemma HolderRuns(db: Db, ledger: LedgerTables, worker: Worker, leaseNow: Time)
    requires DbInv(db) && WorkerInv(db, ledger, worker) && Active(worker) && !worker.Releasing?
    requires PassesLeaseCheck(db, worker.lease, leaseNow)
    ensures db.runs[worker.lease.runId].status.Running?
  {
    var i := HolderSeesStep(db, ledger, worker, leaseNow);
  }

  lemma RetryOutcome(db: Db, ledger: LedgerTables, worker: Worker, db': Db, error: string, deadline: Time,
                     throttleTool: bool, leaseNow: Time, now: Time)
    returns (i: nat)
    requires DbInv(db) && WorkerInv(db, ledger, worker) && worker.Answered?
    requires PassesLeaseCheck(db, worker.lease, leaseNow)
    requires ScheduleRetry(db, worker.lease.runId, worker.step.id, error, deadline, Some(worker.lease.ownerId),
                           Some(worker.lease.fenceToken), throttleTool, leaseNow, now) == Ok(db')
    ensures Rescheduled(db, db', worker, i, deadline, error)
    ensures if throttleTool then Cooled(db.throttles, db'.throttles, worker.step.toolKey, deadline, error)
            else db'.throttles == db.throttles
  {
    HolderRuns(db, ledger, worker, leaseNow);
    i := RetryNamed(db, ledger, worker, db', error, deadline, throttleTool, leaseNow, now);
    RetryLeaves(db, db', worker, i, error, deadline, throttleTool, now);
  }

  lemma RetryLeft(s: System, s': System, worker: Worker, error: string, throttleTool: bool, delay: Time, local: bool,
                  clock: Time, leaseNow: Time, now: Time)
    returns (i: nat)
    requires DbInv(s.db) && WorkerInv(s.db, s.ledger, worker) && worker.Answered?
    requires PassesLeaseCheck(s.db, worker.lease, leaseNow)
    requires s' == RetryAttempt(s, worker.step, worker.lease, error, throttleTool, delay, local, clock, leaseNow, now)
    ensures Rescheduled(s.db, s'.db, worker, i, clock + delay, error)
    ensures if throttleTool then Cooled(s.db.throttles, s'.db.throttles, worker.step.toolKey, clock + delay, error)
            else s'.db.throttles == s.db.throttles
  {
    ActiveExactlyForHolder(s.db, s.ledger, worker, leaseNow);
    i := RetryOutcome(s.db, s.ledger, worker, s'.db, error, clock + delay, throttleTool, leaseNow, now);
  }

  lemma RetryableCases(cfg: Config, s: System, step: StepRecord, lease: Lease, error: string, retryAfter: Option<Time>,
                       throttleTool: bool, delay: Time, clock: Time, leaseNow: Time, now: Time)
    requires step.attempts >= 1 && delay == DelayAfter(cfg.settings, step.attempts, retryAfter)
    ensures CommitOutcome(cfg, s, step, lease, Retryable(error, retryAfter, throttleTool), clock, leaseNow, now) ==
            if step.attempts < cfg.settings.maxAttempts
            then RetryAttempt(s, step, lease, error, throttleTool, delay, retryAfter.None?, clock, leaseNow, now)
            else FailAttempt(s, step, lease, "retry budget exhausted: " + error, leaseNow, now)
  {
    DoubledIsPower(cfg.settings.baseBackoff, step.attempts - 1);
  }

  lemma LastTryLeaves(cfg: Config, s: System, s': System, worker: Worker, error: string, retryAfter: Option<Time>,
                      throttleTool: bool, clock: Time, leaseNow: Time, now: Time)
    returns (i: nat)
    requires DbInv(s.db) && WorkerInv(s.db, s.ledger, worker)
    requires worker.Answered? && worker.outcome == Retryable(error, retryAfter, throttleTool)
    requires PassesLeaseCheck(s.db, worker.lease, leaseNow) && worker.step.attempts >= cfg.settings.maxAttempts
    requires s' == CommitOutcome(cfg, s, worker.step, worker.lease, worker.outcome, clock, leaseNow, now)
    ensures TriesAgainOrGivesUp(cfg.settings, s.db, s'.db, worker, i, clock, error, retryAfter, throttleTool)
  {
    RetryableCases(cfg, s, worker.step, worker.lease, error, retryAfter, throttleTool,
                   DelayAfter(cfg.settings, worker.step.attempts, retryAfter), clock, leaseNow, now);
    i := FailureLeaves(s, s', worker, "retry budget exhausted: " + error, leaseNow, now);
  }

  lemma PolicyTried(settings: Settings, db: Db, db': Db, worker: Worker, i: nat, clock: Time, delay: Time,
                    error: string, retryAfter: Option<Time>, throttleTool: bool)
    requires Active(worker) && !worker.Releasing? && 1 <= worker.step.attempts < settings.maxAttempts
    requires delay == DelayAfter(settings, worker.step.attempts, retryAfter)
    requires Rescheduled(db, db', worker, i, clock + delay, error)
    requires if throttleTool then Cooled(db.throttles, db'.throttles, worker.step.toolKey, clock + delay, error)
             else db'.throttles == db.throttles
    ensures TriesAgainOrGivesUp(settings, db, db', worker, i, clock, error, retryAfter, throttleTool)
  {
  }

  lemma EarlyTryLeaves(cfg: Config, s: System, s': System, worker: Worker, error: string, retryAfter: Option<Time>,
                       throttleTool: bool, clock: Time, leaseNow: Time, now: Time)
    returns (i: nat)
    requires DbInv(s.db) && WorkerInv(s.db, s.ledger, worker)
    requires worker.Answered? && worker.outcome == Retryable(error, retryAfter, throttleTool)
    requires PassesLeaseCheck(s.db, worker.lease, leaseNow) && worker.step.attempts < cfg.settings.maxAttempts
    requires s' == CommitOutcome(cfg, s, worker.step, worker.lease, worker.outcome, clock, leaseNow, now)
    ensures TriesAgainOrGivesUp(cfg.settings, s.db, s'.db, worker, i, clock, error, retryAfter, throttleTool)
  {
    var delay := DelayAfter(cfg.settings, worker.step.attempts, retryAfter);
    RetryableCases(cfg, s, worker.step, worker.lease, error, retryAfter, throttleTool, delay, clock, leaseNow, now);
    i := RetryLeft(s, s', worker, error, throttleTool, delay, retryAfter.None?, clock, leaseNow, now);
    PolicyTried(cfg.settings, s.db, s'.db, worker, i, clock, delay, error, retryAfter, throttleTool);
  }

  /** A retryable outcome leads to another attempt exactly while fewer than `maxAttempts` were made. */
  lemma RetryableLeaves(cfg: Config, s: System, s': System, worker: Worker, error: string, retryAfter: Option<Time>,
                        throttleTool: bool, clock: Time, leaseNow: Time, now: Time)
    returns (i: nat)
    requires DbInv(s.db) && WorkerInv(s.db, s.ledger, worker)
    requires worker.Answered? && worker.outcome == Retryable(error, retryAfter, throttleTool)
    requires PassesLeaseCheck(s.db, worker.lease, leaseNow)
    requires s' == CommitOutcome(cfg, s, worker.step, worker.lease, worker.outcome, clock, leaseNow, now)
    ensures TriesAgainOrGivesUp(cfg.settings, s.db, s'.db, worker, i, clock, error, retryAfter, throttleTool)
  {
    if worker.step.attempts < cfg.settings.maxAttempts {
      i := EarlyTryLeaves(cfg, s, s', worker, error, retryAfter, throttleTool, clock, leaseNow, now);
    } else {
      i := LastTryLeaves(cfg, s, s', worker, error, retryAfter, throttleTool, clock, leaseNow, now);
    }
  }

  /** A result completes the step. */
  lemma SuccessLeaves(cfg: Config, s: System, s': System, worker: Worker, clock: Time, leaseNow: Time, now: Time)
    returns (i: nat)
    requires DbInv(s.db) && WorkerInv(s.db, s.ledger, worker) && worker.Answered? && worker.outcome.Success?
    requires PassesLeaseCheck(s.db, worker.lease, leaseNow)
    requires s' == CommitOutcome(cfg, s, worker.step, worker.lease, worker.outcome, clock, leaseNow, now)
    ensures CompletedWith(s.db, s'.db, worker, i, worker.outcome.result, now)
  {
    ActiveExactlyForHolder(s.db, s.ledger, worker, leaseNow);
    var result := CompleteStep(s.db, worker.lease.runId, worker.step.id, worker.outcome.result,
                               Some(worker.lease.ownerId), Some(worker.lease.fenceToken), leaseNow, now);
    HolderRuns(s.db, s.ledger, worker, leaseNow);
    var last;
    i, last := CompleteBy(s.db, s.ledger, worker, result.value, worker.outcome.result, leaseNow, now);
    CompletionLeaves(s.db, result.value, worker, i, worker.outcome.result, last, now);
  }

  // ----- from the answer to the commit -----

  /** The action is one of this worker. */
  predicate By(a: Action, w: nat) {
    match a
    case Claim(v, _, _, _, _) => v == w
    case Record(v, _, _) => v == w
    case Send(v) => v == w
    case Receive(v, _) => v == w
    case TransportError(v, _) => v == w
    case Commit(v, _, _, _) => v == w
    case Release(v, _) => v == w
    case Abort(v) => v == w
    case Crash(v) => v == w
    case _ => false
  }

  lemma OthersLeaveWorker(cfg: Config, s: System, a: Action, w: nat)
    requires Enabled(s, a) && !By(a, w)
    ensures WorkerAt(Do(cfg, s, a), w) == WorkerAt(s, w)
  {
    match a
    case Record(v, leaseNow, now) => RecordKeepsStep(s, v, leaseNow, now);
    case Commit(v, clock, leaseNow, now) =>
      CommitKeepsWorkers(cfg, s, WorkerAt(s, v).step, WorkerAt(s, v).lease, WorkerAt(s, v).outcome, clock, leaseNow,
                         now);
    case ToolLookup(sent, throttled, retryAfter) => ToolKeepsWorkers(cfg, s, sent, throttled, retryAfter, "", 0);
    case ToolApply(sent, referenceId, now) => ToolKeepsWorkers(cfg, s, sent, false, None, referenceId, now);
    case _ =>
  }

  lemma {:induction false} WorkerStands(cfg: Config, states: seq<System>, actions: seq<Action>, j: nat, k: nat, w: nat)
    requires Protocol.Execution(cfg, states, actions) && j <= k < |states|
    requires forall m :: j <= m < k ==> !By(actions[m], w)
    ensures WorkerAt(states[k], w) == WorkerAt(states[j], w)
    decreases k - j
  {
    if j < k {
      var m := k - 1;
      WorkerStands(cfg, states, actions, j, m, w);
      assert Step(cfg, states[m], actions[m], states[m + 1]);
      OthersLeaveWorker(cfg, states[m], actions[m], w);
    }
  }

  /** Action `k` commits, under a live lease, the answer that the same worker got with action `j`. */
  ghost predicate Commits(states: seq<System>, actions: seq<Action>, j: nat, k: nat)
    requires |states| == |actions| + 1
  {
    j < k < |actions| && (actions[j].Receive? || actions[j].TransportError?)
    && actions[k].Commit? && actions[k].worker == actions[j].worker
    && (forall m :: j < m < k ==> !By(actions[m], actions[k].worker))
    && !WorkerAt(states[k], actions[k].worker).Idle?
    && PassesLeaseCheck(states[k].db, WorkerAt(states[k], actions[k].worker).lease, actions[k].leaseNow)
  }

  lemma OutcomeHeard(cfg: Config, states: seq<System>, actions: seq<Action>, j: nat)
    requires Protocol.Execution(cfg, states, actions) && j < |actions|
    requires actions[j].Receive? || actions[j].TransportError?
    ensures WorkerAt(states[j + 1], actions[j].worker).Answered?
    ensures WorkerAt(states[j + 1], actions[j].worker).outcome ==
            if actions[j].Receive? then Interpret(actions[j].http) else NoAnswer(actions[j].detail)
  {
    assert Step(cfg, states[j], actions[j], states[j + 1]);
  }

  lemma CommitStands(cfg: Config, states: seq<System>, actions: seq<Action>, k: nat)
    requires Protocol.Execution(cfg, states, actions) && k < |actions| && actions[k].Commit?
    ensures WorkerAt(states[k], actions[k].worker).Answered?
    ensures var worker := WorkerAt(states[k], actions[k].worker);
            states[k + 1].db == CommitOutcome(cfg, states[k], worker.step, worker.lease, worker.outcome,
                                              actions[k].clock, actions[k].leaseNow, actions[k].now).db
  {
    assert Step(cfg, states[k], actions[k], states[k + 1]);
  }

  /** The committing worker still has the outcome it was given, and its attempt is one of its run. */
  lemma AnswerStands(cfg: Config, states: seq<System>, actions: seq<Action>, j: nat, k: nat) returns (worker: Worker)
    requires Protocol.Execution(cfg, states, actions) && Commits(states, actions, j, k)
    ensures worker == WorkerAt(states[k], actions[k].worker) && worker.Answered? && worker.step.attempts >= 1
    ensures worker.outcome == if actions[j].Receive? then Interpret(actions[j].http)
                              else NoAnswer(actions[j].detail)
    ensures DbInv(states[k].db) && WorkerInv(states[k].db, states[k].ledger, worker)
  {
    worker := WorkerAt(states[k], actions[k].worker);
    OutcomeHeard(cfg, states, actions, j);
    WorkerStands(cfg, states, actions, j + 1, k, actions[k].worker);
    InvariantHolds(cfg, states, actions, k);
    WorkerInvAt(cfg, states[k], actions[k].worker);
  }

  /** A retryable outcome is retried if and only if fewer than `maxAttempts` attempts were made: the appended event is
      the retry after the policy's delay, or else the failure of a step that has had all its attempts. */
  lemma RetriedExactly(cfg: Config, states: seq<System>, actions: seq<Action>, k: nat) returns (i: nat)
    requires Protocol.Execution(cfg, states, actions) && k < |actions| && actions[k].Commit?
    requires WorkerAt(states[k], actions[k].worker).Answered?
             && WorkerAt(states[k], actions[k].worker).outcome.Retryable?
    requires PassesLeaseCheck(states[k].db, WorkerAt(states[k], actions[k].worker).lease, actions[k].leaseNow)
    ensures WorkerAt(states[k], actions[k].worker).step.attempts >= 1
    ensures var worker := WorkerAt(states[k], actions[k].worker);
            TriesAgainOrGivesUp(cfg.settings, states[k].db, states[k + 1].db, worker, i, actions[k].clock,
                                worker.outcome.error, worker.outcome.retryAfter, worker.outcome.throttleTool)
  {
    var worker := WorkerAt(states[k], actions[k].worker);
    InvariantHolds(cfg, states, actions, k);
    WorkerInvAt(cfg, states[k], actions[k].worker);
    assert Step(cfg, states[k], actions[k], states[k + 1]);
    i := RetryableLeaves(cfg, states[k], CommitOutcome(cfg, states[k], worker.step, worker.lease, worker.outcome,
                                                       actions[k].clock, actions[k].leaseNow, actions[k].now),
                         worker, worker.outcome.error, worker.outcome.retryAfter, worker.outcome.throttleTool,
                         actions[k].clock, actions[k].leaseNow, actions[k].now);
  }

  /** Status 429: while attempts are left, the step waits for the provider's deadline if the answer names one and for
      the engine's own backoff otherwise, and its tool cools down that long for all runs. */
  lemma ThrottledIsRetried(cfg: Config, states: seq<System>, actions: seq<Action>, j: nat, k: nat) returns (i: nat)
    requires Protocol.Execution(cfg, states, actions) && Commits(states, actions, j, k)
    requires actions[j].Receive? && actions[j].http.status == 429
    ensures var worker := WorkerAt(states[k], actions[k].worker);
            worker.Answered? && worker.step.attempts >= 1
            && TriesAgainOrGivesUp(cfg.settings, states[k].db, states[k + 1].db, worker, i, actions[k].clock,
                                   "tool throttled the request", actions[j].http.retryAfter, true)
  {
    var worker := AnswerStands(cfg, states, actions, j, k);
    i := RetriedExactly(cfg, states, actions, k);
  }

  /** A server error or no answer at all: while attempts are left, the step waits for the engine's own backoff, whatever
      the headers say, and no tool cools down. */
  lemma FaultIsRetried(cfg: Config, states: seq<System>, actions: seq<Action>, j: nat, k: nat) returns (i: nat)
    requires Protocol.Execution(cfg, states, actions) && Commits(states, actions, j, k)
    requires actions[j].TransportError? || 500 <= actions[j].http.status < 600
    ensures var worker := WorkerAt(states[k], actions[k].worker);
            worker.Answered? && worker.step.attempts >= 1
            && TriesAgainOrGivesUp(cfg.settings, states[k].db, states[k + 1].db, worker, i, actions[k].clock,
                                   if actions[j].TransportError? then "tool transport error: " + actions[j].detail
                                   else "tool returned HTTP " + Decimal(actions[j].http.status),
                                   None, false)
  {
    var worker := AnswerStands(cfg, states, actions, j, k);
    i := RetriedExactly(cfg, states, actions, k);
  }

  /** A conflict or any other client error: the run fails at once, whatever attempts are left. */
  lemma RefusalFails(cfg: Config, states: seq<System>, actions: seq<Action>, j: nat, k: nat) returns (i: nat)
    requires Protocol.Execution(cfg, states, actions) && Commits(states, actions, j, k)
    requires actions[j].Receive? && 400 <= actions[j].http.status < 500 && actions[j].http.status != 429
    ensures WorkerAt(states[k], actions[k].worker).Answered?
    ensures FailedForGood(states[k].db, states[k + 1].db, WorkerAt(states[k], actions[k].worker), i,
                          if actions[j].http.status == 409
                          then "idempotency key was reused with a different request"
                          else "tool returned HTTP " + Decimal(actions[j].http.status) + ": " + actions[j].http.detail)
  {
    var worker := AnswerStands(cfg, states, actions, j, k);
    CommitStands(cfg, states, actions, k);
    i := PermanentLeaves(cfg, states[k], CommitOutcome(cfg, states[k], worker.step, worker.lease, worker.outcome,
                                                       actions[k].clock, actions[k].leaseNow, actions[k].now),
                         worker, actions[k].clock, actions[k].leaseNow, actions[k].now);
  }

  /** Any other status: a result in the body completes the step with this result, and without one nothing is written. */
  lemma ResultCompletes(cfg: Config, states: seq<System>, actions: seq<Action>, j: nat, k: nat) returns (i: nat)
    requires Protocol.Execution(cfg, states, actions) && Commits(states, actions, j, k)
    requires actions[j].Receive? && !(400 <= actions[j].http.status < 600)
    ensures WorkerAt(states[k], actions[k].worker).Answered?
    ensures actions[j].http.body.Some? ==>
              CompletedWith(states[k].db, states[k + 1].db, WorkerAt(states[k], actions[k].worker), i,
                            actions[j].http.body.value, actions[k].now)
    ensures actions[j].http.body.None? ==> states[k + 1].db == states[k].db
  {
    var worker := AnswerStands(cfg, states, actions, j, k);
    CommitStands(cfg, states, actions, k);
    i := 0;
    if actions[j].http.body.Some? {
      i := SuccessLeaves(cfg, states[k], CommitOutcome(cfg, states[k], worker.step, worker.lease, worker.outcome,
                                                       actions[k].clock, actions[k].leaseNow, actions[k].now),
                         worker, actions[k].clock, actions[k].leaseNow, actions[k].now);
    }
  }

  // ----- before the call: the recorded intent -----

  /** The intent is on record: one event names attempt, request, owner and fence, and the step is under way. */
  ghost predicate IntentStored(db: Db, db': Db, lease: Lease, step: StepRecord, i: nat, now: Time) {
    var r := lease.runId;
    r in db.runs && r in db'.runs && i < |Projection(db, r).steps| == |Projection(db', r).steps|
    && Projection(db, r).steps[i] == step && SameDefinition(step, Projection(db', r).steps[i])
    && Projection(db', r).steps[i].status.IntentRecorded?
    && Projection(db', r).steps[i].attempts == step.attempts + 1
    && Projection(db', r).steps[i].nextAttemptAt.None? && Projection(db', r).steps[i].lastError.None?
    && (forall h :: 0 <= h < |Projection(db, r).steps| && h != i ==>
          Projection(db', r).steps[h] == Projection(db, r).steps[h])
    && db'.runs.Keys == db.runs.Keys && OthersUntouched(db, db', r)
    && Projection(db', r).status.Running? && db'.throttles == db.throttles
    && RowsOf(db'.events, r) == RowsOf(db.events, r)
         + [Event(r, |RowsOf(db.events, r)| + 1, StepAttemptStarted, 2, Some(step.id), Some(step.attempts + 1),
                  StartedPayload(step.operation, step.request, step.operationKey, Some(lease.ownerId),
                                 Some(lease.fenceToken)), now)]
  }

  lemma RecordStores(db: Db, ledger: LedgerTables, step: StepRecord, lease: Lease, leaseNow: Time, now: Time)
    returns (i: nat)
    requires DbInv(db) && WorkerInv(db, ledger, Claimed(step, lease))
    requires RecordAttempt(db, lease.runId, step.id, Some(lease.ownerId), Some(lease.fenceToken), leaseNow, now).Ok?
    ensures var (db', recorded) :=
              RecordAttempt(db, lease.runId, step.id, Some(lease.ownerId), Some(lease.fenceToken), leaseNow, now).value;
            IntentStored(db, db', lease, step, i, now) && recorded == Projection(db', lease.runId).steps[i]
  {
    i := RecordBy(db, ledger, step, lease, leaseNow, now);
    RunFacts(db, lease.runId);
  }

  /** Recording a claimed step under a live lease stores the intent of its next attempt; without one it stores nothing,
      and no request is ever sent. */
  lemma IntentIsStored(cfg: Config, states: seq<System>, actions: seq<Action>, k: nat) returns (i: nat)
    requires Protocol.Execution(cfg, states, actions) && k < |actions| && actions[k].Record?
    ensures WorkerAt(states[k], actions[k].worker).Claimed?
    ensures var db, db', worker := states[k].db, states[k + 1].db, WorkerAt(states[k], actions[k].worker);
            if PassesLeaseCheck(db, worker.lease, actions[k].leaseNow)
            then IntentStored(db, db', worker.lease, worker.step, i, actions[k].now)
                 && WorkerAt(states[k + 1], actions[k].worker) ==
                    Recorded(Projection(db', worker.lease.runId).steps[i], worker.lease)
            else db' == db && WorkerAt(states[k + 1], actions[k].worker) == Releasing(worker.lease)
  {
    assert Step(cfg, states[k], actions[k], states[k + 1]);
    var worker := WorkerAt(states[k], actions[k].worker);
    InvariantHolds(cfg, states, actions, k);
    WorkerInvAt(cfg, states[k], actions[k].worker);
    ClaimThenRecordAtomic(cfg, states, actions, k, actions[k].worker, actions[k].leaseNow, actions[k].now);
    i := 0;
    if PassesLeaseCheck(states[k].db, worker.lease, actions[k].leaseNow) {
      i := RecordStores(states[k].db, states[k].ledger, worker.step, worker.lease, actions[k].leaseNow,
                        actions[k].now);
    }
  }
}
