/** Workers, network and tool as one state machine. Every action is one transaction, one message or one crash;
    clock readings, owners, the choice among equally ranked rows and all delivery orders are arbitrary. */
module Protocol {
  import opened Models
  import opened Graph
  import opened Database
  import opened Gateway
  import opened Ledger

  datatype Config = Config(settings: Settings, digest: Digest)

  /** A request on the wire, with the attempt it belongs to. */
  datatype Sent = Sent(runId: string, stepId: string, attempt: int, fence: int,
                       operation: Operation, operationKey: string, request: Request)

  datatype Reply = Reply(sent: Sent, http: HttpReply)

  /** Where one worker stands in `run_once`. */
  datatype Worker =
    | Idle
    | Claimed(step: StepRecord, lease: Lease)
    | Recorded(step: StepRecord, lease: Lease)
    | Waiting(step: StepRecord, lease: Lease)
    | Answered(step: StepRecord, lease: Lease, outcome: Outcome)
    | Releasing(lease: Lease)

  /** History variable: one entry per committed retry. */
  datatype RetryEntry = RetryEntry(runId: string, sequence: int, stepId: string, toolKey: string, attempt: int,
                                   delay: Time, local: bool, deadline: Time, throttled: bool)

  datatype System = System(
    db: Db,
    workers: map<nat, Worker>,
    ledger: LedgerTables,
    sent: set<Sent>,
    admitted: set<Sent>,  // looked up without a cached result, not yet applied
    replies: set<Reply>,
    retries: seq<RetryEntry>)

  datatype Action =
    | Create(runId: string, definition: WorkflowDefinition, toolKey: string, now: Time)
    | Claim(worker: nat, ownerId: string, ttl: Time, now: Time, pick: Option<(string, nat)>)
    | Record(worker: nat, leaseNow: Time, now: Time)
    | Send(worker: nat)
    | Receive(worker: nat, http: HttpReply)
    | TransportError(worker: nat, detail: string)
    | Commit(worker: nat, clock: Time, leaseNow: Time, now: Time)
    | Release(worker: nat, now: Time)
    | Abort(worker: nat)  // an exception unwinds run_once to its finally block
    | Crash(worker: nat)
    | Renew(runId: string, ownerId: string, fenceToken: int, ttl: Time, now: Time)
    | ToolLookup(sent: Sent, throttled: bool, retryAfter: Option<Time>)
    | ToolApply(sent: Sent, referenceId: string, now: Time)
    | ToolFault(sent: Sent, status: int, detail: string)  // any other answer, without a result in its body

  function WorkerAt(s: System, w: nat): Worker {
    if w in s.workers then s.workers[w] else Idle
  }

  function SetWorker(s: System, w: nat, worker: Worker): System {
    s.(workers := s.workers[w := worker])
  }

  function SentFor(step: StepRecord, lease: Lease): Sent {
    Sent(lease.runId, step.id, step.attempts, lease.fenceToken, step.operation, step.operationKey, step.request)
  }

  ghost predicate Enabled(s: System, a: Action) {
    match a
    case Create(runId, definition, _, _) => IsRunId(runId) && AcceptedDefinition(definition)
    case Claim(w, _, _, now, None) => WorkerAt(s, w).Idle? && forall r: string, i: nat :: !Selectable(s.db, now, r, i)
    case Claim(w, _, _, now, Some(pick)) => WorkerAt(s, w).Idle? && Selected(s.db, now, pick.0, pick.1)
    case Record(w, _, _) => WorkerAt(s, w).Claimed?
    case Send(w) => WorkerAt(s, w).Recorded?
    case Receive(w, http) =>
      WorkerAt(s, w).Waiting? && Reply(SentFor(WorkerAt(s, w).step, WorkerAt(s, w).lease), http) in s.replies
    case TransportError(w, _) => WorkerAt(s, w).Waiting?
    case Commit(w, _, _, _) => WorkerAt(s, w).Answered?
    case Release(w, _) => WorkerAt(s, w).Releasing?
    case Abort(w) => !WorkerAt(s, w).Idle?
    case Crash(w) => true
    case Renew(_, _, _, _, _) => true
    case ToolLookup(sent, _, _) => sent in s.sent
    case ToolApply(sent, _, _) => sent in s.admitted
    case ToolFault(sent, status, _) => sent in s.sent && 200 <= status < 600 && status != 409 && status != 429
  }

  // ----- engine steps -----

  function DoClaim(s: System, w: nat, ownerId: string, ttl: Time, now: Time, runId: string, i: nat): System
    requires runId in s.db.runs && i < |RowsOf(s.db.steps, runId)|
  {
    SetWorker(s.(db := ClaimStep(s.db, runId, ownerId, ttl, now)), w,
              Claimed(Projection(s.db, runId).steps[i], ClaimLease(s.db, runId, ownerId, ttl, now)))
  }

  function DoRecord(s: System, w: nat, leaseNow: Time, now: Time): System
    requires WorkerAt(s, w).Claimed?
  {
    var Claimed(step, lease) := WorkerAt(s, w);
    match RecordAttempt(s.db, lease.runId, step.id, Some(lease.ownerId), Some(lease.fenceToken), leaseNow, now)
    case Ok((db, recorded)) => SetWorker(s.(db := db), w, Recorded(recorded, lease))
    case Err(_) => SetWorker(s, w, Releasing(lease))
  }

  function FailAttempt(s: System, step: StepRecord, lease: Lease, error: string, leaseNow: Time, now: Time): System {
    match FailStep(s.db, lease.runId, step.id, error, Some(lease.ownerId), Some(lease.fenceToken), leaseNow, now)
    case Ok(db) => s.(db := db)
    case Err(_) => s
  }

  function CompleteAttempt(s: System, step: StepRecord, lease: Lease, result: ToolResult, leaseNow: Time,
                           now: Time): System
  {
    match CompleteStep(s.db, lease.runId, step.id, result, Some(lease.ownerId), Some(lease.fenceToken), leaseNow, now)
    case Ok(db) => s.(db := db)
    case Err(_) => s
  }

  function RetryAttempt(s: System, step: StepRecord, lease: Lease, error: string, throttleTool: bool,
                        delay: Time, local: bool, clock: Time, leaseNow: Time, now: Time): System
  {
    match ScheduleRetry(s.db, lease.runId, step.id, error, clock + delay,
                        Some(lease.ownerId), Some(lease.fenceToken), throttleTool, leaseNow, now)
    case Ok(db) =>
      s.(db := db, retries := s.retries + [
           RetryEntry(lease.runId, NextSequence(RowsOf(s.db.events, lease.runId)), step.id, step.toolKey, step.attempts,
                      delay, local, clock + delay, throttleTool)])
    case Err(_) => s
  }

  /** What the worker commits for the outcome it was given. */
  function CommitOutcome(cfg: Config, s: System, step: StepRecord, lease: Lease, outcome: Outcome,
                         clock: Time, leaseNow: Time, now: Time): System
  {
    match outcome
    case Success(result) => CompleteAttempt(s, step, lease, result, leaseNow, now)
    case Permanent(error) => FailAttempt(s, step, lease, error, leaseNow, now)
    case Unreadable => s
    case Retryable(error, retryAfter, throttleTool) =>
      match Decide(cfg.settings, step.attempts, error, retryAfter)
      case GiveUp(reason) => FailAttempt(s, step, lease, reason, leaseNow, now)
      case TryAgain(delay, local) => RetryAttempt(s, step, lease, error, throttleTool, delay, local, clock, leaseNow,
                                                  now)
  }

  // ----- tool steps -----

  function Answer(s: System, sent: Sent, http: HttpReply): System {
    s.(replies := s.replies + {Reply(sent, http)})
  }

  function Respond(s: System, sent: Sent, status: int, retryAfter: Option<Time>, detail: string): System {
    Answer(s, sent, HttpReply(status, retryAfter, None, detail))
  }

  const CONFLICT := HttpReply(409, None, None, "idempotency key conflicts with an earlier request")

  /** The answer of the first half of `execute`: from the cache, a conflict or a throttling; none lets the request
      through. */
  function LookupReply(ledger: LedgerTables, digest: Digest, operation: Operation, operationKey: string,
                       request: Request, throttled: bool, retryAfter: Option<Time>): Option<HttpReply>
  {
    if !RequestMatches(operation, request) then Some(HttpReply(500, None, None, "invalid payload"))
    else match Find(ledger, digest, operation, operationKey, request)
      case Conflict => Some(CONFLICT)
      case Found(result) => Some(HttpReply(200, None, Some(result), ""))
      case NotFound =>
        if throttled then Some(HttpReply(429, retryAfter, None, "mock tool is temporarily throttled")) else None
  }

  /** The answer of the second half. */
  function ApplyReply(outcome: Application): HttpReply {
    match outcome
    case Applied(result, _) => HttpReply(200, None, Some(result), "")
    case Conflicting => CONFLICT
    case ConstraintViolated => HttpReply(500, None, None, "constraint failed")
  }

  /** The first half of `execute`: answer from the cache, throttle, or admit the request. */
  function DoLookup(cfg: Config, s: System, sent: Sent, throttled: bool, retryAfter: Option<Time>): System {
    match LookupReply(s.ledger, cfg.digest, sent.operation, sent.operationKey, sent.request, throttled, retryAfter)
    case Some(http) => Answer(s, sent, http)
    case None => s.(admitted := s.admitted + {sent})
  }

  /** The second half: the ledger transaction and the answer it gives. */
  function DoApply(cfg: Config, s: System, sent: Sent, referenceId: string, now: Time): System {
    var (ledger, outcome) :=
      Apply(s.ledger, cfg.digest, sent.operation, sent.operationKey, sent.request, referenceId, now);
    Answer(s.(ledger := ledger), sent, ApplyReply(outcome))
  }

  ghost function Do(cfg: Config, s: System, a: Action): System
    requires Enabled(s, a)
  {
    match a
    case Create(runId, definition, toolKey, now) =>
      (match CreateRun(s.db, runId, definition, toolKey, now)
       case Ok(db) => s.(db := db)
       case Err(_) => s)
    case Claim(w, ownerId, ttl, now, None) => s
    case Claim(w, ownerId, ttl, now, Some(pick)) => DoClaim(s, w, ownerId, ttl, now, pick.0, pick.1)
    case Record(w, leaseNow, now) => DoRecord(s, w, leaseNow, now)
    case Send(w) =>
      var Recorded(step, lease) := WorkerAt(s, w);
      SetWorker(s.(sent := s.sent + {SentFor(step, lease)}), w, Waiting(step, lease))
    case Receive(w, http) =>
      SetWorker(s, w, Answered(WorkerAt(s, w).step, WorkerAt(s, w).lease, Interpret(http)))
    case TransportError(w, detail) =>
      SetWorker(s, w, Answered(WorkerAt(s, w).step, WorkerAt(s, w).lease, NoAnswer(detail)))
    case Commit(w, clock, leaseNow, now) =>
      var Answered(step, lease, outcome) := WorkerAt(s, w);
      SetWorker(CommitOutcome(cfg, s, step, lease, outcome, clock, leaseNow, now), w, Releasing(lease))
    case Release(w, now) =>
      var lease := WorkerAt(s, w).lease;
      SetWorker(s.(db := ReleaseLease(s.db, lease.runId, lease.ownerId, lease.fenceToken, now)), w, Idle)
    case Abort(w) => SetWorker(s, w, Releasing(WorkerAt(s, w).lease))
    case Crash(w) => SetWorker(s, w, Idle)
    case Renew(runId, ownerId, fenceToken, ttl, now) => s.(db := RenewLease(s.db, runId, ownerId, fenceToken, ttl, now))
    case ToolLookup(sent, throttled, retryAfter) => DoLookup(cfg, s, sent, throttled, retryAfter)
    case ToolApply(sent, referenceId, now) => DoApply(cfg, s, sent, referenceId, now)
    case ToolFault(sent, status, detail) => Respond(s, sent, status, None, detail)
  }

  // ----- executions -----

  const EMPTY_SYSTEM := System(Db(map[], map[], map[], map[], map[], map[]), map[], LedgerTables([], map[]), {}, {}, {},
                              [])

  ghost predicate Step(cfg: Config, s: System, a: Action, s': System) {
    Enabled(s, a) && s' == Do(cfg, s, a)
  }

  /** A finite execution: `states[0]` is empty and each action leads from one state to the next. */
  ghost predicate Execution(cfg: Config, states: seq<System>, actions: seq<Action>) {
    |states| == |actions| + 1 && states[0] == EMPTY_SYSTEM
    && forall k {:trigger Step(cfg, states[k], actions[k], states[k + 1])} :: 0 <= k < |actions| ==>
         Step(cfg, states[k], actions[k], states[k + 1])
  }
}
