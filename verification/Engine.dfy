/** The engine objects (engine.py): one call of `run_once` against the storage and the tool, without interference, does
    exactly what a sequence of protocol actions does. Interference by other workers is what `Protocol` adds. */
module Engine {
  import opened Models
  import opened Database
  import opened Gateway
  import opened Protocol
  import opened Runs
  import opened Turns
  import opened Completion
  import opened Storage
  import opened ToolService

  datatype RunOutcome = NoWork | Worked(runId: string, operation: Operation)

  /** The database after a retryable outcome has been committed, by the decision of the retry policy. */
  lemma RetryableCommits(cfg: Config, s: System, step: StepRecord, lease: Lease, error: string,
                         retryAfter: Option<Time>, throttleTool: bool, clock: Time, leaseNow: Time, now: Time)
    ensures var result := match Decide(cfg.settings, step.attempts, error, retryAfter)
                          case GiveUp(reason) =>
                            FailStep(s.db, lease.runId, step.id, reason, Some(lease.ownerId), Some(lease.fenceToken),
                                     leaseNow, now)
                          case TryAgain(delay, _) =>
                            ScheduleRetry(s.db, lease.runId, step.id, error, clock + delay, Some(lease.ownerId),
                                          Some(lease.fenceToken), throttleTool, leaseNow, now);
            CommitOutcome(cfg, s, step, lease, Retryable(error, retryAfter, throttleTool), clock, leaseNow, now).db ==
            if result.Ok? then result.value else s.db
  {
  }

  class WorkflowEngine {
    const storage: SQLiteStorage
    const tool: MockTool
    const settings: Settings
    const leaseTtl: Time
    const workerId: string
    ghost const slot: nat

    constructor (storage: SQLiteStorage, tool: MockTool, settings: Settings, leaseTtl: Time, workerId: string,
                 ghost slot: nat)
      ensures this.storage == storage && this.tool == tool && this.settings == settings
      ensures this.leaseTtl == leaseTtl && this.workerId == workerId && this.slot == slot
    {
      this.storage, this.tool, this.settings := storage, tool, settings;
      this.leaseTtl, this.workerId, this.slot := leaseTtl, workerId, slot;
    }

    ghost function Cfg(): Config {
      Config(settings, tool.store.digest)
    }

    ghost function CallOf(readings: Readings, delivery: Delivery): Call {
      Call(slot, workerId, leaseTtl, readings, delivery)
    }

    /** The protocol state describes this storage and this tool. */
    ghost predicate Describes(s: System)
      reads storage, tool, tool.store
    {
      s.db == storage.Contents() && s.ledger == tool.store.Contents()
    }

    /** One HTTP call and its translation into an outcome. */
    method CallTool(step: StepRecord, lease: Lease, ghost readings: Readings, delivery: Delivery, ghost s: System)
      returns (outcome: Outcome, ghost s': System, ghost actions: seq<Action>)
      requires Describes(s) && WorkerAt(s, slot) == Waiting(step, lease) && SentFor(step, lease) in s.sent
      modifies tool, tool.store
      ensures Run(Cfg(), s, actions) == Some(s') && Describes(s')
      ensures WorkerAt(s', slot) == Answered(step, lease, outcome) && !outcome.Unreadable?
      ensures Calling(CallOf(readings, delivery), SentFor(step, lease), actions)
    {
      ghost var serving: seq<Action> := [];
      ghost var served := s;
      var reply := HttpReply(200, None, None, "");
      if delivery.arrives {
        var throttled;
        reply, throttled := tool.Execute(step.operation, step.request, step.operationKey, delivery.flaky,
                                         delivery.referenceId, delivery.toolTime);
        served, serving := ServeRun(Cfg(), s, SentFor(step, lease), throttled, Some(tool.retryAfter),
                                    CallOf(readings, delivery));
      }
      if delivery.arrives && delivery.answered {
        s', actions := ReceiveTaken(Cfg(), s, serving, served, slot, step, lease, reply);
        outcome := Interpret(reply);
        CallingIntro(CallOf(readings, delivery), SentFor(step, lease), serving, Receive(slot, reply));
      } else {
        s', actions := TransportErrorTaken(Cfg(), s, serving, served, slot, step, lease, delivery.detail);
        outcome := NoAnswer(delivery.detail);
        CallingIntro(CallOf(readings, delivery), SentFor(step, lease), serving, TransportError(slot, delivery.detail));
      }
    }

    /** The retry policy; a failing storage call is the loss of the lease or of the attempt. */
    method HandleRetryableFailure(step: StepRecord, error: string, retryAfter: Option<Time>, throttleTool: bool,
                                  lease: Lease, readings: Readings, ghost s: System)
      requires s.db == storage.Contents()
      modifies storage
      ensures storage.Contents() == CommitOutcome(Cfg(), s, step, lease, Retryable(error, retryAfter, throttleTool),
                                                  readings.retry, readings.commitLease, readings.commit).db
    {
      RetryableCommits(Cfg(), s, step, lease, error, retryAfter, throttleTool, readings.retry, readings.commitLease,
                       readings.commit);
      if step.attempts >= settings.maxAttempts {
        var failure := storage.FailStep(lease.runId, step.id, "retry budget exhausted: " + error,
                                        Some(lease.ownerId), Some(lease.fenceToken),
                                        readings.commitLease, readings.commit);
        return;
      }
      var delay;
      if retryAfter.Some? {
        delay := retryAfter.value;
      } else {
        delay := LocalDelay(settings, step.attempts);
      }
      var failure := storage.ScheduleRetry(lease.runId, step.id, error, readings.retry + delay, Some(lease.ownerId),
                                           Some(lease.fenceToken), throttleTool, readings.commitLease, readings.commit);
    }

    method Commit(step: StepRecord, lease: Lease, outcome: Outcome, readings: Readings, ghost s: System)
      requires !outcome.Unreadable? && s.db == storage.Contents()
      modifies storage
      ensures storage.Contents() == CommitOutcome(Cfg(), s, step, lease, outcome,
                                                  readings.retry, readings.commitLease, readings.commit).db
    {
      match outcome
      case Retryable(error, retryAfter, throttleTool) =>
        HandleRetryableFailure(step, error, retryAfter, throttleTool, lease, readings, s);
      case Permanent(error) =>
        var failure := storage.FailStep(lease.runId, step.id, error, Some(lease.ownerId), Some(lease.fenceToken),
                                        readings.commitLease, readings.commit);
      case Success(result) =>
        var failure := storage.CompleteStep(lease.runId, step.id, result, Some(lease.ownerId), Some(lease.fenceToken),
                                            readings.commitLease, readings.commit);
    }

    /** From the recorded intent to the committed outcome. */
    method PerformAttempt(step: StepRecord, lease: Lease, delivery: Delivery, readings: Readings, ghost s: System)
      returns (ghost s': System, ghost actions: seq<Action>)
      requires Describes(s) && WorkerAt(s, slot) == Recorded(step, lease)
      modifies storage, tool, tool.store
      ensures Run(Cfg(), s, actions) == Some(s') && Describes(s') && WorkerAt(s', slot) == Releasing(lease)
      ensures Performing(CallOf(readings, delivery), actions)
    {
      ghost var sending, sent := SendTaken(Cfg(), s, slot, step, lease);
      var answer;
      ghost var answered, calling;
      answer, answered, calling := CallTool(step, lease, readings, delivery, sending);
      RunAppend(Cfg(), s, sent, sending, calling);
      Commit(step, lease, answer, readings, answered);
      s', actions := CommitTaken(Cfg(), s, sent + calling, answered, CallOf(readings, delivery), step, lease, answer);
    }

    method ClaimNext(readings: Readings, ghost delivery: Delivery, ghost s: System)
      returns (claim: Option<ClaimedStep>, ghost s': System, ghost actions: seq<Action>, ghost pick: (string, nat))
      requires Describes(s) && WorkerAt(s, slot).Idle?
      modifies storage
      ensures Run(Cfg(), s, actions) == Some(s') && Describes(s')
      ensures claim.None? <==> forall r: string, i: nat :: !Selectable(s.db, readings.claim, r, i)
      ensures claim.None? ==> actions == [] && s' == s
      ensures claim.Some? ==> actions == [ClaimOf(CallOf(readings, delivery), pick)]
                              && claim.value.lease.runId == pick.0
                              && WorkerAt(s', slot) == Claimed(claim.value.step, claim.value.lease)
    {
      var found;
      claim, found := storage.ClaimRunnableStep(workerId, leaseTtl, readings.claim);
      pick := ("", 0);
      if claim.None? {
        return None, s, [], pick;
      }
      pick := found.value;
      s', actions := Taken(Cfg(), s, [], s, ClaimOf(CallOf(readings, delivery), pick));
    }

    method RecordIntent(claim: ClaimedStep, readings: Readings, ghost delivery: Delivery, ghost s: System)
      returns (recorded: Result<StepRecord, StorageError>, ghost s': System)
      requires Describes(s) && WorkerAt(s, slot) == Claimed(claim.step, claim.lease)
      modifies storage
      ensures Run(Cfg(), s, [RecordOf(CallOf(readings, delivery))]) == Some(s') && Describes(s')
      ensures WorkerAt(s', slot) ==
              if recorded.Ok? then Recorded(recorded.value, claim.lease) else Releasing(claim.lease)
    {
      recorded := storage.RecordAttempt(claim.lease.runId, claim.step.id, Some(claim.lease.ownerId),
                                        Some(claim.lease.fenceToken), readings.recordLease, readings.record);
      RunSingle(Cfg(), s, RecordOf(CallOf(readings, delivery)));
      s' := Do(Cfg(), s, RecordOf(CallOf(readings, delivery)));
    }

    /** From the claim to the release; without a recorded intent there is nothing to do but to release. */
    method WorkOn(claim: ClaimedStep, readings: Readings, delivery: Delivery, ghost s: System)
      returns (ghost s': System, ghost actions: seq<Action>)
      requires Describes(s) && WorkerAt(s, slot) == Claimed(claim.step, claim.lease)
      modifies storage, tool, tool.store
      ensures Run(Cfg(), s, actions) == Some(s') && Describes(s') && WorkerAt(s', slot).Idle?
      ensures Working(CallOf(readings, delivery), actions)
    {
      var lease := claim.lease;
      ghost var recording := [RecordOf(CallOf(readings, delivery))];
      var recorded;
      ghost var started, performed := s, [];
      recorded, started := RecordIntent(claim, readings, delivery, s);
      s' := started;
      if recorded.Ok? {
        s', performed := PerformAttempt(recorded.value, lease, delivery, readings, started);
      }
      RunAppend(Cfg(), s, recording, started, performed);
      var released := storage.ReleaseLease(lease.runId, lease.ownerId, lease.fenceToken, readings.release);
      s', actions := ReleaseTaken(Cfg(), s, recording + performed, s', slot, lease, readings.release);
    }

    /** Claim a step, record the intent, call the tool, commit its outcome, release the lease. A call that finds
        work and is in time brings its run closer to its end. */
    method RunOnce(readings: Readings, delivery: Delivery, ghost s: System)
      returns (outcome: RunOutcome, ghost s': System, ghost actions: seq<Action>)
      requires Describes(s) && WorkerAt(s, slot).Idle?
      modifies storage, tool, tool.store
      ensures Run(Cfg(), s, actions) == Some(s') && Describes(s') && WorkerAt(s', slot).Idle?
      ensures outcome.NoWork? <==> forall r: string, i: nat :: !Selectable(s.db, readings.claim, r, i)
      ensures outcome.NoWork? ==> actions == []
      ensures outcome.Worked? ==> exists i :: WholeTurn(CallOf(readings, delivery), (outcome.runId, i), actions)
      ensures InTime(CallOf(readings, delivery)) && AllDue(s.db, readings.claim) ==> Turn(Cfg(), s, s')
      ensures outcome.Worked? && InTime(CallOf(readings, delivery)) && Reachable(Cfg(), s) ==>
                Advances(settings, s.db, s'.db, outcome.runId)
    {
      var claim;
      ghost var claiming, claimed, working, pick;
      claim, claimed, claiming, pick := ClaimNext(readings, delivery, s);
      if claim.None? {
        assert AllDue(s.db, readings.claim) && InTime(CallOf(readings, delivery)) ==>
                 TurnOf(Cfg(), s, CallOf(readings, delivery), s);
        return NoWork, s, [];
      }
      s', working := WorkOn(claim.value, readings, delivery, claimed);
      RunAppend(Cfg(), s, claiming, claimed, working);
      actions := claiming + working;
      outcome := Worked(claim.value.lease.runId, claim.value.step.operation);
      assert WholeTurn(CallOf(readings, delivery), (outcome.runId, pick.1), actions);
      assert AllDue(s.db, readings.claim) && InTime(CallOf(readings, delivery)) ==>
               TurnOf(Cfg(), s, CallOf(readings, delivery), s');
      if Reachable(Cfg(), s) && InTime(CallOf(readings, delivery)) {
        var reached := TurnAdvances(Cfg(), s, CallOf(readings, delivery), pick, actions);
      }
    }
  }

  lemma ServeRun(cfg: Config, s: System, sent: Sent, throttled: bool, retryAfter: Option<Time>, call: Call)
    returns (s': System, actions: seq<Action>)
    requires sent in s.sent
    ensures Run(cfg, s, actions) == Some(s') && Serving(call, sent, actions)
    ensures var (ledger, reply) := Serve(s.ledger, cfg.digest, sent.operation, sent.operationKey, sent.request,
                                         throttled, retryAfter, call.delivery.referenceId, call.delivery.toolTime);
            EngineUntouched(s, s') && s'.ledger == ledger && Reply(sent, reply) in s'.replies
  {
    ServeFollowsProtocol(cfg, s, sent, throttled, retryAfter, call.delivery.referenceId, call.delivery.toolTime);
    LookupServes(cfg, s, sent, throttled, retryAfter, call.delivery.referenceId, call.delivery.toolTime);
    s', actions := Taken(cfg, s, [], s, ToolLookup(sent, throttled, retryAfter));
    if Admits(s.ledger, cfg.digest, sent, throttled) {
      s', actions := Taken(cfg, s, actions, s', ToolApply(sent, call.delivery.referenceId, call.delivery.toolTime));
    }
  }

  // ----- the heartbeat -----

  /** The holder of this lease passes the lease check before the given time and not from then on. */
  ghost predicate HeldUntil(db: Db, lease: Lease, end: Time) {
    forall t {:trigger PassesLeaseCheck(db, lease, t)} :: PassesLeaseCheck(db, lease, t) <==> t < end
  }

  /** The holder of this lease does not pass the lease check at the given time or later. */
  ghost predicate LostFrom(db: Db, lease: Lease, now: Time) {
    forall t {:trigger PassesLeaseCheck(db, lease, t)} :: t >= now ==> !PassesLeaseCheck(db, lease, t)
  }

  lemma BeatHolds(db: Db, lease: Lease, ttl: Time, now: Time)
    ensures var db' := RenewLease(db, lease.runId, lease.ownerId, lease.fenceToken, ttl, now);
            if Owns(db, lease.runId, lease.ownerId, lease.fenceToken) && db.leases[lease.runId].expiresAt > now
            then HeldUntil(db', lease, now + ttl)
            else LostFrom(db', lease, now)
  {
  }

  /** The actions of one heartbeat: a renewal at each of the first times. */
  ghost predicate Beating(cfg: Config, s: System, s': System, actions: seq<Action>, lease: Lease, ttl: Time,
                          times: seq<Time>) {
    Run(cfg, s, actions) == Some(s') && s'.workers == s.workers && |actions| <= |times|
    && forall k :: 0 <= k < |actions| ==>
         actions[k] == Renew(lease.runId, lease.ownerId, lease.fenceToken, ttl, times[k])
  }

  lemma BeatTaken(cfg: Config, s: System, middle: System, actions: seq<Action>, lease: Lease, ttl: Time,
                  times: seq<Time>)
    returns (s': System, actions': seq<Action>)
    requires Beating(cfg, s, middle, actions, lease, ttl, times) && |actions| < |times|
    ensures |actions'| == |actions| + 1 && Beating(cfg, s, s', actions', lease, ttl, times)
    ensures s'.db ==
            RenewLease(middle.db, lease.runId, lease.ownerId, lease.fenceToken, ttl, times[|actions|])
  {
    s', actions' := RenewTaken(cfg, s, actions, middle, lease, ttl, times[|actions|]);
  }

  /** Renews one lease at the given times, until a renewal finds the lease lost. */
  class LeaseHeartbeat {
    const storage: SQLiteStorage
    const lease: Lease
    const ttl: Time

    constructor (storage: SQLiteStorage, lease: Lease, ttl: Time)
      ensures this.storage == storage && this.lease == lease && this.ttl == ttl
    {
      this.storage, this.lease, this.ttl := storage, lease, ttl;
    }

    /** Every beat is a renewal of the protocol. As long as none fails, the lease lasts until `ttl` after the last
        one; the first that fails ends the loop, and from then on the holder does not pass the lease check. */
    method Beat(times: seq<Time>, ghost cfg: Config, ghost s: System)
      returns (lost: bool, ghost s': System, ghost actions: seq<Action>)
      requires s.db == storage.Contents()
      modifies storage`leases
      ensures Beating(cfg, s, s', actions, lease, ttl, times) && s'.db == storage.Contents()
      ensures lost ==> actions != [] && LostFrom(s'.db, lease, times[|actions| - 1])
      ensures !lost ==> |actions| == |times|
      ensures !lost && times != [] ==> HeldUntil(s'.db, lease, times[|times| - 1] + ttl)
    {
      s', actions, lost := s, [], false;
      var i := 0;
      while i < |times| && !lost
        invariant |actions| == i <= |times|
        invariant Beating(cfg, s, s', actions, lease, ttl, times) && s'.db == storage.Contents()
        invariant lost ==> i > 0 && LostFrom(s'.db, lease, times[i - 1])
        invariant !lost && i > 0 ==> HeldUntil(s'.db, lease, times[i - 1] + ttl)
      {
        BeatHolds(s'.db, lease, ttl, times[i]);
        s', actions := BeatTaken(cfg, s, s', actions, lease, ttl, times);
        var renewed := storage.RenewLease(lease.runId, lease.ownerId, lease.fenceToken, ttl, times[i]);
        lost := !renewed;
        i := i + 1;
      }
    }
  }
}
