/** What the repository is for: whatever was lost before, the next undisturbed call whose request is answered completes
    the step, with the effect that is already there or with a new one. */
module Recovery {
  import opened Models
  import opened HistoryFacts
  import opened Database
  import opened Refinement
  import opened Transitions
  import opened Gateway
  import opened Ledger
  import opened Protocol
  import opened Invariant
  import opened Preservation
  import opened CommitPreservation
  import opened Safety
  import opened Effects
  import opened Runs
  import opened Turns
  import opened ToolService
  import opened Answers

  // ----- the request of a turn is new on the wire -----

  /** Nothing on the wire carries this run and fence. */
  ghost predicate FreshOnWire(s: System, runId: string, fence: int) {
    (forall x :: x in s.sent ==> x.runId != runId || x.fence != fence)
    && (forall x :: x in s.admitted ==> x.runId != runId || x.fence != fence)
    && (forall y :: y in s.replies ==> y.sent.runId != runId || y.sent.fence != fence)
  }

  lemma NextFenceIsFresh(cfg: Config, s: System, runId: string)
    requires Inv(cfg, s) && runId in s.db.runs
    ensures FreshOnWire(s, runId, NextFence(s.db, runId))
  {
    forall x | x in s.sent ensures x.runId != runId || x.fence != NextFence(s.db, runId) {
      if x.runId == runId {
        FenceReached(s.db, x);
      }
    }
  }

  lemma FenceReached(db: Db, x: Sent)
    requires FenceInv(db) && Authorized(db, x)
    ensures x.fence < NextFence(db, x.runId)
  {
    assert RunFences(db, x.runId);
    var k :| 0 <= k < |RowsOf(db.events, x.runId)| && AuthorizedBy(RowsOf(db.events, x.runId)[k], x);
  }

  /** Ledger and wire are the same. */
  predicate SameOutside(s: System, s': System) {
    s'.ledger == s.ledger && s'.sent == s.sent && s'.admitted == s.admitted && s'.replies == s.replies
  }

  lemma CommitStaysInside(cfg: Config, s: System, step: StepRecord, lease: Lease, outcome: Outcome, clock: Time,
                          leaseNow: Time, now: Time)
    ensures SameOutside(s, CommitOutcome(cfg, s, step, lease, outcome, clock, leaseNow, now))
  {
  }

  lemma EngineStaysInside(cfg: Config, s: System, a: Action)
    requires Enabled(s, a) && (a.Claim? || a.Record? || a.Receive? || a.Commit? || a.Release?)
    ensures SameOutside(s, Do(cfg, s, a))
  {
    match a
    case Commit(w, clock, leaseNow, now) =>
      CommitStaysInside(cfg, s, WorkerAt(s, w).step, WorkerAt(s, w).lease, WorkerAt(s, w).outcome, clock, leaseNow,
                        now);
    case _ =>
  }

  // ----- what the tool answers to it -----

  /** A request that was not on the wire before is answered by the one serving of this turn. */
  lemma ServingAnswers(cfg: Config, s: System, call: Call, sent: Sent, serving: seq<Action>, served: System, own: Sent,
                       http: HttpReply)
    returns (throttled: bool, retryAfter: Option<Time>)
    requires Serving(call, sent, serving) && Run(cfg, s, serving) == Some(served)
    requires own !in s.admitted && (forall y :: y in s.replies ==> y.sent != own)
    requires Reply(own, http) in served.replies
    ensures serving[0] == ToolLookup(own, throttled, retryAfter)
    ensures (served.ledger, http) ==
            Serve(s.ledger, cfg.digest, own.operation, own.operationKey, own.request, throttled, retryAfter,
                  call.delivery.referenceId, call.delivery.toolTime)
    ensures served.db == s.db && served.workers == s.workers
  {
    throttled, retryAfter := serving[0].throttled, serving[0].retryAfter;
    var looked := FirstStep(cfg, s, serving);
    assert looked == DoLookup(cfg, s, sent, throttled, retryAfter);
    if |serving| == 1 {
      assert serving[1..] == [];
    } else {
      assert serving[1..] == [serving[1]];
      RunSingle(cfg, looked, serving[1]);
    }
  }

  /** An answer with a result in its body is a success. */
  lemma ResultIsSuccess(http: HttpReply)
    requires http.status == 200 && http.body.Some?
    ensures Interpret(http) == Success(http.body.value)
  {
  }

  // ----- the stages of a turn -----

  /** Rows of runs are the same; only leases may differ. */
  predicate SameRows(db: Db, db': Db) {
    db'.runs == db.runs && db'.steps == db.steps && db'.dependencies == db.dependencies && db'.events == db.events
  }

  lemma ClaimFacts(cfg: Config, s: System, call: Call, pick: (string, nat))
    returns (claimed: System, step: StepRecord, lease: Lease)
    requires Inv(cfg, s) && Run(cfg, s, [ClaimOf(call, pick)]).Some?
    ensures Run(cfg, s, [ClaimOf(call, pick)]) == Some(claimed)
    ensures pick.0 in s.db.runs && pick.1 < |Projection(s.db, pick.0).steps|
            && step == Projection(s.db, pick.0).steps[pick.1]
    ensures WorkerAt(claimed, call.worker) == Claimed(step, lease) && lease.runId == pick.0
    ensures SameOutside(s, claimed) && FreshOnWire(claimed, lease.runId, lease.fenceToken)
    ensures SameRows(s.db, claimed.db)
    ensures forall t :: t < call.readings.claim + call.ttl ==> PassesLeaseCheck(claimed.db, lease, t)
  {
    RunSingle(cfg, s, ClaimOf(call, pick));
    EngineStaysInside(cfg, s, ClaimOf(call, pick));
    NextFenceIsFresh(cfg, s, pick.0);
    claimed, step, lease := ClaimStage(cfg, s, call, pick);
  }

  lemma RecordFacts(cfg: Config, s: System, call: Call, step: StepRecord, lease: Lease)
    returns (started: System, recorded: StepRecord, i: nat)
    requires Reachable(cfg, s) && Run(cfg, s, [RecordOf(call)]).Some?
    requires WorkerAt(s, call.worker) == Claimed(step, lease)
             && PassesLeaseCheck(s.db, lease, call.readings.recordLease)
    ensures Run(cfg, s, [RecordOf(call)]) == Some(started)
    ensures IntentStored(s.db, started.db, lease, step, i, call.readings.record)
            && recorded == Projection(started.db, lease.runId).steps[i]
    ensures WorkerAt(started, call.worker) == Recorded(recorded, lease) && SameOutside(s, started)
    ensures started.db.leases == s.db.leases
  {
    ReachableInv(cfg, s);
    WorkerInvAt(cfg, s, call.worker);
    RunSingle(cfg, s, RecordOf(call));
    EngineStaysInside(cfg, s, RecordOf(call));
    started, recorded := RecordStage(cfg, s, call, step, lease);
    HolderRecords(s.db, s.ledger, step, lease, call.readings.recordLease, call.readings.record);
    i := RecordStores(s.db, s.ledger, step, lease, call.readings.recordLease, call.readings.record);
  }

  lemma SendFacts(cfg: Config, s: System, call: Call, step: StepRecord, lease: Lease) returns (waiting: System)
    requires Run(cfg, s, [Send(call.worker)]).Some? && WorkerAt(s, call.worker) == Recorded(step, lease)
    requires FreshOnWire(s, lease.runId, lease.fenceToken)
    ensures Run(cfg, s, [Send(call.worker)]) == Some(waiting) && waiting.db == s.db && waiting.ledger == s.ledger
    ensures WorkerAt(waiting, call.worker) == Waiting(step, lease)
    ensures SentFor(step, lease) in waiting.sent && SentFor(step, lease) !in waiting.admitted
            && forall y :: y in waiting.replies ==> y.sent != SentFor(step, lease)
  {
    RunSingle(cfg, s, Send(call.worker));
    waiting := Do(cfg, s, Send(call.worker));
  }

  /** The answer that the worker reads is the tool's answer to the request it has just sent. */
  lemma CallFacts(cfg: Config, s: System, call: Call, sent: Sent, calling: seq<Action>, step: StepRecord, lease: Lease)
    returns (answered: System, http: HttpReply, throttled: bool, retryAfter: Option<Time>)
    requires Run(cfg, s, calling).Some? && Calling(call, sent, calling)
             && call.delivery.arrives && call.delivery.answered
    requires WorkerAt(s, call.worker) == Waiting(step, lease)
    requires SentFor(step, lease) !in s.admitted && forall y :: y in s.replies ==> y.sent != SentFor(step, lease)
    ensures Run(cfg, s, calling) == Some(answered) && answered.db == s.db
    ensures WorkerAt(answered, call.worker) == Answered(step, lease, Interpret(http))
    ensures ToolLookup(SentFor(step, lease), throttled, retryAfter) in calling
    ensures (answered.ledger, http) ==
            Serve(s.ledger, cfg.digest, step.operation, step.operationKey, step.request, throttled, retryAfter,
                  call.delivery.referenceId, call.delivery.toolTime)
  {
    var serving, answer :| calling == serving + [answer] && ServedThenAnswered(call, sent, serving, answer);
    RunSplit(cfg, s, serving, [answer]);
    var served := Run(cfg, s, serving).value;
    RunSingle(cfg, served, answer);
    http := answer.http;
    var serve := ServingStage(cfg, s, call, sent, serving);
    throttled, retryAfter := ServingAnswers(cfg, s, call, sent, serving, served, SentFor(step, lease), http);
    answered := Do(cfg, served, answer);
    assert calling[0] == serving[0];
  }

  lemma CommitFacts(cfg: Config, s: System, call: Call, step: StepRecord, lease: Lease, result: ToolResult)
    returns (committed: System, i: nat)
    requires Reachable(cfg, s) && Run(cfg, s, [CommitOf(call)]).Some?
    requires WorkerAt(s, call.worker) == Answered(step, lease, Success(result))
             && PassesLeaseCheck(s.db, lease, call.readings.commitLease)
    ensures Run(cfg, s, [CommitOf(call)]) == Some(committed) && committed.ledger == s.ledger
    ensures CompletedWith(s.db, committed.db, Answered(step, lease, Success(result)), i, result, call.readings.commit)
  {
    ReachableInv(cfg, s);
    WorkerInvAt(cfg, s, call.worker);
    RunSingle(cfg, s, CommitOf(call));
    committed := Do(cfg, s, CommitOf(call));
    var outcome := CommitOutcome(cfg, s, step, lease, Success(result), call.readings.retry, call.readings.commitLease,
                                 call.readings.commit);
    CommitStaysInside(cfg, s, step, lease, Success(result), call.readings.retry, call.readings.commitLease,
                      call.readings.commit);
    i := SuccessLeaves(cfg, s, outcome, WorkerAt(s, call.worker), call.readings.retry, call.readings.commitLease,
                       call.readings.commit);
  }

  lemma PerformFacts(cfg: Config, s: System, call: Call, performed: seq<Action>, step: StepRecord, lease: Lease)
    returns (worked: System, http: HttpReply, throttled: bool, retryAfter: Option<Time>, i: nat)
    requires Reachable(cfg, s) && Run(cfg, s, performed).Some? && Performing(call, performed)
    requires WorkerAt(s, call.worker) == Recorded(step, lease) && FreshOnWire(s, lease.runId, lease.fenceToken)
    requires PassesLeaseCheck(s.db, lease, call.readings.commitLease)
    requires call.delivery.arrives && call.delivery.answered
    ensures Run(cfg, s, performed) == Some(worked)
    ensures ToolLookup(SentFor(step, lease), throttled, retryAfter) in performed
    ensures (worked.ledger, http) ==
            Serve(s.ledger, cfg.digest, step.operation, step.operationKey, step.request, throttled, retryAfter,
                  call.delivery.referenceId, call.delivery.toolTime)
    ensures http.status == 200 && http.body.Some? ==>
              CompletedWith(s.db, worked.db, Answered(step, lease, Success(http.body.value)), i, http.body.value,
                            call.readings.commit)
  {
    var sent, calling :| performed == [Send(call.worker)] + calling + [CommitOf(call)] && Calling(call, sent, calling);
    RunSplit(cfg, s, [Send(call.worker)] + calling, [CommitOf(call)]);
    RunSplit(cfg, s, [Send(call.worker)], calling);
    var waiting := SendFacts(cfg, s, call, step, lease);
    var answered;
    answered, http, throttled, retryAfter := CallFacts(cfg, waiting, call, sent, calling, step, lease);
    RunReaches(cfg, s, [Send(call.worker)] + calling, answered);
    worked, i := Run(cfg, s, performed).value, 0;
    if http.status == 200 && http.body.Some? {
      ResultIsSuccess(http);
      worked, i := CommitFacts(cfg, answered, call, step, lease, http.body.value);
    } else {
      RunSingle(cfg, answered, CommitOf(call));
      EngineStaysInside(cfg, answered, CommitOf(call));
    }
  }

  // ----- a whole turn -----

  /** Step `i` of the run is completed with this result; no other step and no other run differs. */
  ghost predicate OnlyCompletes(db: Db, db': Db, runId: string, i: nat, result: ToolResult) {
    runId in db.runs && runId in db'.runs && OnlyAt(Projection(db, runId), Projection(db', runId), i)
    && Projection(db', runId).steps[i].status.Completed? && Projection(db', runId).steps[i].output == Some(result)
    && !Projection(db', runId).status.RunFailed?
    && db'.runs.Keys == db.runs.Keys && OthersUntouched(db, db', runId)
  }

  lemma TurnCompletes(db: Db, claimed: Db, started: Db, worked: Db, final: Db, lease: Lease, step: StepRecord,
                      recorded: StepRecord, n: nat, i: nat, j: nat, result: ToolResult, now: Time, time: Time)
    requires DbInv(db) && DbInv(started) && SameRows(db, claimed) && SameRows(worked, final)
    requires lease.runId in db.runs && n < |Projection(db, lease.runId).steps|
             && step == Projection(db, lease.runId).steps[n]
    requires IntentStored(claimed, started, lease, step, i, time)
             && recorded == Projection(started, lease.runId).steps[i]
    requires CompletedWith(started, worked, Answered(recorded, lease, Success(result)), j, result, now)
    ensures OnlyCompletes(db, final, lease.runId, n, result)
  {
    var r := lease.runId;
    RecordedIndex(db, claimed, started, lease, step, n, i, time);
    CompletedIndex(started, worked, lease, recorded, n, j, result, now);
    StartLeavesRest(db, claimed, started, lease, step, n, time);
    CompletionLeavesRest(started, worked, final, lease, recorded, n, result, now);
    RestComposes(Projection(db, r), Projection(started, r), Projection(final, r), n);
    UntouchedComposes(db, started, final, r);
  }

  lemma RecordedIndex(db: Db, claimed: Db, started: Db, lease: Lease, step: StepRecord, n: nat, i: nat, time: Time)
    requires DbInv(db) && SameRows(db, claimed) && IntentStored(claimed, started, lease, step, i, time)
    requires lease.runId in db.runs && n < |Projection(db, lease.runId).steps|
             && step == Projection(db, lease.runId).steps[n]
    ensures i == n
  {
    assert Projection(claimed, lease.runId) == Projection(db, lease.runId);
    SameIndex(db, lease.runId, n, i);
  }

  lemma CompletedIndex(started: Db, worked: Db, lease: Lease, recorded: StepRecord, n: nat, j: nat, result: ToolResult,
                       now: Time)
    requires DbInv(started)
             && CompletedWith(started, worked, Answered(recorded, lease, Success(result)), j, result, now)
    requires n < |Projection(started, lease.runId).steps| && recorded == Projection(started, lease.runId).steps[n]
    ensures j == n
  {
    SameIndex(started, lease.runId, n, j);
  }

  /** Only step `n` differs, and not in its definition. */
  predicate OnlyAt(before: WorkflowRun, after: WorkflowRun, n: nat) {
    |after.steps| == |before.steps| && n < |before.steps| && SameDefinition(before.steps[n], after.steps[n])
    && forall h :: 0 <= h < |before.steps| && h != n ==> after.steps[h] == before.steps[h]
  }

  lemma StartLeavesRest(db: Db, claimed: Db, started: Db, lease: Lease, step: StepRecord, n: nat, time: Time)
    requires SameRows(db, claimed) && IntentStored(claimed, started, lease, step, n, time)
    ensures OnlyAt(Projection(db, lease.runId), Projection(started, lease.runId), n)
    ensures started.runs.Keys == db.runs.Keys && OthersUntouched(db, started, lease.runId)
  {
    assert Projection(claimed, lease.runId) == Projection(db, lease.runId);
  }

  lemma CompletionLeavesRest(started: Db, worked: Db, final: Db, lease: Lease, recorded: StepRecord, n: nat,
                             result: ToolResult, now: Time)
    requires SameRows(worked, final)
    requires CompletedWith(started, worked, Answered(recorded, lease, Success(result)), n, result, now)
    ensures lease.runId in final.runs
    ensures var run := Projection(final, lease.runId);
            OnlyAt(Projection(started, lease.runId), run, n)
            && run.steps[n].status.Completed? && run.steps[n].output == Some(result) && !run.status.RunFailed?
    ensures final.runs.Keys == started.runs.Keys && OthersUntouched(started, final, lease.runId)
  {
    assert Projection(final, lease.runId) == Projection(worked, lease.runId);
  }

  lemma RestComposes(a: WorkflowRun, b: WorkflowRun, c: WorkflowRun, n: nat)
    requires OnlyAt(a, b, n) && OnlyAt(b, c, n)
    ensures OnlyAt(a, c, n)
  {
  }

  lemma UntouchedComposes(a: Db, b: Db, c: Db, runId: string)
    requires OthersUntouched(a, b, runId) && OthersUntouched(b, c, runId)
    ensures OthersUntouched(a, c, runId)
  {
  }

  lemma ReleaseFacts(cfg: Config, s: System, call: Call) returns (released: System)
    requires Run(cfg, s, [ReleaseOf(call)]).Some?
    ensures Run(cfg, s, [ReleaseOf(call)]) == Some(released) && SameRows(s.db, released.db)
            && released.ledger == s.ledger
  {
    RunSingle(cfg, s, ReleaseOf(call));
    released := Do(cfg, s, ReleaseOf(call));
  }

  lemma LeaseKept(db: Db, db': Db, lease: Lease, time: Time)
    requires db'.leases == db.leases
    ensures PassesLeaseCheck(db', lease, time) <==> PassesLeaseCheck(db, lease, time)
  {
  }

  /** From the claim on: what the tool answers, and that a result completes the claimed step. */
  lemma WorkFacts(cfg: Config, s: System, call: Call, working: seq<Action>, step: StepRecord, lease: Lease)
    returns (s': System, started: System, worked: System, recorded: StepRecord, http: HttpReply, throttled: bool,
             retryAfter: Option<Time>, i: nat, j: nat)
    requires Reachable(cfg, s) && Run(cfg, s, working).Some? && Working(call, working)
    requires WorkerAt(s, call.worker) == Claimed(step, lease) && FreshOnWire(s, lease.runId, lease.fenceToken)
    requires PassesLeaseCheck(s.db, lease, call.readings.recordLease)
             && PassesLeaseCheck(s.db, lease, call.readings.commitLease)
    requires call.delivery.arrives && call.delivery.answered
    ensures Run(cfg, s, working) == Some(s') && DbInv(started.db) && SameRows(worked.db, s'.db)
    ensures IntentStored(s.db, started.db, lease, step, i, call.readings.record)
            && recorded == Projection(started.db, lease.runId).steps[i]
    ensures ToolLookup(SentFor(recorded, lease), throttled, retryAfter) in working
    ensures (s'.ledger, http) ==
            Serve(s.ledger, cfg.digest, step.operation, step.operationKey, step.request, throttled, retryAfter,
                  call.delivery.referenceId, call.delivery.toolTime)
    ensures http.status == 200 && http.body.Some? ==>
              CompletedWith(started.db, worked.db, Answered(recorded, lease, Success(http.body.value)), j,
                            http.body.value, call.readings.commit)
  {
    var performed :| working == [RecordOf(call)] + performed + [ReleaseOf(call)]
      && (performed == [] || Performing(call, performed));
    RunSplit(cfg, s, [RecordOf(call)] + performed, [ReleaseOf(call)]);
    RunSplit(cfg, s, [RecordOf(call)], performed);
    started, recorded, i := RecordFacts(cfg, s, call, step, lease);
    RunReaches(cfg, s, [RecordOf(call)], started);
    ReachableInv(cfg, started);
    LeaseKept(s.db, started.db, lease, call.readings.commitLease);
    RecordedNotReleased(cfg, started, call, recorded, lease);
    worked, http, throttled, retryAfter, j := PerformFacts(cfg, started, call, performed, recorded, lease);
    s' := ReleaseFacts(cfg, worked, call);
  }

  /** Some lookup of these actions has this draw. */
  ghost predicate Drew(actions: seq<Action>, throttled: bool, retryAfter: Option<Time>) {
    exists x :: ToolLookup(x, throttled, retryAfter) in actions
  }

  lemma ClaimedTurn(cfg: Config, db: Db, s: System, call: Call, working: seq<Action>, step: StepRecord, lease: Lease,
                    n: nat)
    returns (s': System, http: HttpReply, throttled: bool, retryAfter: Option<Time>)
    requires DbInv(db) && SameRows(db, s.db) && lease.runId in db.runs && n < |Projection(db, lease.runId).steps|
             && step == Projection(db, lease.runId).steps[n]
    requires Reachable(cfg, s) && Run(cfg, s, working).Some? && Working(call, working)
    requires WorkerAt(s, call.worker) == Claimed(step, lease) && FreshOnWire(s, lease.runId, lease.fenceToken)
    requires PassesLeaseCheck(s.db, lease, call.readings.recordLease)
             && PassesLeaseCheck(s.db, lease, call.readings.commitLease)
    requires call.delivery.arrives && call.delivery.answered
    ensures Run(cfg, s, working) == Some(s') && Drew(working, throttled, retryAfter)
    ensures (s'.ledger, http) ==
            Serve(s.ledger, cfg.digest, step.operation, step.operationKey, step.request, throttled, retryAfter,
                  call.delivery.referenceId, call.delivery.toolTime)
    ensures http.status == 200 && http.body.Some? ==> OnlyCompletes(db, s'.db, lease.runId, n, http.body.value)
  {
    var started, worked, recorded, i, j;
    s', started, worked, recorded, http, throttled, retryAfter, i, j := WorkFacts(cfg, s, call, working, step, lease);
    if http.status == 200 && http.body.Some? {
      TurnCompletes(db, s.db, started.db, worked.db, s'.db, lease, step, recorded, n, i, j, http.body.value,
                    call.readings.commit, call.readings.record);
    }
  }

  lemma TurnFacts(cfg: Config, s: System, call: Call, pick: (string, nat), actions: seq<Action>)
    returns (s': System, http: HttpReply, throttled: bool, retryAfter: Option<Time>)
    requires Reachable(cfg, s) && Run(cfg, s, actions).Some? && WholeTurn(call, pick, actions) && InTime(call)
    requires call.delivery.arrives && call.delivery.answered
    ensures Run(cfg, s, actions) == Some(s') && Drew(actions, throttled, retryAfter)
    ensures pick.0 in s.db.runs && pick.1 < |Projection(s.db, pick.0).steps|
    ensures var step := Projection(s.db, pick.0).steps[pick.1];
            (s'.ledger, http) ==
            Serve(s.ledger, cfg.digest, step.operation, step.operationKey, step.request, throttled, retryAfter,
                  call.delivery.referenceId, call.delivery.toolTime)
    ensures http.status == 200 && http.body.Some? ==> OnlyCompletes(s.db, s'.db, pick.0, pick.1, http.body.value)
  {
    var working :| actions == [ClaimOf(call, pick)] + working && Working(call, working);
    RunSplit(cfg, s, [ClaimOf(call, pick)], working);
    ReachableInv(cfg, s);
    var claimed, step, lease := ClaimFacts(cfg, s, call, pick);
    RunReaches(cfg, s, [ClaimOf(call, pick)], claimed);
    s', http, throttled, retryAfter := ClaimedTurn(cfg, s.db, claimed, call, working, step, lease, pick.1);
    var x :| ToolLookup(x, throttled, retryAfter) in working;
    assert ToolLookup(x, throttled, retryAfter) in actions;
  }

  // ----- the theorems -----

  /** No lookup is throttled. */
  predicate Unthrottled(actions: seq<Action>) {
    forall k :: 0 <= k < |actions| && actions[k].ToolLookup? ==> !actions[k].throttled
  }

  /** If the claimed step already has its effect, from whatever attempt of whatever worker, then one undisturbed call
      whose request is answered completes the step with that effect and makes no other; flakiness does not matter. */
  lemma EffectIsRecovered(cfg: Config, s: System, call: Call, pick: (string, nat), actions: seq<Action>, e: nat)
    returns (s': System)
    requires Reachable(cfg, s) && Run(cfg, s, actions).Some? && WholeTurn(call, pick, actions) && InTime(call)
    requires call.delivery.arrives && call.delivery.answered
    requires pick.0 in s.db.runs && pick.1 < |Projection(s.db, pick.0).steps| && e < |s.ledger.effects|
             && s.ledger.effects[e].operationKey == Projection(s.db, pick.0).steps[pick.1].operationKey
    ensures Run(cfg, s, actions) == Some(s') && s'.ledger == s.ledger
    ensures OnlyCompletes(s.db, s'.db, pick.0, pick.1,
                          ToolResult(s.ledger.effects[e].operation, s.ledger.effects[e].id, true))
  {
    var http, throttled, retryAfter;
    s', http, throttled, retryAfter := TurnFacts(cfg, s, call, pick, actions);
    ReachableInv(cfg, s);
    var step := Projection(s.db, pick.0).steps[pick.1];
    StepIsSound(s.db, pick.0, pick.1);
    EffectMatchesStep(cfg, s, e, pick.0, pick.1);
    assert HasEffect(s.ledger, step.operationKey);
    ServeAnswers(s.ledger, cfg.digest, step.operation, step.operationKey, step.request, throttled, retryAfter,
                 call.delivery.referenceId, call.delivery.toolTime);
  }

  lemma StepIsSound(db: Db, runId: string, i: nat)
    requires DbInv(db) && runId in db.runs && i < |Projection(db, runId).steps|
    ensures RequestMatches(Projection(db, runId).steps[i].operation, Projection(db, runId).steps[i].request)
  {
    RunFacts(db, runId);
    assert StepSound(Projection(db, runId), Projection(db, runId).steps[i]);
  }

  /** If the claimed step has no effect yet, one undisturbed, unthrottled call whose request is answered makes exactly
      one, of the step's operation and request, and completes the step with it. */
  lemma EffectIsMade(cfg: Config, s: System, call: Call, pick: (string, nat), actions: seq<Action>)
    returns (s': System)
    requires Reachable(cfg, s) && Run(cfg, s, actions).Some? && WholeTurn(call, pick, actions) && InTime(call)
    requires call.delivery.arrives && call.delivery.answered && Unthrottled(actions)
    requires pick.0 in s.db.runs && pick.1 < |Projection(s.db, pick.0).steps|
    requires !HasEffect(s.ledger, Projection(s.db, pick.0).steps[pick.1].operationKey)
    requires forall e :: 0 <= e < |s.ledger.effects| ==> s.ledger.effects[e].id != call.delivery.referenceId
    ensures Run(cfg, s, actions) == Some(s')
    ensures var step := Projection(s.db, pick.0).steps[pick.1];
            s'.ledger.effects == s.ledger.effects + [SideEffect(call.delivery.referenceId, step.operationKey,
                                                               step.operation, step.request, call.delivery.toolTime)]
            && OnlyCompletes(s.db, s'.db, pick.0, pick.1, ToolResult(step.operation, call.delivery.referenceId, false))
  {
    var http, throttled, retryAfter;
    s', http, throttled, retryAfter := TurnFacts(cfg, s, call, pick, actions);
    ReachableInv(cfg, s);
    var step := Projection(s.db, pick.0).steps[pick.1];
    StepIsSound(s.db, pick.0, pick.1);
    ServeAnswers(s.ledger, cfg.digest, step.operation, step.operationKey, step.request, throttled, retryAfter,
                 call.delivery.referenceId, call.delivery.toolTime);
  }
}
