/** Every enabled action keeps the protocol invariant. */
module Preservation {
  import opened Models
  import opened HistoryFacts
  import opened Database
  import opened Refinement
  import opened Transitions
  import opened Lifecycle
  import opened Gateway
  import opened Ledger
  import opened Protocol
  import opened Invariant

  // ----- requests and steps -----

  /** An attempt event in the history restates the definition of its step, which no later event changes. */
  lemma AuthorizedStep(db: Db, sent: Sent) returns (i: nat)
    requires DbInv(db) && Authorized(db, sent)
    ensures i < |Projection(db, sent.runId).steps|
    ensures var step := Projection(db, sent.runId).steps[i];
            && step.id == sent.stepId && step.operation == sent.operation && step.request == sent.request
            && step.operationKey == sent.operationKey == OperationKey(sent.runId, sent.stepId)
            && 1 <= sent.attempt <= step.attempts
  {
    var events := RowsOf(db.events, sent.runId);
    var k :| 0 <= k < |events| && AuthorizedBy(events[k], sent);
    RunFacts(db, sent.runId);
    i := AttemptRestatesDefinition(sent.runId, events, k);
  }

  /** Two authorized requests with the same key are for the same step, so they agree on everything the tool compares. */
  lemma SameKeySameRequest(db: Db, x: Sent, y: Sent)
    requires DbInv(db) && Authorized(db, x) && Authorized(db, y) && x.operationKey == y.operationKey
    ensures x.runId == y.runId && x.stepId == y.stepId && x.operation == y.operation && x.request == y.request
  {
    var i := AuthorizedStep(db, x);
    var j := AuthorizedStep(db, y);
    assert RunInv(db, x.runId) && RunInv(db, y.runId);
    OperationKeyInjective(x.runId, x.stepId, y.runId, y.stepId);
    RunFacts(db, x.runId);
    StepIdsUnique(x.runId, Projection(db, x.runId), i, j);
  }

  // ----- actions that change only leases -----

  ghost predicate LeasesAdvance(db: Db, db': Db) {
    SameTables(db, db') && db'.leases.Keys <= db.runs.Keys
    && (forall r :: r in db.leases ==> r in db'.leases && db.leases[r].fenceToken <= db'.leases[r].fenceToken)
    && forall r :: NextFence(db, r) <= NextFence(db', r)
  }

  lemma LeaseStepGrows(db: Db, db': Db)
    requires DbInv(db) && LeasesAdvance(db, db')
    ensures DbInv(db') && Grows(db, db')
    ensures forall r :: r in db.runs ==> SameRun(db, db', r) && Projection(db', r) == Projection(db, r)
  {
    LeasesKeepInvariant(db, db');
    forall r | r in db.runs ensures SameRun(db, db', r) && Extends(Projection(db, r), Projection(db', r)) {
      ExtendsReflexive(Projection(db, r));
    }
  }

  lemma RetriesKeep(cfg: Config, db: Db, db': Db, retries: seq<RetryEntry>)
    requires RetriesInv(cfg, db, retries) && Grows(db, db') && db'.runs.Keys == db.runs.Keys
    requires forall r :: r in db.runs ==> RowsOf(db'.events, r) == RowsOf(db.events, r)
    ensures RetriesInv(cfg, db', retries)
  {
    EntriesLoggedGrows(cfg.settings, db, db', retries);
    forall r, k | r in db'.runs ensures Covered(db', retries, r, k) {
      assert Covered(db, retries, r, k);
    }
  }

  lemma LeaseStepKeeps(cfg: Config, s: System, db': Db)
    requires EngineInv(cfg, s) && ToolInv(cfg, s) && LeasesAdvance(s.db, db')
    ensures EngineInv(cfg, s.(db := db')) && ToolInv(cfg, s.(db := db'))
    ensures Grows(s.db, db') && forall r :: r in s.db.runs ==> SameRun(s.db, db', r)
  {
    LeaseStepGrows(s.db, db');
    RetriesKeep(cfg, s.db, db', s.retries);
    LeaseStepTables(s.db, db', s.ledger);
    ToolKeeps(cfg, s, s.(db := db'));
  }

  lemma LeaseStepTables(db: Db, db': Db, ledger: LedgerTables)
    requires FenceInv(db) && CompletedInv(db, ledger) && LeasesAdvance(db, db')
    ensures FenceInv(db') && CompletedInv(db', ledger)
  {
    forall r | r in db'.runs ensures CompletedConfirmed(db', ledger, r) {
      assert Projection(db', r) == Projection(db, r) && CompletedConfirmed(db, ledger, r);
    }
    forall r | r in db'.runs ensures RunFences(db', r) {
      assert RunFences(db, r);
    }
  }

  /** The network and ledger facts survive any growth of the database that keeps completed steps confirmed. */
  lemma ToolKeeps(cfg: Config, s: System, s': System)
    requires ToolInv(cfg, s) && Grows(s.db, s'.db)
    requires s'.ledger == s.ledger && s'.sent == s.sent && s'.admitted == s.admitted && s'.replies == s.replies
    requires CompletedInv(s'.db, s'.ledger)
    ensures ToolInv(cfg, s')
  {
    forall x | x in s'.sent ensures Authorized(s'.db, x) {
      AuthorizedGrows(s.db, s'.db, x);
    }
  }

  // ----- workers -----

  /** Replacing the state of one worker, when the others keep their invariant and the fences stay distinct. */
  lemma ReplaceWorker(s: System, s': System, w: nat, worker: Worker)
    requires WorkersInv(s) && s'.workers == s.workers[w := worker]
    requires forall v :: v in s.workers && v != w ==> WorkerInv(s'.db, s'.ledger, s.workers[v])
    requires WorkerInv(s'.db, s'.ledger, worker)
    requires forall v :: v in s.workers && v != w && Active(s.workers[v]) && Active(worker)
                         && s.workers[v].lease.runId == worker.lease.runId ==>
               s.workers[v].lease.fenceToken != worker.lease.fenceToken
    ensures WorkersInv(s')
  {
  }

  /** The worker keeps the lease it had, or becomes idle. */
  predicate SameLease(before: Worker, after: Worker) {
    Active(after) ==> Active(before) && before.lease == after.lease
  }

  lemma MoveWorker(s: System, s': System, w: nat, worker: Worker)
    requires WorkersInv(s) && s'.workers == s.workers[w := worker] && SameLease(WorkerAt(s, w), worker)
    requires forall v :: v in s.workers && v != w ==> WorkerInv(s'.db, s'.ledger, s.workers[v])
    requires WorkerInv(s'.db, s'.ledger, worker)
    ensures WorkersInv(s')
  {
    ReplaceWorker(s, s', w, worker);
  }

  /** Sending, receiving, losing a connection, unwinding and crashing change one worker and at most the network. */
  lemma LocalMoveKeeps(cfg: Config, s: System, w: nat, worker: Worker)
    requires Inv(cfg, s) && SameLease(WorkerAt(s, w), worker) && WorkerInv(s.db, s.ledger, worker)
    ensures Inv(cfg, SetWorker(s, w, worker))
  {
    MoveWorker(s, SetWorker(s, w, worker), w, worker);
  }

  lemma CrashKeeps(cfg: Config, s: System, w: nat)
    requires Inv(cfg, s)
    ensures Inv(cfg, SetWorker(s, w, Idle))
  {
    LocalMoveKeeps(cfg, s, w, Idle);
  }

  lemma AbortKeeps(cfg: Config, s: System, w: nat)
    requires Inv(cfg, s) && !WorkerAt(s, w).Idle?
    ensures Inv(cfg, SetWorker(s, w, Releasing(WorkerAt(s, w).lease)))
  {
    WorkerInvAt(cfg, s, w);
    LocalMoveKeeps(cfg, s, w, Releasing(WorkerAt(s, w).lease));
  }

  /** Having recorded its attempt, a worker may send the request and take whatever outcome is confirmed. */
  lemma WorkerMovesOn(db: Db, ledger: LedgerTables, step: StepRecord, lease: Lease, before: Worker, outcome: Outcome)
    requires WorkerInv(db, ledger, before)
    requires before == Recorded(step, lease) || before == Waiting(step, lease)
    requires outcome.Success? ==> Confirmed(ledger, step.operationKey, outcome.result)
    ensures WorkerInv(db, ledger, Waiting(step, lease)) && WorkerInv(db, ledger, Answered(step, lease, outcome))
    ensures Authorized(db, SentFor(step, lease))
  {
  }

  lemma WorkerInvAt(cfg: Config, s: System, w: nat)
    requires Inv(cfg, s)
    ensures WorkerInv(s.db, s.ledger, WorkerAt(s, w))
  {
  }

  lemma NetworkGrows(s: System, x: Sent)
    requires NetworkInv(s) && EffectsInv(s) && Authorized(s.db, x)
    ensures NetworkInv(s.(sent := s.sent + {x})) && EffectsInv(s.(sent := s.sent + {x}))
  {
    forall k | 0 <= k < |s.ledger.effects| ensures Requested(s.sent + {x}, s.ledger.effects[k]) {
      assert Requested(s.sent, s.ledger.effects[k]);
      var y :| y in s.sent && Requests(y, s.ledger.effects[k]);
      assert y in s.sent + {x};
    }
  }

  lemma SendKeeps(cfg: Config, s: System, w: nat, step: StepRecord, lease: Lease)
    requires Inv(cfg, s) && WorkerAt(s, w) == Recorded(step, lease)
    ensures Inv(cfg, SetWorker(s.(sent := s.sent + {SentFor(step, lease)}), w, Waiting(step, lease)))
  {
    WorkerInvAt(cfg, s, w);
    WorkerMovesOn(s.db, s.ledger, step, lease, WorkerAt(s, w), Unreadable);
    NetworkGrows(s, SentFor(step, lease));
    MoveWorker(s, SetWorker(s.(sent := s.sent + {SentFor(step, lease)}), w, Waiting(step, lease)), w,
               Waiting(step, lease));
  }

  lemma ReceiveKeeps(cfg: Config, s: System, w: nat, step: StepRecord, lease: Lease, http: HttpReply)
    requires Inv(cfg, s) && WorkerAt(s, w) == Waiting(step, lease) && Reply(SentFor(step, lease), http) in s.replies
    ensures Inv(cfg, SetWorker(s, w, Answered(step, lease, Interpret(http))))
  {
    WorkerInvAt(cfg, s, w);
    assert ReplySound(s.ledger, Reply(SentFor(step, lease), http));
    WorkerMovesOn(s.db, s.ledger, step, lease, WorkerAt(s, w), Interpret(http));
    LocalMoveKeeps(cfg, s, w, Answered(step, lease, Interpret(http)));
  }

  lemma TransportErrorKeeps(cfg: Config, s: System, w: nat, step: StepRecord, lease: Lease, detail: string)
    requires Inv(cfg, s) && WorkerAt(s, w) == Waiting(step, lease)
    ensures Inv(cfg, SetWorker(s, w, Answered(step, lease, NoAnswer(detail))))
  {
    WorkerInvAt(cfg, s, w);
    WorkerMovesOn(s.db, s.ledger, step, lease, WorkerAt(s, w), NoAnswer(detail));
    LocalMoveKeeps(cfg, s, w, Answered(step, lease, NoAnswer(detail)));
  }

  // ----- leases -----

  /** Workers other than `w` keep their invariant when only runs they are not current on change. */
  lemma BystandersKeep(s: System, s': System, w: nat)
    requires WorkersInv(s) && Grows(s.db, s'.db) && LedgerExtends(s.ledger, s'.ledger)
    requires forall v :: v in s.workers && v != w && Active(s.workers[v]) && Current(s'.db, s.workers[v].lease) ==>
               SameRun(s.db, s'.db, s.workers[v].lease.runId)
    ensures forall v :: v in s.workers && v != w ==> WorkerInv(s'.db, s'.ledger, s.workers[v])
  {
    forall v | v in s.workers && v != w ensures WorkerInv(s'.db, s'.ledger, s.workers[v]) {
      BystanderKeeps(s.db, s'.db, s.ledger, s'.ledger, s.workers[v]);
    }
  }

  /** A step on leases alone disturbs no worker. */
  lemma LeaseStepWorkers(cfg: Config, s: System, db': Db)
    requires Inv(cfg, s) && LeasesAdvance(s.db, db')
    ensures EngineInv(cfg, s.(db := db')) && ToolInv(cfg, s.(db := db'))
    ensures forall v :: v in s.workers ==> WorkerInv(db', s.ledger, s.workers[v])
  {
    LeaseStepKeeps(cfg, s, db');
    WorkersKnowRuns(s);
    forall v | v in s.workers ensures WorkerInv(db', s.ledger, s.workers[v]) {
      BystanderKeeps(s.db, db', s.ledger, s.ledger, s.workers[v]);
    }
  }

  lemma WorkersKnowRuns(s: System)
    requires WorkersInv(s)
    ensures forall v :: v in s.workers && Active(s.workers[v]) ==> s.workers[v].lease.runId in s.db.runs
  {
    forall v | v in s.workers && Active(s.workers[v]) ensures s.workers[v].lease.runId in s.db.runs {
      assert WorkerInv(s.db, s.ledger, s.workers[v]);
    }
  }

  lemma RenewAdvances(db: Db, runId: string, ownerId: string, fenceToken: int, ttl: Time, now: Time)
    requires db.leases.Keys <= db.runs.Keys
    ensures LeasesAdvance(db, RenewLease(db, runId, ownerId, fenceToken, ttl, now))
    ensures LeasesAdvance(db, ReleaseLease(db, runId, ownerId, fenceToken, now))
  {
  }

  lemma ClaimAdvances(db: Db, runId: string, ownerId: string, ttl: Time, now: Time)
    requires db.leases.Keys <= db.runs.Keys && runId in db.runs
    ensures LeasesAdvance(db, ClaimStep(db, runId, ownerId, ttl, now))
  {
  }

  lemma RenewKeeps(cfg: Config, s: System, runId: string, ownerId: string, fenceToken: int, ttl: Time, now: Time)
    requires Inv(cfg, s)
    ensures Inv(cfg, s.(db := RenewLease(s.db, runId, ownerId, fenceToken, ttl, now)))
  {
    var db' := RenewLease(s.db, runId, ownerId, fenceToken, ttl, now);
    RenewAdvances(s.db, runId, ownerId, fenceToken, ttl, now);
    LeaseStepWorkers(cfg, s, db');
  }

  lemma ReleaseKeeps(cfg: Config, s: System, w: nat, lease: Lease, now: Time)
    requires Inv(cfg, s) && WorkerAt(s, w) == Releasing(lease)
    ensures Inv(cfg, SetWorker(s.(db := ReleaseLease(s.db, lease.runId, lease.ownerId, lease.fenceToken, now)),
                               w, Idle))
  {
    var db' := ReleaseLease(s.db, lease.runId, lease.ownerId, lease.fenceToken, now);
    RenewAdvances(s.db, lease.runId, lease.ownerId, lease.fenceToken, 0, now);
    LeaseStepWorkers(cfg, s, db');
    MoveWorker(s, SetWorker(s.(db := db'), w, Idle), w, Idle);
  }

  /** The claimed step is runnable, its dependencies are completed, and the new fence exceeds every fence in the
      history. */
  lemma ClaimedWorker(db: Db, ledger: LedgerTables, ownerId: string, ttl: Time, now: Time, runId: string, i: nat)
    requires DbInv(db) && FenceInv(db) && Selectable(db, now, runId, i)
    ensures WorkerInv(ClaimStep(db, runId, ownerId, ttl, now), ledger,
                      Claimed(Projection(db, runId).steps[i], ClaimLease(db, runId, ownerId, ttl, now)))
  {
    RunFacts(db, runId);
    BlockedExactly(runId, db.runs[runId], RowsOf(db.steps, runId), RowsOf(db.dependencies, runId), i);
    assert RunFences(db, runId);
  }

  /** A claim's fence is newer than the fence of every worker on the run. */
  lemma ClaimedFenceIsNew(s: System, runId: string)
    requires WorkersInv(s)
    ensures forall v :: v in s.workers && Active(s.workers[v]) && s.workers[v].lease.runId == runId ==>
              s.workers[v].lease.fenceToken < NextFence(s.db, runId)
  {
    forall v | v in s.workers && Active(s.workers[v]) && s.workers[v].lease.runId == runId
      ensures s.workers[v].lease.fenceToken < NextFence(s.db, runId)
    {
      assert WorkerInv(s.db, s.ledger, s.workers[v]);
    }
  }

  lemma ClaimKeeps(cfg: Config, s: System, w: nat, ownerId: string, ttl: Time, now: Time, runId: string, i: nat)
    requires Inv(cfg, s) && WorkerAt(s, w).Idle? && Selectable(s.db, now, runId, i)
    ensures Inv(cfg, DoClaim(s, w, ownerId, ttl, now, runId, i))
  {
    var db' := ClaimStep(s.db, runId, ownerId, ttl, now);
    ClaimAdvances(s.db, runId, ownerId, ttl, now);
    LeaseStepWorkers(cfg, s, db');
    ClaimedWorker(s.db, s.ledger, ownerId, ttl, now, runId, i);
    ClaimedFenceIsNew(s, runId);
    ReplaceWorker(s, DoClaim(s, w, ownerId, ttl, now, runId, i), w,
                  Claimed(Projection(s.db, runId).steps[i], ClaimLease(s.db, runId, ownerId, ttl, now)));
  }
}
