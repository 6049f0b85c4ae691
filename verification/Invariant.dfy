/** The inductive invariant of the protocol: what ties storage, history, workers, network and ledger together. */
module Invariant {
  import opened Models
  import opened HistoryFacts
  import opened Database
  import opened Refinement
  import opened Gateway
  import opened Ledger
  import opened Protocol

  // ----- fences -----

  predicate IsStart(event: Event) {
    event.eventType.StepAttemptStarted? && event.payload.StartedPayload?
  }

  ghost predicate FencesBelow(events: seq<Event>, bound: int) {
    forall k :: 0 <= k < |events| && IsStart(events[k]) ==>
      events[k].payload.fenceToken.Some? && events[k].payload.fenceToken.value < bound
  }

  ghost predicate FencesIncrease(events: seq<Event>) {
    forall j, k :: 0 <= j < k < |events| && IsStart(events[j]) && IsStart(events[k])
                   && events[j].payload.fenceToken.Some? && events[k].payload.fenceToken.Some? ==>
      events[j].payload.fenceToken.value < events[k].payload.fenceToken.value
  }

  /** Attempt events carry increasing fences that the lease row has already reached. */
  ghost predicate RunFences(db: Db, r: string) {
    FencesIncrease(RowsOf(db.events, r)) && FencesBelow(RowsOf(db.events, r), NextFence(db, r))
  }

  ghost predicate FenceInv(db: Db) {
    forall r {:trigger RunFences(db, r)} :: r in db.runs ==> RunFences(db, r)
  }

  // ----- workers -----

  predicate Active(worker: Worker) {
    !worker.Idle?
  }

  predicate Current(db: Db, lease: Lease) {
    lease.runId in db.leases && db.leases[lease.runId].fenceToken == lease.fenceToken
  }

  predicate StepNow(db: Db, runId: string, step: StepRecord) {
    runId in db.runs && step in Projection(db, runId).steps
  }

  /** While its fence is the newest one of the run, nobody else has touched the run. */
  ghost predicate Undisturbed(db: Db, worker: Worker)
    requires Active(worker)
  {
    worker.Releasing? ||
    (worker.lease.runId in db.runs && db.runs[worker.lease.runId].status.Running?
     && StepNow(db, worker.lease.runId, worker.step)
     && (if worker.Claimed?
         then RunnableStatus(worker.step.status)
              && DependenciesDone(Projection(db, worker.lease.runId), worker.step)
              && FencesBelow(RowsOf(db.events, worker.lease.runId), worker.lease.fenceToken)
         else worker.step.status.IntentRecorded?))
  }

  predicate AuthorizedBy(event: Event, sent: Sent) {
    IsStart(event) && event.stepId == Some(sent.stepId) && event.attempt == Some(sent.attempt)
    && event.payload.fenceToken == Some(sent.fence)
    && event.payload.operation == sent.operation && event.payload.request == sent.request
    && event.payload.operationKey == sent.operationKey
  }

  /** The run's history holds the attempt that this request belongs to. */
  ghost predicate Authorized(db: Db, sent: Sent) {
    sent.runId in db.runs
    && exists k :: 0 <= k < |RowsOf(db.events, sent.runId)| && AuthorizedBy(RowsOf(db.events, sent.runId)[k], sent)
  }

  /** The ledger holds a result for the key, with the same reference. */
  predicate Confirmed(ledger: LedgerTables, operationKey: string, result: ToolResult) {
    operationKey in ledger.results
    && ledger.results[operationKey].response.referenceId == result.referenceId
    && ledger.results[operationKey].response.operation == result.operation
  }

  ghost predicate WorkerInv(db: Db, ledger: LedgerTables, worker: Worker) {
    Active(worker) ==>
      && worker.lease.runId in db.runs && worker.lease.runId in db.leases
      && worker.lease.fenceToken <= db.leases[worker.lease.runId].fenceToken
      && (Current(db, worker.lease) ==> Undisturbed(db, worker))
      && (worker.Recorded? || worker.Waiting? || worker.Answered? ==>
            Authorized(db, SentFor(worker.step, worker.lease))
            && worker.step.operationKey == OperationKey(worker.lease.runId, worker.step.id)
            && worker.step.attempts >= 1)
      && (worker.Answered? && worker.outcome.Success? ==>
            Confirmed(ledger, worker.step.operationKey, worker.outcome.result))
  }

  ghost predicate WorkersInv(s: System) {
    (forall w {:trigger WorkerInv(s.db, s.ledger, s.workers[w])} :: w in s.workers ==>
       WorkerInv(s.db, s.ledger, s.workers[w]))
    && (forall v, w :: v in s.workers && w in s.workers && v != w && Active(s.workers[v]) && Active(s.workers[w])
                       && s.workers[v].lease.runId == s.workers[w].lease.runId ==>
          s.workers[v].lease.fenceToken != s.workers[w].lease.fenceToken)
  }

  // ----- network and ledger -----

  ghost predicate ReplySound(ledger: LedgerTables, reply: Reply) {
    reply.http.status != 409
    && (Interpret(reply.http).Success? ==> Confirmed(ledger, reply.sent.operationKey, Interpret(reply.http).result))
  }

  ghost predicate NetworkInv(s: System) {
    (forall x :: x in s.sent ==> Authorized(s.db, x))
    && s.admitted <= s.sent
    && (forall y :: y in s.replies ==> y.sent in s.sent && ReplySound(s.ledger, y))
  }

  predicate Requests(sent: Sent, effect: SideEffect) {
    sent.operationKey == effect.operationKey && sent.operation == effect.operation && sent.request == effect.request
  }

  ghost predicate Requested(sent: set<Sent>, effect: SideEffect) {
    exists x :: x in sent && Requests(x, effect)
  }

  ghost predicate EffectsInv(s: System) {
    forall k :: 0 <= k < |s.ledger.effects| ==> Requested(s.sent, s.ledger.effects[k])
  }

  ghost predicate CompletedConfirmed(db: Db, ledger: LedgerTables, r: string)
    requires r in db.runs
  {
    forall i :: 0 <= i < |Projection(db, r).steps| && Projection(db, r).steps[i].status.Completed? ==>
      Projection(db, r).steps[i].output.Some?
      && Confirmed(ledger, Projection(db, r).steps[i].operationKey, Projection(db, r).steps[i].output.value)
  }

  /** Every completed step's stored output names its ledger entry. */
  ghost predicate CompletedInv(db: Db, ledger: LedgerTables) {
    forall r {:trigger CompletedConfirmed(db, ledger, r)} :: r in db.runs ==> CompletedConfirmed(db, ledger, r)
  }

  // ----- retries and cooldowns -----

  /** The entry describes the retry event with its sequence number. */
  ghost predicate Logged(db: Db, entry: RetryEntry) {
    entry.runId in db.runs && 1 <= entry.sequence <= |RowsOf(db.events, entry.runId)|
    && var event := RowsOf(db.events, entry.runId)[entry.sequence - 1];
    && event.eventType.StepRetryScheduled? && event.stepId == Some(entry.stepId) && event.attempt == Some(entry.attempt)
    && event.payload.RetryPayload? && event.payload.nextAttemptAt == entry.deadline
  }

  ghost predicate EntrySound(settings: Settings, entry: RetryEntry) {
    1 <= entry.attempt < settings.maxAttempts
    && (entry.local ==> entry.delay == LocalDelay(settings, entry.attempt))
  }

  ghost predicate EntriesOrdered(retries: seq<RetryEntry>) {
    forall d, e :: 0 <= d < e < |retries| && retries[d].runId == retries[e].runId ==>
      retries[d].sequence < retries[e].sequence
  }

  predicate HasEntry(retries: seq<RetryEntry>, runId: string, sequence: int) {
    exists e :: 0 <= e < |retries| && retries[e].runId == runId && retries[e].sequence == sequence
  }

  predicate Covered(db: Db, retries: seq<RetryEntry>, r: string, k: int) {
    0 <= k < |RowsOf(db.events, r)| && RowsOf(db.events, r)[k].eventType.StepRetryScheduled? ==>
      HasEntry(retries, r, k + 1)
  }

  /** Every retry event has an entry. */
  ghost predicate EntriesComplete(db: Db, retries: seq<RetryEntry>) {
    forall r, k {:trigger Covered(db, retries, r, k)} :: r in db.runs ==> Covered(db, retries, r, k)
  }

  ghost predicate EntriesLogged(settings: Settings, db: Db, retries: seq<RetryEntry>) {
    forall e {:trigger Logged(db, retries[e])} :: 0 <= e < |retries| ==>
      Logged(db, retries[e]) && EntrySound(settings, retries[e])
  }

  ghost predicate RetriesInv(cfg: Config, db: Db, retries: seq<RetryEntry>) {
    EntriesLogged(cfg.settings, db, retries)
    && EntriesOrdered(retries) && EntriesComplete(db, retries)
  }

  /** The latest deadline of all throttling retries of one tool. */
  function LatestDeadline(retries: seq<RetryEntry>, toolKey: string): Option<Time> {
    if retries == [] then None
    else
      var last := retries[|retries| - 1];
      var rest := LatestDeadline(retries[..|retries| - 1], toolKey);
      if !last.throttled || last.toolKey != toolKey then rest
      else if rest.Some? && rest.value > last.deadline then rest
      else Some(last.deadline)
  }

  ghost predicate ThrottleExact(throttles: map<string, Throttle>, retries: seq<RetryEntry>, toolKey: string) {
    (toolKey in throttles <==> LatestDeadline(retries, toolKey).Some?)
    && (toolKey in throttles ==> LatestDeadline(retries, toolKey) == Some(throttles[toolKey].blockedUntil))
  }

  ghost predicate ThrottlesInv(throttles: map<string, Throttle>, retries: seq<RetryEntry>) {
    forall t {:trigger ThrottleExact(throttles, retries, t)} :: ThrottleExact(throttles, retries, t)
  }

  // ----- the invariant -----

  ghost predicate EngineInv(cfg: Config, s: System) {
    DbInv(s.db) && FenceInv(s.db) && RetriesInv(cfg, s.db, s.retries) && ThrottlesInv(s.db.throttles, s.retries)
  }

  ghost predicate ToolInv(cfg: Config, s: System) {
    LedgerInv(s.ledger, cfg.digest) && EffectsInv(s) && NetworkInv(s) && CompletedInv(s.db, s.ledger)
  }

  ghost predicate Inv(cfg: Config, s: System) {
    EngineInv(cfg, s) && ToolInv(cfg, s) && WorkersInv(s)
  }

  lemma InitialInvariant(cfg: Config)
    ensures Inv(cfg, EMPTY_SYSTEM)
  {
  }

  // ----- growth of the database -----

  /** Between any two states: histories only get longer, runs only move on, fences never fall. */
  ghost predicate Grows(db: Db, db': Db) {
    (forall r :: r in db.runs ==>
       r in db'.runs && RowsOf(db.events, r) <= RowsOf(db'.events, r) && Extends(Projection(db, r), Projection(db', r)))
    && (forall r :: r in db.leases ==> r in db'.leases && db.leases[r].fenceToken <= db'.leases[r].fenceToken)
  }

  /** The rows and events of one run are the same in both databases. */
  ghost predicate SameRun(db: Db, db': Db, r: string) {
    r in db.runs && r in db'.runs && db'.runs[r] == db.runs[r]
    && RowsOf(db'.steps, r) == RowsOf(db.steps, r) && RowsOf(db'.dependencies, r) == RowsOf(db.dependencies, r)
    && RowsOf(db'.events, r) == RowsOf(db.events, r)
  }

  lemma ExtendsReflexive(run: WorkflowRun)
    ensures Extends(run, run)
  {
  }

  lemma AuthorizedGrows(db: Db, db': Db, sent: Sent)
    requires Grows(db, db') && Authorized(db, sent)
    ensures Authorized(db', sent)
  {
    var k :| 0 <= k < |RowsOf(db.events, sent.runId)| && AuthorizedBy(RowsOf(db.events, sent.runId)[k], sent);
    assert RowsOf(db'.events, sent.runId)[k] == RowsOf(db.events, sent.runId)[k];
  }

  lemma LoggedGrows(db: Db, db': Db, entry: RetryEntry)
    requires Grows(db, db') && Logged(db, entry)
    ensures Logged(db', entry)
  {
    assert RowsOf(db'.events, entry.runId)[entry.sequence - 1] == RowsOf(db.events, entry.runId)[entry.sequence - 1];
  }

  lemma EntriesLoggedGrows(settings: Settings, db: Db, db': Db, retries: seq<RetryEntry>)
    requires Grows(db, db') && EntriesLogged(settings, db, retries)
    ensures EntriesLogged(settings, db', retries)
  {
    forall e | 0 <= e < |retries| ensures Logged(db', retries[e]) && EntrySound(settings, retries[e]) {
      assert Logged(db, retries[e]);
      LoggedGrows(db, db', retries[e]);
    }
  }

  /** A worker that did not act keeps its invariant, provided nobody commits on a run whose newest fence it holds. */
  lemma BystanderKeeps(db: Db, db': Db, ledger: LedgerTables, ledger': LedgerTables, worker: Worker)
    requires WorkerInv(db, ledger, worker) && Grows(db, db') && LedgerExtends(ledger, ledger')
    requires Active(worker) && Current(db', worker.lease) ==> SameRun(db, db', worker.lease.runId)
    ensures WorkerInv(db', ledger', worker)
  {
    if Active(worker) {
      if worker.Recorded? || worker.Waiting? || worker.Answered? {
        AuthorizedGrows(db, db', SentFor(worker.step, worker.lease));
      }
      if Current(db', worker.lease) {
        assert Current(db, worker.lease);
        assert Projection(db', worker.lease.runId) == Projection(db, worker.lease.runId);
      }
    }
  }
}
