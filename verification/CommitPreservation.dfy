/** The committing actions keep the invariant: they are where histories, attempts and retries grow. */
module CommitPreservation {
  import opened Models
  import opened Graph
  import opened History
  import opened HistoryFacts
  import opened Database
  import opened Refinement
  import opened Transitions
  import opened Lifecycle
  import opened Gateway
  import opened Ledger
  import opened Protocol
  import opened Invariant
  import opened Preservation

  // ----- consequences of a commit on one run -----

  /** The log of run `r` grew by `appended`; nothing happened to the others. */
  ghost predicate LogGrew(db: Db, db': Db, r: string, appended: seq<Event>) {
    r in db.runs && db'.runs.Keys == db.runs.Keys && db'.leases == db.leases
    && (forall q :: q in db.runs && q != r ==> SameRun(db, db', q))
    && RowsOf(db'.events, r) == RowsOf(db.events, r) + appended
  }

  lemma CommittedGrows(db: Db, db': Db, r: string, appended: seq<Event>)
    requires MovedOn(db, db', r, appended)
    ensures Grows(db, db') && LogGrew(db, db', r, appended)
  {
    forall q | q in db.runs ensures q in db'.runs && RowsOf(db.events, q) <= RowsOf(db'.events, q)
                                    && Extends(Projection(db, q), Projection(db', q)) {
      if q != r {
        ExtendsReflexive(Projection(db, q));
      }
    }
  }

  /** The committing worker holds the newest fence, so no other worker is current on the run. */
  lemma CommitBystanders(s: System, s': System, w: nat, appended: seq<Event>)
    requires WorkersInv(s) && Active(WorkerAt(s, w)) && Current(s.db, WorkerAt(s, w).lease)
    requires MovedOn(s.db, s'.db, WorkerAt(s, w).lease.runId, appended) && s'.ledger == s.ledger
    ensures forall v :: v in s.workers && v != w ==> WorkerInv(s'.db, s'.ledger, s.workers[v])
  {
    CommittedGrows(s.db, s'.db, WorkerAt(s, w).lease.runId, appended);
    WorkersKnowRuns(s);
    BystandersKeep(s, s', w);
  }

  lemma FencesUnmoved(db: Db, db': Db, r: string, appended: seq<Event>)
    requires FenceInv(db) && LogGrew(db, db', r, appended)
    requires forall k :: 0 <= k < |appended| ==> !IsStart(appended[k])
    ensures FenceInv(db')
  {
    forall q | q in db'.runs ensures RunFences(db', q) {
      var events, events' := RowsOf(db.events, q), RowsOf(db'.events, q);
      assert RunFences(db, q);
      forall k | 0 <= k < |events'| && IsStart(events'[k]) ensures k < |events| && events'[k] == events[k] {
      }
    }
  }

  lemma FencesAdvance(db: Db, db': Db, r: string, start: Event, fence: int)
    requires FenceInv(db) && LogGrew(db, db', r, [start])
    requires r in db.leases && db.leases[r].fenceToken == fence
    requires IsStart(start) && start.payload.fenceToken == Some(fence)
    requires FencesBelow(RowsOf(db.events, r), fence)
    ensures FenceInv(db')
  {
    forall q | q in db'.runs ensures RunFences(db', q) {
      var events, events' := RowsOf(db.events, q), RowsOf(db'.events, q);
      assert RunFences(db, q);
      if q == r {
        assert forall k :: 0 <= k < |events| ==> events'[k] == events[k];
        assert events'[|events|] == start;
      }
    }
  }

  /** Steps other than the one at `i` are as before, and step `i` is confirmed if it is completed. */
  lemma CompletedKeep(db: Db, db': Db, ledger: LedgerTables, r: string, appended: seq<Event>, i: nat)
    requires CompletedInv(db, ledger) && LogGrew(db, db', r, appended)
    requires i < |Projection(db, r).steps| == |Projection(db', r).steps|
    requires Projection(db', r).steps == Projection(db, r).steps[i := Projection(db', r).steps[i]]
    requires var step := Projection(db', r).steps[i];
             step.status.Completed? ==> step.output.Some? && Confirmed(ledger, step.operationKey, step.output.value)
    ensures CompletedInv(db', ledger)
  {
    forall q | q in db'.runs ensures CompletedConfirmed(db', ledger, q) {
      assert CompletedConfirmed(db, ledger, q);
      if q != r {
        assert Projection(db', q) == Projection(db, q);
      }
    }
  }

  lemma RetriesUnmoved(cfg: Config, db: Db, db': Db, retries: seq<RetryEntry>, r: string, appended: seq<Event>)
    requires RetriesInv(cfg, db, retries) && LogGrew(db, db', r, appended) && Grows(db, db')
    requires forall k :: 0 <= k < |appended| ==> !appended[k].eventType.StepRetryScheduled?
    ensures RetriesInv(cfg, db', retries)
  {
    EntriesLoggedGrows(cfg.settings, db, db', retries);
    EntriesStillCover(db, db', retries, r, appended);
  }

  lemma EntriesStillCover(db: Db, db': Db, retries: seq<RetryEntry>, r: string, appended: seq<Event>)
    requires EntriesComplete(db, retries) && LogGrew(db, db', r, appended)
    requires forall k :: 0 <= k < |appended| ==> !appended[k].eventType.StepRetryScheduled?
    ensures EntriesComplete(db', retries)
  {
    forall q, k | q in db'.runs ensures Covered(db', retries, q, k) {
      assert Covered(db, retries, q, k);
      if 0 <= k < |RowsOf(db'.events, q)| && RowsOf(db'.events, q)[k].eventType.StepRetryScheduled? {
        assert k < |RowsOf(db.events, q)| && RowsOf(db.events, q)[k] == RowsOf(db'.events, q)[k];
      }
    }
  }

  lemma RetriesAdvance(cfg: Config, db: Db, db': Db, retries: seq<RetryEntry>, retry: Event, entry: RetryEntry)
    requires RetriesInv(cfg, db, retries) && LogGrew(db, db', entry.runId, [retry]) && Grows(db, db')
    requires entry.sequence == |RowsOf(db.events, entry.runId)| + 1 && EntrySound(cfg.settings, entry)
    requires retry.eventType.StepRetryScheduled? && retry.stepId == Some(entry.stepId)
             && retry.attempt == Some(entry.attempt)
    requires retry.payload.RetryPayload? && retry.payload.nextAttemptAt == entry.deadline
    ensures RetriesInv(cfg, db', retries + [entry])
  {
    EntriesLoggedGrows(cfg.settings, db, db', retries);
    EntryAppended(cfg.settings, db, db', retries, retry, entry);
    EntriesStayOrdered(cfg.settings, db, retries, entry);
    EntriesCover(db, db', retries, retry, entry);
  }

  lemma EntryAppended(settings: Settings, db: Db, db': Db, retries: seq<RetryEntry>, retry: Event, entry: RetryEntry)
    requires LogGrew(db, db', entry.runId, [retry]) && EntriesLogged(settings, db', retries)
    requires entry.sequence == |RowsOf(db.events, entry.runId)| + 1 && EntrySound(settings, entry)
    requires retry.eventType.StepRetryScheduled? && retry.stepId == Some(entry.stepId)
             && retry.attempt == Some(entry.attempt)
    requires retry.payload.RetryPayload? && retry.payload.nextAttemptAt == entry.deadline
    ensures EntriesLogged(settings, db', retries + [entry])
  {
    assert RowsOf(db'.events, entry.runId)[|RowsOf(db.events, entry.runId)|] == retry;
    forall e | 0 <= e < |retries| + 1
      ensures Logged(db', (retries + [entry])[e]) && EntrySound(settings, (retries + [entry])[e])
    {
      assert e < |retries| ==> Logged(db', retries[e]);
    }
  }

  lemma EntriesStayOrdered(settings: Settings, db: Db, retries: seq<RetryEntry>, entry: RetryEntry)
    requires EntriesOrdered(retries) && EntriesLogged(settings, db, retries)
    requires entry.sequence == |RowsOf(db.events, entry.runId)| + 1
    ensures EntriesOrdered(retries + [entry])
  {
    forall d | 0 <= d < |retries| && retries[d].runId == entry.runId ensures retries[d].sequence < entry.sequence {
      assert Logged(db, retries[d]);
    }
  }

  lemma EntriesCover(db: Db, db': Db, retries: seq<RetryEntry>, retry: Event, entry: RetryEntry)
    requires LogGrew(db, db', entry.runId, [retry]) && entry.sequence == |RowsOf(db.events, entry.runId)| + 1
    requires EntriesComplete(db, retries)
    ensures EntriesComplete(db', retries + [entry])
  {
    forall q, k | q in db'.runs ensures Covered(db', retries + [entry], q, k) {
      assert Covered(db, retries, q, k);
      if q == entry.runId && k + 1 == entry.sequence {
        assert (retries + [entry])[|retries|] == entry;
      } else if 0 <= k < |RowsOf(db'.events, q)| && RowsOf(db'.events, q)[k].eventType.StepRetryScheduled? {
        assert RowsOf(db.events, q)[k] == RowsOf(db'.events, q)[k];
        var e :| 0 <= e < |retries| && retries[e].runId == q && retries[e].sequence == k + 1;
        assert (retries + [entry])[e] == retries[e];
      }
    }
  }

  /** The stored cooldown stays the latest deadline of the tool's throttling retries. */
  lemma ThrottlesAdvance(throttles: map<string, Throttle>, retries: seq<RetryEntry>, entry: RetryEntry, error: string,
                         now: Time)
    requires ThrottlesInv(throttles, retries)
    ensures ThrottlesInv(Cooldowns(throttles, entry.throttled, entry.toolKey, entry.deadline, error, now),
                         retries + [entry])
  {
    assert (retries + [entry])[..|retries|] == retries;
    forall t ensures ThrottleExact(Cooldowns(throttles, entry.throttled, entry.toolKey, entry.deadline, error, now),
                                   retries + [entry], t) {
      assert ThrottleExact(throttles, retries, t);
    }
  }

  // ----- creating a run -----

  lemma CreateKeeps(cfg: Config, s: System, runId: string, definition: WorkflowDefinition, toolKey: string, now: Time)
    requires Inv(cfg, s) && IsRunId(runId) && AcceptedDefinition(definition) && runId !in s.db.runs
    ensures Inv(cfg, s.(db := CreateRun(s.db, runId, definition, toolKey, now).value))
  {
    CreateRunCommits(s.db, runId, definition, toolKey, now);
    NewRunKeeps(cfg, s, CreateRun(s.db, runId, definition, toolKey, now).value, runId,
                CreationEvent(runId, definition, toolKey, now));
  }

  lemma NewRunGrows(db: Db, db': Db, runId: string)
    requires runId !in db.runs && OthersUntouched(db, db', runId) && db'.leases == db.leases
    ensures Grows(db, db') && forall q :: q in db.runs ==>
              SameRun(db, db', q) && Projection(db', q) == Projection(db, q)
  {
    forall q | q in db.runs ensures SameRun(db, db', q) && Extends(Projection(db, q), Projection(db', q)) {
      ExtendsReflexive(Projection(db, q));
    }
  }

  lemma NewRunTool(cfg: Config, s: System, db': Db, runId: string)
    requires ToolInv(cfg, s) && Grows(s.db, db') && db'.runs.Keys == s.db.runs.Keys + {runId}
    requires forall q :: q in s.db.runs ==> Projection(db', q) == Projection(s.db, q)
    requires forall i :: 0 <= i < |Projection(db', runId).steps| ==> Projection(db', runId).steps[i].status.Pending?
    ensures ToolInv(cfg, s.(db := db'))
  {
    forall q | q in db'.runs ensures CompletedConfirmed(db', s.ledger, q) {
      assert q in s.db.runs ==> CompletedConfirmed(s.db, s.ledger, q);
    }
    ToolKeeps(cfg, s, s.(db := db'));
  }

  lemma NewRunKeeps(cfg: Config, s: System, db': Db, runId: string, created: Event)
    requires Inv(cfg, s) && runId !in s.db.runs && DbInv(db') && db'.runs.Keys == s.db.runs.Keys + {runId}
    requires OthersUntouched(s.db, db', runId) && db'.leases == s.db.leases && db'.throttles == s.db.throttles
    requires RowsOf(db'.events, runId) == [created] && created.eventType.WorkflowRunCreated?
    requires forall i :: 0 <= i < |Projection(db', runId).steps| ==> Projection(db', runId).steps[i].status.Pending?
    ensures Inv(cfg, s.(db := db'))
  {
    NewRunGrows(s.db, db', runId);
    NewRunTool(cfg, s, db', runId);
    NewRunWorkers(s, db', runId);
    NewRunFences(s.db, db', runId, created);
    NewRunRetries(cfg, s.db, db', s.retries, runId, created);
  }

  lemma NewRunWorkers(s: System, db': Db, runId: string)
    requires WorkersInv(s) && Grows(s.db, db') && forall q :: q in s.db.runs ==> SameRun(s.db, db', q)
    ensures WorkersInv(s.(db := db'))
  {
    WorkersKnowRuns(s);
    forall v | v in s.workers ensures WorkerInv(db', s.ledger, s.workers[v]) {
      BystanderKeeps(s.db, db', s.ledger, s.ledger, s.workers[v]);
    }
  }

  lemma NewRunFences(db: Db, db': Db, runId: string, created: Event)
    requires FenceInv(db) && db'.runs.Keys == db.runs.Keys + {runId} && db'.leases == db.leases
    requires forall q :: q in db.runs ==> SameRun(db, db', q)
    requires RowsOf(db'.events, runId) == [created] && !IsStart(created)
    ensures FenceInv(db')
  {
    forall q | q in db'.runs ensures RunFences(db', q) {
      if q != runId {
        assert RunFences(db, q);
      }
    }
  }

  lemma NewRunRetries(cfg: Config, db: Db, db': Db, retries: seq<RetryEntry>, runId: string, created: Event)
    requires RetriesInv(cfg, db, retries) && Grows(db, db') && db'.runs.Keys == db.runs.Keys + {runId}
    requires forall q :: q in db.runs ==> SameRun(db, db', q)
    requires RowsOf(db'.events, runId) == [created] && !created.eventType.StepRetryScheduled?
    ensures RetriesInv(cfg, db', retries)
  {
    EntriesLoggedGrows(cfg.settings, db, db', retries);
    forall q, k | q in db'.runs ensures Covered(db', retries, q, k) {
      assert q in db.runs ==> Covered(db, retries, q, k);
    }
  }

  // ----- committing on a run -----

  /** Passing the lease check means that the step is exactly as the worker last saw it, on a run that is still
      running. */
  lemma HolderSeesStep(db: Db, ledger: LedgerTables, worker: Worker, leaseNow: Time) returns (i: nat)
    requires DbInv(db) && WorkerInv(db, ledger, worker) && Active(worker) && !worker.Releasing?
    requires LeaseError(db, worker.lease.runId, Some(worker.lease.ownerId), Some(worker.lease.fenceToken),
                        leaseNow).None?
    ensures Current(db, worker.lease) && worker.lease.runId in db.runs && db.runs[worker.lease.runId].status.Running?
    ensures i < |Projection(db, worker.lease.runId).steps| && Projection(db, worker.lease.runId).steps[i] == worker.step
    ensures RowIndex(RowsOf(db.steps, worker.lease.runId), worker.step.id) == Some(i)
  {
    i := StepSeen(db, worker);
  }

  lemma StepSeen(db: Db, worker: Worker) returns (i: nat)
    requires DbInv(db) && Active(worker) && !worker.Releasing? && Undisturbed(db, worker)
    ensures i < |Projection(db, worker.lease.runId).steps| && Projection(db, worker.lease.runId).steps[i] == worker.step
    ensures RowIndex(RowsOf(db.steps, worker.lease.runId), worker.step.id) == Some(i)
  {
    var r := worker.lease.runId;
    RunFacts(db, r);
    i :| 0 <= i < |Projection(db, r).steps| && Projection(db, r).steps[i] == worker.step;
    RowIndexOf(db, r, i);
  }

  lemma RowIndexOf(db: Db, runId: string, i: nat)
    requires runId in db.runs && Shaped(runId, Projection(db, runId)) && i < |Projection(db, runId).steps|
    ensures RowIndex(RowsOf(db.steps, runId), Projection(db, runId).steps[i].id) == Some(i)
  {
    var run, rows := Projection(db, runId), RowsOf(db.steps, runId);
    var found := RowIndex(rows, run.steps[i].id);
    assert rows[i].id == run.steps[i].id;
    assert run.steps[found.value].id == rows[found.value].id;
    StepIdsUnique(runId, run, i, found.value);
  }

  /** The invariant after a commit, assembled from its parts. */
  lemma CommitKeeps(cfg: Config, s: System, s': System, w: nat, worker: Worker, appended: seq<Event>)
    requires Inv(cfg, s) && Active(WorkerAt(s, w)) && Current(s.db, WorkerAt(s, w).lease)
    requires s' == s.(db := s'.db, retries := s'.retries, workers := s.workers[w := worker])
    requires Committed(s.db, s'.db, WorkerAt(s, w).lease.runId, appended)
    requires FenceInv(s'.db) && RetriesInv(cfg, s'.db, s'.retries) && ThrottlesInv(s'.db.throttles, s'.retries)
    requires CompletedInv(s'.db, s'.ledger)
    requires SameLease(WorkerAt(s, w), worker) && WorkerInv(s'.db, s'.ledger, worker)
    ensures Inv(cfg, s')
  {
    CommittedGrows(s.db, s'.db, WorkerAt(s, w).lease.runId, appended);
    CommitBystanders(s, s', w, appended);
    ToolKeeps(cfg, s, s');
    MoveWorker(s, s', w, worker);
  }

  lemma ReleasingWorkerInv(db: Db, db': Db, ledger: LedgerTables, worker: Worker)
    requires WorkerInv(db, ledger, worker) && Active(worker) && db'.runs.Keys == db.runs.Keys && db'.leases == db.leases
    ensures WorkerInv(db', ledger, Releasing(worker.lease))
  {
  }

  // ----- record_attempt -----

  lemma RecordBy(db: Db, ledger: LedgerTables, step: StepRecord, lease: Lease, leaseNow: Time,
                 now: Time) returns (i: nat)
    requires DbInv(db) && WorkerInv(db, ledger, Claimed(step, lease))
    requires RecordAttempt(db, lease.runId, step.id, Some(lease.ownerId), Some(lease.fenceToken), leaseNow, now).Ok?
    ensures Current(db, lease) && lease.runId in db.runs && db.runs[lease.runId].status.Running?
    ensures FencesBelow(RowsOf(db.events, lease.runId), lease.fenceToken)
    ensures i < |Projection(db, lease.runId).steps| && Projection(db, lease.runId).steps[i] == step
    ensures var (db', recorded) :=
              RecordAttempt(db, lease.runId, step.id, Some(lease.ownerId), Some(lease.fenceToken), leaseNow, now).value;
            && recorded == StartedStep(step, now) && db'.throttles == db.throttles && db'.runs == db.runs
            && Projection(db', lease.runId) == WithStep(Projection(db, lease.runId), i, recorded)
            && Committed(db, db', lease.runId,
                 [StartedEvent(step, |RowsOf(db.events, lease.runId)| + 1, Some(lease.ownerId),
                               Some(lease.fenceToken), now)])
  {
    i := HolderSeesStep(db, ledger, Claimed(step, lease), leaseNow);
    var j := RecordAttemptCommits(db, lease.runId, step.id, Some(lease.ownerId), Some(lease.fenceToken), leaseNow, now);
    RunFacts(db, lease.runId);
    StepIdsUnique(lease.runId, Projection(db, lease.runId), i, j);
  }

  lemma RecordedWorkerInv(db: Db, db': Db, ledger: LedgerTables, step: StepRecord, lease: Lease, i: nat, now: Time)
    requires WorkerInv(db, ledger, Claimed(step, lease)) && Current(db, lease) && db.runs[lease.runId].status.Running?
    requires db'.runs == db.runs && db'.leases == db.leases
    requires i < |Projection(db, lease.runId).steps| && Projection(db, lease.runId).steps[i] == step
    requires Projection(db', lease.runId) == WithStep(Projection(db, lease.runId), i, StartedStep(step, now))
    requires step.operationKey == OperationKey(lease.runId, step.id) && step.attempts >= 0
    requires RowsOf(db'.events, lease.runId) == RowsOf(db.events, lease.runId)
               + [StartedEvent(step, |RowsOf(db.events, lease.runId)| + 1, Some(lease.ownerId),
                             Some(lease.fenceToken), now)]
    ensures WorkerInv(db', ledger, Recorded(StartedStep(step, now), lease))
  {
    var recorded := StartedStep(step, now);
    var sent := SentFor(recorded, lease);
    assert AuthorizedBy(RowsOf(db'.events, lease.runId)[|RowsOf(db.events, lease.runId)|], sent);
    assert Projection(db', lease.runId).steps[i] == recorded;
  }

  lemma RecordKeeps(cfg: Config, s: System, w: nat, step: StepRecord, lease: Lease, leaseNow: Time, now: Time)
    requires Inv(cfg, s) && WorkerAt(s, w) == Claimed(step, lease)
    ensures Inv(cfg, DoRecord(s, w, leaseNow, now))
  {
    WorkerInvAt(cfg, s, w);
    var outcome := RecordAttempt(s.db, lease.runId, step.id, Some(lease.ownerId), Some(lease.fenceToken), leaseNow,
                                 now);
    if outcome.Ok? {
      RecordedKeeps(cfg, s, w, step, lease, leaseNow, now);
    } else {
      AbortKeeps(cfg, s, w);
    }
  }

  lemma RecordedKeeps(cfg: Config, s: System, w: nat, step: StepRecord, lease: Lease, leaseNow: Time, now: Time)
    requires Inv(cfg, s) && WorkerAt(s, w) == Claimed(step, lease) && WorkerInv(s.db, s.ledger, Claimed(step, lease))
    requires RecordAttempt(s.db, lease.runId, step.id, Some(lease.ownerId), Some(lease.fenceToken), leaseNow, now).Ok?
    ensures var (db', recorded) :=
              RecordAttempt(s.db, lease.runId, step.id, Some(lease.ownerId), Some(lease.fenceToken), leaseNow,
                            now).value;
            Inv(cfg, SetWorker(s.(db := db'), w, Recorded(recorded, lease)))
  {
    var r := lease.runId;
    var i := RecordBy(s.db, s.ledger, step, lease, leaseNow, now);
    var (db', recorded) := RecordAttempt(s.db, r, step.id, Some(lease.ownerId), Some(lease.fenceToken), leaseNow,
                                         now).value;
    var start := StartedEvent(step, |RowsOf(s.db.events, r)| + 1, Some(lease.ownerId), Some(lease.fenceToken), now);
    StartedInvariant(cfg, s, db', w, step, lease, i, start, now);
  }

  lemma StartedInvariant(cfg: Config, s: System, db': Db, w: nat, step: StepRecord, lease: Lease, i: nat, start: Event,
                         now: Time)
    requires Inv(cfg, s) && WorkerAt(s, w) == Claimed(step, lease) && WorkerInv(s.db, s.ledger, Claimed(step, lease))
    requires Current(s.db, lease) && FencesBelow(RowsOf(s.db.events, lease.runId), lease.fenceToken)
    requires db'.runs == s.db.runs && db'.throttles == s.db.throttles && s.db.runs[lease.runId].status.Running?
    requires i < |Projection(s.db, lease.runId).steps| && Projection(s.db, lease.runId).steps[i] == step
    requires lease.runId in db'.runs
             && Projection(db', lease.runId) == WithStep(Projection(s.db, lease.runId), i, StartedStep(step, now))
    requires start == StartedEvent(step, |RowsOf(s.db.events, lease.runId)| + 1, Some(lease.ownerId),
                                   Some(lease.fenceToken), now)
    requires Committed(s.db, db', lease.runId, [start])
    ensures Inv(cfg, SetWorker(s.(db := db'), w, Recorded(StartedStep(step, now), lease)))
  {
    StartedTables(cfg, s.db, db', s.ledger, s.retries, step, lease, i, start, now);
    ClaimedStepFacts(s.db, lease.runId, i);
    RecordedWorkerInv(s.db, db', s.ledger, step, lease, i, now);
    CommitKeeps(cfg, s, SetWorker(s.(db := db'), w, Recorded(StartedStep(step, now), lease)), w,
                Recorded(StartedStep(step, now), lease), [start]);
  }

  lemma ClaimedStepFacts(db: Db, runId: string, i: nat)
    requires DbInv(db) && runId in db.runs && i < |Projection(db, runId).steps|
    ensures var step := Projection(db, runId).steps[i];
            step.operationKey == OperationKey(runId, step.id) && step.attempts >= 0
  {
    RunFacts(db, runId);
    assert StepSound(Projection(db, runId), Projection(db, runId).steps[i]);
  }

  lemma StartedTables(cfg: Config, db: Db, db': Db, ledger: LedgerTables, retries: seq<RetryEntry>,
                      step: StepRecord, lease: Lease, i: nat, start: Event, now: Time)
    requires FenceInv(db) && RetriesInv(cfg, db, retries) && CompletedInv(db, ledger)
    requires lease.runId in db.runs && lease.runId in db'.runs
    requires Current(db, lease) && FencesBelow(RowsOf(db.events, lease.runId), lease.fenceToken)
    requires i < |Projection(db, lease.runId).steps|
    requires Projection(db', lease.runId) == WithStep(Projection(db, lease.runId), i, StartedStep(step, now))
    requires IsStart(start) && start.payload.fenceToken == Some(lease.fenceToken)
    requires MovedOn(db, db', lease.runId, [start])
    ensures FenceInv(db') && RetriesInv(cfg, db', retries) && CompletedInv(db', ledger)
  {
    CommittedGrows(db, db', lease.runId, [start]);
    FencesAdvance(db, db', lease.runId, start, lease.fenceToken);
    RetriesUnmoved(cfg, db, db', retries, lease.runId, [start]);
    CompletedKeep(db, db', ledger, lease.runId, [start], i);
  }

  // ----- outcomes -----

  /** An outcome without a retry event leaves fences and retries as they are. */
  lemma OutcomeTables(cfg: Config, db: Db, db': Db, ledger: LedgerTables, retries: seq<RetryEntry>, runId: string,
                      i: nat, appended: seq<Event>)
    requires FenceInv(db) && CompletedInv(db, ledger) && MovedOn(db, db', runId, appended)
    requires forall k :: 0 <= k < |appended| ==> !IsStart(appended[k])
    requires i < |Projection(db, runId).steps| == |Projection(db', runId).steps|
    requires Projection(db', runId).steps == Projection(db, runId).steps[i := Projection(db', runId).steps[i]]
    requires var step := Projection(db', runId).steps[i];
             step.status.Completed? ==> step.output.Some? && Confirmed(ledger, step.operationKey, step.output.value)
    ensures FenceInv(db') && CompletedInv(db', ledger)
    ensures RetriesInv(cfg, db, retries) && (forall k :: 0 <= k < |appended| ==>
                                               !appended[k].eventType.StepRetryScheduled?) ==>
              RetriesInv(cfg, db', retries)
  {
    CommittedGrows(db, db', runId, appended);
    FencesUnmoved(db, db', runId, appended);
    CompletedKeep(db, db', ledger, runId, appended, i);
    if RetriesInv(cfg, db, retries) && forall k :: 0 <= k < |appended| ==> !appended[k].eventType.StepRetryScheduled? {
      RetriesUnmoved(cfg, db, db', retries, runId, appended);
    }
  }

  /** The step whose attempt the worker closes is the one it recorded, and it moves as the outcome says. */
  ghost predicate Closed(db: Db, db': Db, worker: Worker, i: nat, appended: seq<Event>)
    requires Active(worker) && !worker.Releasing?
  {
    var r := worker.lease.runId;
    Current(db, worker.lease) && Committed(db, db', r, appended)
    && i < |Projection(db, r).steps| && Projection(db, r).steps[i] == worker.step && worker.step.status.IntentRecorded?
    && |Projection(db', r).steps| == |Projection(db, r).steps|
    && Projection(db', r).steps == Projection(db, r).steps[i := Projection(db', r).steps[i]]
    && SameDefinition(worker.step, Projection(db', r).steps[i])
    && (forall k :: 0 <= k < |appended| ==> !IsStart(appended[k]))
    && appended != [] && Closes(appended[0], worker.step.id, worker.step.attempts)
  }

  lemma SameIndex(db: Db, runId: string, i: nat, j: nat)
    requires DbInv(db) && runId in db.runs && i < |Projection(db, runId).steps| && j < |Projection(db, runId).steps|
    requires Projection(db, runId).steps[i].id == Projection(db, runId).steps[j].id
    ensures i == j
  {
    RunFacts(db, runId);
    StepIdsUnique(runId, Projection(db, runId), i, j);
  }

  lemma ClosedIntro(db: Db, db': Db, worker: Worker, i: nat, step: StepRecord, appended: seq<Event>)
    requires Active(worker) && !worker.Releasing? && Current(db, worker.lease)
    requires Committed(db, db', worker.lease.runId, appended)
    requires i < |Projection(db, worker.lease.runId).steps|
             && Projection(db, worker.lease.runId).steps[i] == worker.step
    requires worker.step.status.IntentRecorded? && SameDefinition(worker.step, step)
    requires Projection(db', worker.lease.runId).steps == Projection(db, worker.lease.runId).steps[i := step]
    requires forall k :: 0 <= k < |appended| ==> !IsStart(appended[k])
    requires appended != [] && Closes(appended[0], worker.step.id, worker.step.attempts)
    ensures Closed(db, db', worker, i, appended) && Projection(db', worker.lease.runId).steps[i] == step
  {
  }

  /** What `FailBy` says, with the committed database named. */
  ghost predicate FailCommitted(db: Db, db': Db, worker: Worker, i: nat, error: string, now: Time)
    requires Active(worker) && !worker.Releasing?
  {
    var r, n := worker.lease.runId, |RowsOf(db.events, worker.lease.runId)|;
    Current(db, worker.lease) && r in db.runs && r in db'.runs && worker.step.status.IntentRecorded?
    && i < |Projection(db, r).steps| && Projection(db, r).steps[i] == worker.step
    && db'.throttles == db.throttles
    && Committed(db, db', r, FailureEvents(worker.step, r, n, error, now))
    && Projection(db', r) == WithStep(Projection(db, r), i, FailedStepRecord(worker.step, error, now)).(
                               status := RunFailed, updatedAt := now)
  }

  function FailureEvents(step: StepRecord, runId: string, n: nat, error: string, now: Time): seq<Event>
  {
    [OutcomeEvent(step, n + 1, StepFailed, FailedPayload(error), now),
     EndedEvent(runId, n + 2, WorkflowRunFailed, Some(step.id), RunFailedPayload(step.id, error), now)]
  }

  lemma FailBy(db: Db, ledger: LedgerTables, worker: Worker, db': Db, error: string, leaseNow: Time,
               now: Time) returns (i: nat)
    requires DbInv(db) && WorkerInv(db, ledger, worker) && worker.Answered?
    requires FailStep(db, worker.lease.runId, worker.step.id, error, Some(worker.lease.ownerId),
                      Some(worker.lease.fenceToken), leaseNow, now) == Ok(db')
    ensures FailCommitted(db, db', worker, i, error, now)
  {
    var r := worker.lease.runId;
    i := HolderSeesStep(db, ledger, worker, leaseNow);
    var j := FailStepCommits(db, r, worker.step.id, error, Some(worker.lease.ownerId),
                             Some(worker.lease.fenceToken), leaseNow, now);
    SameIndex(db, r, i, j);
    FailureNamed(db, db', worker, j, error, now);
  }

  lemma FailureNamed(db: Db, db': Db, worker: Worker, i: nat, error: string, now: Time)
    requires Active(worker) && !worker.Releasing? && Current(db, worker.lease) && worker.step.status.IntentRecorded?
    requires worker.lease.runId in db.runs && worker.lease.runId in db'.runs
    requires i < |Projection(db, worker.lease.runId).steps|
             && Projection(db, worker.lease.runId).steps[i] == worker.step
    requires var r := worker.lease.runId;
             var run, n := Projection(db, r), |RowsOf(db.events, r)|;
             && db'.throttles == db.throttles
             && Projection(db', r) == WithStep(run, i, FailedStepRecord(run.steps[i], error, now)).
                                     (status := RunFailed, updatedAt := now)
             && Committed(db, db', r,
                  [OutcomeEvent(run.steps[i], n + 1, StepFailed, FailedPayload(error), now),
                   EndedEvent(r, n + 2, WorkflowRunFailed, Some(worker.step.id),
                              RunFailedPayload(worker.step.id, error), now)])
    ensures FailCommitted(db, db', worker, i, error, now)
  {
  }

  /** What `CompleteBy` says, with the committed database named; `last` tells whether the run ended with this step. */
  ghost predicate CompleteCommitted(db: Db, db': Db, worker: Worker, i: nat, result: ToolResult, last: bool, now: Time)
    requires Active(worker) && !worker.Releasing?
  {
    var r, n := worker.lease.runId, |RowsOf(db.events, worker.lease.runId)|;
    Current(db, worker.lease) && r in db.runs && r in db'.runs && worker.step.status.IntentRecorded?
    && i < |Projection(db, r).steps| && Projection(db, r).steps[i] == worker.step
    && db'.throttles == db.throttles
    && Committed(db, db', r, CompletionEvents(worker.step, r, n, result, last, now))
    && Projection(db', r).steps == Projection(db, r).steps[i := CompletedStep(worker.step, result, now)]
  }

  lemma CompleteBy(db: Db, ledger: LedgerTables, worker: Worker, db': Db, result: ToolResult, leaseNow: Time, now: Time)
    returns (i: nat, last: bool)
    requires DbInv(db) && WorkerInv(db, ledger, worker) && worker.Answered?
    requires CompleteStep(db, worker.lease.runId, worker.step.id, result, Some(worker.lease.ownerId),
                          Some(worker.lease.fenceToken), leaseNow, now) == Ok(db')
    ensures CompleteCommitted(db, db', worker, i, result, last, now)
  {
    i := HolderSeesStep(db, ledger, worker, leaseNow);
    ActiveForHolder(db, worker, i, leaseNow);
    last := CompleteSeen(db, worker, i, db', result, leaseNow, now);
  }

  /** The same, once the worker is known to see its step as step `i` of the run. */
  lemma CompleteSeen(db: Db, worker: Worker, i: nat, db': Db, result: ToolResult, leaseNow: Time, now: Time)
    returns (last: bool)
    requires DbInv(db) && Active(worker) && !worker.Releasing? && Current(db, worker.lease)
             && worker.step.status.IntentRecorded?
    requires worker.lease.runId in db.runs && db.runs[worker.lease.runId].status.Running?
    requires i < |Projection(db, worker.lease.runId).steps|
             && Projection(db, worker.lease.runId).steps[i] == worker.step
    requires ActiveAttempt(db, worker.lease.runId, worker.step.id, Some(worker.lease.ownerId),
                           Some(worker.lease.fenceToken), leaseNow) == Ok(i)
    requires CompleteStep(db, worker.lease.runId, worker.step.id, result, Some(worker.lease.ownerId),
                          Some(worker.lease.fenceToken), leaseNow, now) == Ok(db')
    ensures CompleteCommitted(db, db', worker, i, result, last, now)
  {
    last := AllStepsCompleted(WithStep(Projection(db, worker.lease.runId), i, CompletedStep(worker.step, result, now)));
    CompletionShows(db, worker.lease.runId, worker.step.id, i, db', result, last, Some(worker.lease.ownerId),
                    Some(worker.lease.fenceToken), leaseNow, now);
    CompletionNamed(db, db', worker, i, result, last, now);
  }

  /** What `CompleteStepCommits` says, with the committed database and the row named. */
  ghost predicate CompletionShown(db: Db, db': Db, r: string, i: nat, result: ToolResult, last: bool, now: Time)
    requires r in db.runs && i < |Projection(db, r).steps|
  {
    var run, n := Projection(db, r), |RowsOf(db.events, r)|;
    var middle := WithStep(run, i, CompletedStep(run.steps[i], result, now));
    r in db'.runs && db'.throttles == db.throttles
    && Projection(db', r) ==
       (if last then middle.(status := RunCompleted, updatedAt := now, completedAt := Some(now)) else middle)
    && Committed(db, db', r, CompletionEvents(run.steps[i], r, n, result, last, now))
  }

  lemma CompletionShows(db: Db, runId: string, stepId: string, i: nat, db': Db, result: ToolResult, last: bool,
                        ownerId: Option<string>, fenceToken: Option<int>, leaseNow: Time, now: Time)
    requires DbInv(db) && runId in db.runs && db.runs[runId].status.Running? && i < |Projection(db, runId).steps|
    requires ActiveAttempt(db, runId, stepId, ownerId, fenceToken, leaseNow) == Ok(i)
    requires CompleteStep(db, runId, stepId, result, ownerId, fenceToken, leaseNow, now) == Ok(db')
    requires last == AllStepsCompleted(WithStep(Projection(db, runId), i,
                                                CompletedStep(Projection(db, runId).steps[i], result, now)))
    ensures CompletionShown(db, db', runId, i, result, last, now)
  {
    var j := CompleteStepCommits(db, runId, stepId, result, ownerId, fenceToken, leaseNow, now);
    CompletionEventsListed(Projection(db, runId).steps[i], runId, |RowsOf(db.events, runId)|, result, now);
  }

  lemma CompletionEventsListed(step: StepRecord, runId: string, n: nat, result: ToolResult, now: Time)
    ensures var completed := OutcomeEvent(step, n + 1, StepCompleted, CompletedPayload(result), now);
            var ended := EndedEvent(runId, n + 2, WorkflowRunCompleted, None, RunCompletedPayload, now);
            CompletionEvents(step, runId, n, result, true, now) == [completed, ended]
            && CompletionEvents(step, runId, n, result, false, now) == [completed]
  {
  }

  lemma CompletionNamed(db: Db, db': Db, worker: Worker, i: nat, result: ToolResult, last: bool, now: Time)
    requires Active(worker) && !worker.Releasing? && Current(db, worker.lease) && worker.step.status.IntentRecorded?
    requires worker.lease.runId in db.runs && i < |Projection(db, worker.lease.runId).steps|
             && Projection(db, worker.lease.runId).steps[i] == worker.step
    requires CompletionShown(db, db', worker.lease.runId, i, result, last, now)
    ensures CompleteCommitted(db, db', worker, i, result, last, now)
  {
  }

  function CompletionEvents(step: StepRecord, runId: string, n: nat, result: ToolResult, last: bool,
                            now: Time): seq<Event>
  {
    [OutcomeEvent(step, n + 1, StepCompleted, CompletedPayload(result), now)]
    + if last then [EndedEvent(runId, n + 2, WorkflowRunCompleted, None, RunCompletedPayload, now)] else []
  }

  lemma CompletionEventsClose(step: StepRecord, runId: string, n: nat, result: ToolResult, last: bool, now: Time)
    ensures var events := CompletionEvents(step, runId, n, result, last, now);
            && events != [] && Closes(events[0], step.id, step.attempts)
            && forall k :: 0 <= k < |events| ==> !IsStart(events[k]) && !events[k].eventType.StepRetryScheduled?
  {
  }

  /** For the holder of the newest fence the attempt is still active, so completing it never returns silently. */
  lemma ActiveForHolder(db: Db, worker: Worker, i: nat, leaseNow: Time)
    requires Active(worker) && !worker.Releasing? && worker.step.status.IntentRecorded?
    requires worker.lease.runId in db.runs
    requires LeaseError(db, worker.lease.runId, Some(worker.lease.ownerId), Some(worker.lease.fenceToken),
                        leaseNow).None?
    requires i < |Projection(db, worker.lease.runId).steps|
             && Projection(db, worker.lease.runId).steps[i] == worker.step
    requires RowIndex(RowsOf(db.steps, worker.lease.runId), worker.step.id) == Some(i)
    ensures ActiveAttempt(db, worker.lease.runId, worker.step.id, Some(worker.lease.ownerId),
                          Some(worker.lease.fenceToken), leaseNow) == Ok(i)
  {
    assert db.steps[worker.lease.runId][i].status == Projection(db, worker.lease.runId).steps[i].status;
  }

  lemma RetryBy(db: Db, ledger: LedgerTables, worker: Worker, error: string, deadline: Time, throttleTool: bool,
                leaseNow: Time, now: Time)
    returns (i: nat)
    requires DbInv(db) && WorkerInv(db, ledger, worker) && worker.Answered?
    requires ScheduleRetry(db, worker.lease.runId, worker.step.id, error, deadline, Some(worker.lease.ownerId),
                           Some(worker.lease.fenceToken), throttleTool, leaseNow, now).Ok?
    ensures Current(db, worker.lease) && worker.lease.runId in db.runs && worker.step.status.IntentRecorded?
    ensures i < |Projection(db, worker.lease.runId).steps| && Projection(db, worker.lease.runId).steps[i] == worker.step
    ensures var r, n := worker.lease.runId, |RowsOf(db.events, worker.lease.runId)|;
            var db' := ScheduleRetry(db, r, worker.step.id, error, deadline, Some(worker.lease.ownerId),
                                     Some(worker.lease.fenceToken), throttleTool, leaseNow, now).value;
            && NextSequence(RowsOf(db.events, r)) == n + 1
            && Committed(db, db', r, [OutcomeEvent(worker.step, n + 1, StepRetryScheduled,
                                                   RetryPayload(error, deadline), now)])
            && Projection(db', r) == WithStep(Projection(db, r), i, RetriedStep(worker.step, error, deadline, now))
            && db'.throttles == Cooldowns(db.throttles, throttleTool, worker.step.toolKey, deadline, error, now)
  {
    var r := worker.lease.runId;
    i := HolderSeesStep(db, ledger, worker, leaseNow);
    var j := ScheduleRetryCommits(db, r, worker.step.id, error, deadline, Some(worker.lease.ownerId),
                                  Some(worker.lease.fenceToken), throttleTool, leaseNow, now);
    SameIndex(db, r, i, j);
    RunFacts(db, r);
  }

  /** A committed failure or completion. */
  lemma FinalCommitKeeps(cfg: Config, s: System, db': Db, w: nat, worker: Worker, i: nat, appended: seq<Event>)
    requires Inv(cfg, s) && WorkerAt(s, w) == worker && worker.Answered?
    requires Closed(s.db, db', worker, i, appended) && db'.throttles == s.db.throttles
    requires forall k :: 0 <= k < |appended| ==> !appended[k].eventType.StepRetryScheduled?
    requires var step := Projection(db', worker.lease.runId).steps[i];
             step.status.Completed? ==> step.output.Some? && Confirmed(s.ledger, step.operationKey, step.output.value)
    ensures Inv(cfg, SetWorker(s.(db := db'), w, Releasing(worker.lease)))
  {
    WorkerInvAt(cfg, s, w);
    OutcomeTables(cfg, s.db, db', s.ledger, s.retries, worker.lease.runId, i, appended);
    ReleasingWorkerInv(s.db, db', s.ledger, worker);
    CommitKeeps(cfg, s, SetWorker(s.(db := db'), w, Releasing(worker.lease)), w, Releasing(worker.lease), appended);
  }

  lemma FailKeeps(cfg: Config, s: System, w: nat, worker: Worker, error: string, leaseNow: Time, now: Time)
    requires Inv(cfg, s) && WorkerAt(s, w) == worker && worker.Answered?
    ensures Inv(cfg, SetWorker(FailAttempt(s, worker.step, worker.lease, error, leaseNow, now),
                               w, Releasing(worker.lease)))
  {
    var result := FailStep(s.db, worker.lease.runId, worker.step.id, error, Some(worker.lease.ownerId),
                           Some(worker.lease.fenceToken), leaseNow, now);
    if result.Ok? {
      WorkerInvAt(cfg, s, w);
      var i := FailBy(s.db, s.ledger, worker, result.value, error, leaseNow, now);
      FailedKeeps(cfg, s, result.value, w, worker, i, error, now);
    } else {
      AbortKeeps(cfg, s, w);
    }
  }

  lemma FailedKeeps(cfg: Config, s: System, db': Db, w: nat, worker: Worker, i: nat, error: string, now: Time)
    requires Inv(cfg, s) && WorkerAt(s, w) == worker && worker.Answered?
    requires FailCommitted(s.db, db', worker, i, error, now)
    ensures Inv(cfg, SetWorker(s.(db := db'), w, Releasing(worker.lease)))
  {
    FailureCloses(s.db, db', worker, i, error, now);
    FinalCommitKeeps(cfg, s, db', w, worker, i,
                     FailureEvents(worker.step, worker.lease.runId, |RowsOf(s.db.events, worker.lease.runId)|, error,
                                   now));
  }

  lemma FailureCloses(db: Db, db': Db, worker: Worker, i: nat, error: string, now: Time)
    requires Active(worker) && !worker.Releasing? && FailCommitted(db, db', worker, i, error, now)
    ensures var events := FailureEvents(worker.step, worker.lease.runId, |RowsOf(db.events, worker.lease.runId)|, error,
                                        now);
            Closed(db, db', worker, i, events) && Projection(db', worker.lease.runId).steps[i].status.Failed?
            && forall k :: 0 <= k < |events| ==> !events[k].eventType.StepRetryScheduled?
  {
    ClosedIntro(db, db', worker, i, FailedStepRecord(worker.step, error, now),
                FailureEvents(worker.step, worker.lease.runId, |RowsOf(db.events, worker.lease.runId)|, error, now));
  }

  lemma CompleteKeeps(cfg: Config, s: System, w: nat, worker: Worker, result: ToolResult, leaseNow: Time, now: Time)
    requires Inv(cfg, s) && WorkerAt(s, w) == worker && worker.Answered? && worker.outcome == Success(result)
    ensures Inv(cfg, SetWorker(CompleteAttempt(s, worker.step, worker.lease, result, leaseNow, now),
                               w, Releasing(worker.lease)))
  {
    var committed := CompleteStep(s.db, worker.lease.runId, worker.step.id, result, Some(worker.lease.ownerId),
                                  Some(worker.lease.fenceToken), leaseNow, now);
    if committed.Ok? {
      WorkerInvAt(cfg, s, w);
      var i, last := CompleteBy(s.db, s.ledger, worker, committed.value, result, leaseNow, now);
      CompletedKeeps(cfg, s, committed.value, w, worker, i, result, last, now);
    } else {
      AbortKeeps(cfg, s, w);
    }
  }

  lemma CompletedKeeps(cfg: Config, s: System, db': Db, w: nat, worker: Worker, i: nat, result: ToolResult, last: bool,
                       now: Time)
    requires Inv(cfg, s) && WorkerAt(s, w) == worker && worker.Answered?
             && Confirmed(s.ledger, worker.step.operationKey, result)
    requires CompleteCommitted(s.db, db', worker, i, result, last, now)
    ensures Inv(cfg, SetWorker(s.(db := db'), w, Releasing(worker.lease)))
  {
    var appended := CompletionEvents(worker.step, worker.lease.runId, |RowsOf(s.db.events, worker.lease.runId)|,
                                     result, last, now);
    CompletionEventsClose(worker.step, worker.lease.runId, |RowsOf(s.db.events, worker.lease.runId)|, result, last,
                          now);
    ClosedIntro(s.db, db', worker, i, CompletedStep(worker.step, result, now), appended);
    FinalCommitKeeps(cfg, s, db', w, worker, i, appended);
  }

  /** What `RetryBy` says, with the committed database named. */
  ghost predicate RetryCommitted(db: Db, db': Db, worker: Worker, i: nat, error: string, deadline: Time,
                                 throttleTool: bool, now: Time)
    requires Active(worker) && !worker.Releasing?
  {
    var r, n := worker.lease.runId, |RowsOf(db.events, worker.lease.runId)|;
    Current(db, worker.lease) && r in db.runs && r in db'.runs && worker.step.status.IntentRecorded?
    && i < |Projection(db, r).steps| && Projection(db, r).steps[i] == worker.step
    && NextSequence(RowsOf(db.events, r)) == n + 1
    && Committed(db, db', r, [OutcomeEvent(worker.step, n + 1, StepRetryScheduled, RetryPayload(error, deadline), now)])
    && Projection(db', r).steps == Projection(db, r).steps[i := RetriedStep(worker.step, error, deadline, now)]
    && Projection(db', r).status == Projection(db, r).status
    && db'.throttles == Cooldowns(db.throttles, throttleTool, worker.step.toolKey, deadline, error, now)
  }

  function EntryFor(db: Db, worker: Worker, delay: Time, local: bool, deadline: Time, throttleTool: bool): RetryEntry
    requires Active(worker) && !worker.Releasing?
  {
    RetryEntry(worker.lease.runId, NextSequence(RowsOf(db.events, worker.lease.runId)), worker.step.id,
               worker.step.toolKey, worker.step.attempts, delay, local, deadline, throttleTool)
  }

  lemma RetryKeeps(cfg: Config, s: System, w: nat, worker: Worker, error: string,
                   throttleTool: bool, delay: Time, local: bool, clock: Time, leaseNow: Time, now: Time)
    requires Inv(cfg, s) && WorkerAt(s, w) == worker && worker.Answered?
    requires 1 <= worker.step.attempts < cfg.settings.maxAttempts
    requires local ==> delay == LocalDelay(cfg.settings, worker.step.attempts)
    ensures Inv(cfg, SetWorker(RetryAttempt(s, worker.step, worker.lease, error, throttleTool, delay, local,
                                            clock, leaseNow, now),
                               w, Releasing(worker.lease)))
  {
    var result := ScheduleRetry(s.db, worker.lease.runId, worker.step.id, error, clock + delay,
                                Some(worker.lease.ownerId), Some(worker.lease.fenceToken), throttleTool, leaseNow, now);
    RetryAttemptCases(s, worker, error, throttleTool, delay, local, clock, leaseNow, now);
    if result.Ok? {
      RetryCommittedKeeps(cfg, s, w, worker, result.value, error, throttleTool, delay, local, clock + delay, leaseNow,
                          now);
    } else {
      AbortKeeps(cfg, s, w);
    }
  }

  lemma RetryAttemptCases(s: System, worker: Worker, error: string, throttleTool: bool, delay: Time, local: bool,
                          clock: Time, leaseNow: Time, now: Time)
    requires Active(worker) && !worker.Releasing?
    ensures var result := ScheduleRetry(s.db, worker.lease.runId, worker.step.id, error, clock + delay,
                                        Some(worker.lease.ownerId), Some(worker.lease.fenceToken), throttleTool,
                                        leaseNow, now);
            RetryAttempt(s, worker.step, worker.lease, error, throttleTool, delay, local, clock, leaseNow, now) ==
            if result.Err? then s
            else s.(db := result.value,
                    retries := s.retries + [EntryFor(s.db, worker, delay, local, clock + delay, throttleTool)])
  {
  }

  lemma RetryCommittedKeeps(cfg: Config, s: System, w: nat, worker: Worker, db': Db, error: string,
                            throttleTool: bool, delay: Time, local: bool, deadline: Time, leaseNow: Time, now: Time)
    requires Inv(cfg, s) && WorkerAt(s, w) == worker && worker.Answered?
    requires EntrySound(cfg.settings, EntryFor(s.db, worker, delay, local, deadline, throttleTool))
    requires ScheduleRetry(s.db, worker.lease.runId, worker.step.id, error, deadline, Some(worker.lease.ownerId),
                           Some(worker.lease.fenceToken), throttleTool, leaseNow, now) == Ok(db')
    ensures Inv(cfg, SetWorker(s.(db := db', retries := s.retries +
                                                 [EntryFor(s.db, worker, delay, local, deadline, throttleTool)]),
                               w, Releasing(worker.lease)))
  {
    WorkerInvAt(cfg, s, w);
    var i := RetryNamed(s.db, s.ledger, worker, db', error, deadline, throttleTool, leaseNow, now);
    RetriedKeeps(cfg, s, w, worker, db', i, EntryFor(s.db, worker, delay, local, deadline, throttleTool), error, now);
  }

  lemma RetryNamed(db: Db, ledger: LedgerTables, worker: Worker, db': Db, error: string, deadline: Time,
                   throttleTool: bool, leaseNow: Time, now: Time) returns (i: nat)
    requires DbInv(db) && WorkerInv(db, ledger, worker) && worker.Answered?
    requires ScheduleRetry(db, worker.lease.runId, worker.step.id, error, deadline, Some(worker.lease.ownerId),
                           Some(worker.lease.fenceToken), throttleTool, leaseNow, now) == Ok(db')
    ensures RetryCommitted(db, db', worker, i, error, deadline, throttleTool, now)
  {
    i := RetryBy(db, ledger, worker, error, deadline, throttleTool, leaseNow, now);
  }

  lemma RetriedKeeps(cfg: Config, s: System, w: nat, worker: Worker, db': Db, i: nat, entry: RetryEntry, error: string,
                     now: Time)
    requires Inv(cfg, s) && WorkerAt(s, w) == worker && worker.Answered? && EntrySound(cfg.settings, entry)
    requires RetryCommitted(s.db, db', worker, i, error, entry.deadline, entry.throttled, now)
    requires entry.runId == worker.lease.runId && entry.sequence == |RowsOf(s.db.events, worker.lease.runId)| + 1
    requires entry.stepId == worker.step.id && entry.toolKey == worker.step.toolKey
             && entry.attempt == worker.step.attempts
    ensures Inv(cfg, SetWorker(s.(db := db', retries := s.retries + [entry]), w, Releasing(worker.lease)))
  {
    var retry := RetryCloses(s.db, db', worker, i, error, entry.deadline, entry.throttled, now);
    RetryCommitKeeps(cfg, s, db', w, worker, i, retry, entry, error, now);
  }

  lemma RetryCloses(db: Db, db': Db, worker: Worker, i: nat, error: string, deadline: Time, throttleTool: bool,
                    now: Time)
    returns (retry: Event)
    requires Active(worker) && !worker.Releasing?
             && RetryCommitted(db, db', worker, i, error, deadline, throttleTool, now)
    ensures Closed(db, db', worker, i, [retry]) && Projection(db', worker.lease.runId).steps[i].status.RetryWait?
    ensures retry.eventType.StepRetryScheduled? && retry.payload == RetryPayload(error, deadline)
    ensures db'.throttles == Cooldowns(db.throttles, throttleTool, worker.step.toolKey, deadline, error, now)
  {
    var n := |RowsOf(db.events, worker.lease.runId)|;
    retry := OutcomeEvent(worker.step, n + 1, StepRetryScheduled, RetryPayload(error, deadline), now);
    ClosedIntro(db, db', worker, i, RetriedStep(worker.step, error, deadline, now), [retry]);
  }

  lemma RetryCommitKeeps(cfg: Config, s: System, db': Db, w: nat, worker: Worker, i: nat,
                         retry: Event, entry: RetryEntry, error: string, now: Time)
    requires Inv(cfg, s) && WorkerAt(s, w) == worker && worker.Answered?
    requires Closed(s.db, db', worker, i, [retry]) && Projection(db', worker.lease.runId).steps[i].status.RetryWait?
    requires entry.runId == worker.lease.runId && EntrySound(cfg.settings, entry)
    requires entry.stepId == worker.step.id && entry.attempt == worker.step.attempts
    requires entry.sequence == |RowsOf(s.db.events, worker.lease.runId)| + 1
    requires retry.eventType.StepRetryScheduled? && retry.payload == RetryPayload(error, entry.deadline)
    requires db'.throttles == Cooldowns(s.db.throttles, entry.throttled, entry.toolKey, entry.deadline, error, now)
    ensures Inv(cfg, SetWorker(s.(db := db', retries := s.retries + [entry]), w, Releasing(worker.lease)))
  {
    WorkerInvAt(cfg, s, w);
    OutcomeTables(cfg, s.db, db', s.ledger, s.retries, worker.lease.runId, i, [retry]);
    RetryTables(cfg, s.db, db', s.retries, retry, entry, error, now);
    ReleasingWorkerInv(s.db, db', s.ledger, worker);
    CommitKeeps(cfg, s, SetWorker(s.(db := db', retries := s.retries + [entry]), w, Releasing(worker.lease)), w,
                Releasing(worker.lease), [retry]);
  }

  lemma RetryTables(cfg: Config, db: Db, db': Db, retries: seq<RetryEntry>, retry: Event, entry: RetryEntry,
                    error: string, now: Time)
    requires RetriesInv(cfg, db, retries) && ThrottlesInv(db.throttles, retries)
             && MovedOn(db, db', entry.runId, [retry])
    requires EntrySound(cfg.settings, entry) && entry.sequence == |RowsOf(db.events, entry.runId)| + 1
    requires Closes(retry, entry.stepId, entry.attempt)
    requires retry.eventType.StepRetryScheduled? && retry.payload == RetryPayload(error, entry.deadline)
    requires db'.throttles == Cooldowns(db.throttles, entry.throttled, entry.toolKey, entry.deadline, error, now)
    ensures RetriesInv(cfg, db', retries + [entry]) && ThrottlesInv(db'.throttles, retries + [entry])
  {
    CommittedGrows(db, db', entry.runId, [retry]);
    RetriesAdvance(cfg, db, db', retries, retry, entry);
    ThrottlesAdvance(db.throttles, retries, entry, error, now);
  }

  lemma CommitActionKeeps(cfg: Config, s: System, w: nat, worker: Worker, clock: Time, leaseNow: Time, now: Time)
    requires Inv(cfg, s) && WorkerAt(s, w) == worker && worker.Answered?
    ensures Inv(cfg, SetWorker(CommitOutcome(cfg, s, worker.step, worker.lease, worker.outcome, clock, leaseNow, now),
                               w, Releasing(worker.lease)))
  {
    match worker.outcome
    case Success(result) => CompleteKeeps(cfg, s, w, worker, result, leaseNow, now);
    case Permanent(error) => FailKeeps(cfg, s, w, worker, error, leaseNow, now);
    case Unreadable => AbortKeeps(cfg, s, w);
    case Retryable(error, retryAfter, throttleTool) =>
      match Decide(cfg.settings, worker.step.attempts, error, retryAfter) {
        case GiveUp(reason) => FailKeeps(cfg, s, w, worker, reason, leaseNow, now);
        case TryAgain(delay, local) =>
          WorkerInvAt(cfg, s, w);
          RetryKeeps(cfg, s, w, worker, error, throttleTool, delay, local, clock, leaseNow, now);
      }
  }
}
