/** One undisturbed call of `run_once` as a run of protocol actions: its exact shape, and why it makes progress. */
module Turns {
  import opened Models
  import opened Database
  import opened Gateway
  import opened Protocol
  import opened Preservation
  import opened Safety
  import opened Progress
  import opened Runs

  /** The clock readings of one call: at the claim, at the lease checks, at the writes and at the release. */
  datatype Readings = Readings(claim: Time, recordLease: Time, record: Time, retry: Time, commitLease: Time,
                               commit: Time, release: Time)

  /** What the network does to the one request of a call, and what the tool draws for it. */
  datatype Delivery = Delivery(arrives: bool, answered: bool, detail: string, flaky: bool, referenceId: string,
                               toolTime: Time)

  /** Everything that one call is given from outside. */
  datatype Call = Call(worker: nat, ownerId: string, ttl: Time, readings: Readings, delivery: Delivery)

  // ----- the shape of a turn -----

  /** What the tool does with a request that arrives: look it up and, if it is let through, apply it. */
  predicate Serving(call: Call, sent: Sent, actions: seq<Action>) {
    1 <= |actions| <= 2 && actions[0].ToolLookup? && actions[0].sent == sent
    && (|actions| == 2 ==> actions[1] == ToolApply(sent, call.delivery.referenceId, call.delivery.toolTime))
  }

  /** The end of the HTTP call: a readable answer, or none. */
  predicate Answering(call: Call, a: Action) {
    if call.delivery.arrives && call.delivery.answered
    then a.Receive? && a.worker == call.worker && !Interpret(a.http).Unreadable?
    else a == TransportError(call.worker, call.delivery.detail)
  }

  predicate ServedThenAnswered(call: Call, sent: Sent, serving: seq<Action>, answer: Action) {
    Answering(call, answer) && if call.delivery.arrives then Serving(call, sent, serving) else serving == []
  }

  ghost predicate Calling(call: Call, sent: Sent, actions: seq<Action>) {
    exists serving, answer :: actions == serving + [answer] && ServedThenAnswered(call, sent, serving, answer)
  }

  /** Send the request, get an outcome, commit it. */
  ghost predicate Performing(call: Call, actions: seq<Action>) {
    exists sent, calling ::
      actions == [Send(call.worker)] + calling + [CommitOf(call)] && Calling(call, sent, calling)
  }

  function CommitOf(call: Call): Action {
    Commit(call.worker, call.readings.retry, call.readings.commitLease, call.readings.commit)
  }

  function RecordOf(call: Call): Action {
    Record(call.worker, call.readings.recordLease, call.readings.record)
  }

  function ReleaseOf(call: Call): Action {
    Release(call.worker, call.readings.release)
  }

  function ClaimOf(call: Call, pick: (string, nat)): Action {
    Claim(call.worker, call.ownerId, call.ttl, call.readings.claim, Some(pick))
  }

  /** Record the intent, perform the attempt and release; or only release, if the intent could not be recorded. */
  ghost predicate Working(call: Call, actions: seq<Action>) {
    exists performed ::
      actions == [RecordOf(call)] + performed + [ReleaseOf(call)]
      && (performed == [] || Performing(call, performed))
  }

  /** A whole turn: claim, record, send, lookup and apply, receive, commit, release, in this order. */
  ghost predicate WholeTurn(call: Call, pick: (string, nat), actions: seq<Action>) {
    exists working :: actions == [ClaimOf(call, pick)] + working && Working(call, working)
  }

  /** Both lease checks of a call happen before the lease it was granted runs out. */
  predicate InTime(call: Call) {
    call.readings.recordLease < call.readings.claim + call.ttl
    && call.readings.commitLease < call.readings.claim + call.ttl
  }

  lemma CallingIntro(call: Call, sent: Sent, serving: seq<Action>, answer: Action)
    requires ServedThenAnswered(call, sent, serving, answer)
    ensures Calling(call, sent, serving + [answer])
  {
    assert serving + [answer] == serving + [answer];
  }

  // ----- stages -----

  lemma ClaimStage(cfg: Config, s: System, call: Call, pick: (string, nat))
    returns (s': System, step: StepRecord, lease: Lease)
    requires Run(cfg, s, [ClaimOf(call, pick)]).Some?
    ensures Run(cfg, s, [ClaimOf(call, pick)]) == Some(s') && WorkerAt(s', call.worker) == Claimed(step, lease)
    ensures pick.0 in s.db.runs && lease.runId == pick.0
    ensures forall t :: t < call.readings.claim + call.ttl ==> PassesLeaseCheck(s'.db, lease, t)
  {
    RunSingle(cfg, s, ClaimOf(call, pick));
    s' := Do(cfg, s, ClaimOf(call, pick));
    step, lease := WorkerAt(s', call.worker).step, WorkerAt(s', call.worker).lease;
    forall t | t < call.readings.claim + call.ttl ensures PassesLeaseCheck(s'.db, lease, t) {
      ClaimHoldsForTtl(s.db, pick.0, call.ownerId, call.ttl, call.readings.claim, t);
    }
  }

  lemma RecordStage(cfg: Config, s: System, call: Call, step: StepRecord, lease: Lease)
    returns (s': System, recorded: StepRecord)
    requires Reachable(cfg, s) && Run(cfg, s, [RecordOf(call)]).Some?
    requires WorkerAt(s, call.worker) == Claimed(step, lease)
             && PassesLeaseCheck(s.db, lease, call.readings.recordLease)
    ensures Run(cfg, s, [RecordOf(call)]) == Some(s') && WorkerAt(s', call.worker) == Recorded(recorded, lease)
    ensures s'.db.leases == s.db.leases
  {
    ReachableInv(cfg, s);
    WorkerInvAt(cfg, s, call.worker);
    HolderRecords(s.db, s.ledger, step, lease, call.readings.recordLease, call.readings.record);
    RunSingle(cfg, s, RecordOf(call));
    RecordKeepsTables(s, call.worker, call.readings.recordLease, call.readings.record);
    s' := Do(cfg, s, RecordOf(call));
    recorded := WorkerAt(s', call.worker).step;
  }

  lemma SendStage(cfg: Config, s: System, call: Call, step: StepRecord, lease: Lease) returns (s': System)
    requires Run(cfg, s, [Send(call.worker)]).Some? && WorkerAt(s, call.worker) == Recorded(step, lease)
    ensures Run(cfg, s, [Send(call.worker)]) == Some(s') && s'.db == s.db
            && WorkerAt(s', call.worker) == Waiting(step, lease)
  {
    RunSingle(cfg, s, Send(call.worker));
    s' := Do(cfg, s, Send(call.worker));
  }

  lemma ToolStep(cfg: Config, s: System, a: Action)
    requires Enabled(s, a) && (a.ToolLookup? || a.ToolApply?)
    ensures Do(cfg, s, a).db == s.db && Do(cfg, s, a).workers == s.workers
  {
  }

  lemma ServingStage(cfg: Config, s: System, call: Call, sent: Sent, serving: seq<Action>) returns (s': System)
    requires Run(cfg, s, serving).Some? && (serving == [] || Serving(call, sent, serving))
    ensures Run(cfg, s, serving) == Some(s') && s'.db == s.db && s'.workers == s.workers
  {
    s' := s;
    if serving != [] {
      s' := FirstStep(cfg, s, serving);
      ToolStep(cfg, s, serving[0]);
      if |serving| == 2 {
        RunSingle(cfg, s', serving[1]);
        assert serving[1..] == [serving[1]];
        ToolStep(cfg, s', serving[1]);
        s' := Do(cfg, s', serving[1]);
      } else {
        assert serving[1..] == [];
      }
    }
  }

  lemma AnswerStage(cfg: Config, s: System, call: Call, a: Action, step: StepRecord, lease: Lease)
    returns (s': System, outcome: Outcome)
    requires Run(cfg, s, [a]).Some? && Answering(call, a) && WorkerAt(s, call.worker) == Waiting(step, lease)
    ensures Run(cfg, s, [a]) == Some(s') && s'.db == s.db
    ensures WorkerAt(s', call.worker) == Answered(step, lease, outcome) && !outcome.Unreadable?
  {
    RunSingle(cfg, s, a);
    s' := Do(cfg, s, a);
    outcome := WorkerAt(s', call.worker).outcome;
  }

  lemma CallingStage(cfg: Config, s: System, call: Call, sent: Sent, calling: seq<Action>, step: StepRecord,
                     lease: Lease)
    returns (s': System, outcome: Outcome)
    requires Run(cfg, s, calling).Some? && Calling(call, sent, calling)
             && WorkerAt(s, call.worker) == Waiting(step, lease)
    ensures Run(cfg, s, calling) == Some(s') && s'.db == s.db
    ensures WorkerAt(s', call.worker) == Answered(step, lease, outcome) && !outcome.Unreadable?
  {
    var serving, answer :| calling == serving + [answer] && ServedThenAnswered(call, sent, serving, answer);
    RunSplit(cfg, s, serving, [answer]);
    var served := ServingStage(cfg, s, call, sent, serving);
    s', outcome := AnswerStage(cfg, served, call, answer, step, lease);
  }

  lemma CommitStage(cfg: Config, s: System, call: Call, step: StepRecord, lease: Lease, outcome: Outcome)
    returns (s': System)
    requires Reachable(cfg, s) && Run(cfg, s, [CommitOf(call)]).Some? && !outcome.Unreadable?
    requires WorkerAt(s, call.worker) == Answered(step, lease, outcome)
    requires PassesLeaseCheck(s.db, lease, call.readings.commitLease)
    ensures Run(cfg, s, [CommitOf(call)]) == Some(s')
    ensures Advances(cfg.settings, s.db, s'.db, lease.runId)
  {
    ReachableInv(cfg, s);
    WorkerInvAt(cfg, s, call.worker);
    RunSingle(cfg, s, CommitOf(call));
    s' := Do(cfg, s, CommitOf(call));
    CommitUsesBudget(cfg, s, CommitOutcome(cfg, s, step, lease, outcome,
                                           call.readings.retry, call.readings.commitLease, call.readings.commit),
                     WorkerAt(s, call.worker), call.readings.retry, call.readings.commitLease, call.readings.commit);
  }

  /** The run may still commit fewer outcomes than before. */
  predicate Advances(settings: Settings, db: Db, db': Db, runId: string) {
    runId in db.runs && runId in db'.runs && OutcomeBudget(settings, db', runId) < OutcomeBudget(settings, db, runId)
  }

  lemma PerformingStage(cfg: Config, s: System, call: Call, performed: seq<Action>, step: StepRecord, lease: Lease)
    returns (s': System)
    requires Reachable(cfg, s) && Run(cfg, s, performed).Some? && Performing(call, performed)
    requires WorkerAt(s, call.worker) == Recorded(step, lease)
             && PassesLeaseCheck(s.db, lease, call.readings.commitLease)
    ensures Run(cfg, s, performed) == Some(s') && Advances(cfg.settings, s.db, s'.db, lease.runId)
  {
    var sent, calling :| performed == [Send(call.worker)] + calling + [CommitOf(call)] && Calling(call, sent, calling);
    RunSplit(cfg, s, [Send(call.worker)] + calling, [CommitOf(call)]);
    RunSplit(cfg, s, [Send(call.worker)], calling);
    var waiting := SendStage(cfg, s, call, step, lease);
    var answered, outcome := CallingStage(cfg, waiting, call, sent, calling, step, lease);
    RunReaches(cfg, s, [Send(call.worker)] + calling, answered);
    s' := CommitStage(cfg, answered, call, step, lease, outcome);
  }

  /** Actions before and after those that make progress do not undo it. */
  lemma AdvanceCarries(cfg: Config, s: System, before: seq<Action>, a: System, b: System, after: seq<Action>,
                       s': System, runId: string)
    requires Reachable(cfg, s) && runId in s.db.runs && Run(cfg, s, before) == Some(a)
    requires Reachable(cfg, b) && Run(cfg, b, after) == Some(s') && Advances(cfg.settings, a.db, b.db, runId)
    ensures Advances(cfg.settings, s.db, s'.db, runId)
  {
    ReachableInv(cfg, s);
    RunGrows(cfg, s, before);
    BudgetShrinks(cfg.settings, s.db, a.db, runId);
    ReachableInv(cfg, b);
    RunGrows(cfg, b, after);
    BudgetShrinks(cfg.settings, b.db, s'.db, runId);
  }

  /** A worker that has recorded its intent does not release before it has performed the attempt. */
  lemma RecordedNotReleased(cfg: Config, s: System, call: Call, step: StepRecord, lease: Lease)
    requires WorkerAt(s, call.worker) == Recorded(step, lease)
    ensures Run(cfg, s, [ReleaseOf(call)]).None?
  {
    RunSingle(cfg, s, ReleaseOf(call));
  }

  lemma WorkingStage(cfg: Config, s: System, call: Call, working: seq<Action>, step: StepRecord, lease: Lease)
    returns (s': System)
    requires Reachable(cfg, s) && Run(cfg, s, working).Some? && Working(call, working) && lease.runId in s.db.runs
    requires WorkerAt(s, call.worker) == Claimed(step, lease)
    requires PassesLeaseCheck(s.db, lease, call.readings.recordLease)
             && PassesLeaseCheck(s.db, lease, call.readings.commitLease)
    ensures Run(cfg, s, working) == Some(s') && Advances(cfg.settings, s.db, s'.db, lease.runId)
  {
    var performed :| working == [RecordOf(call)] + performed + [ReleaseOf(call)]
      && (performed == [] || Performing(call, performed));
    RunSplit(cfg, s, [RecordOf(call)] + performed, [ReleaseOf(call)]);
    RunSplit(cfg, s, [RecordOf(call)], performed);
    var started, recorded := RecordStage(cfg, s, call, step, lease);
    RunReaches(cfg, s, [RecordOf(call)], started);
    RecordedNotReleased(cfg, started, call, recorded, lease);
    var worked := PerformingStage(cfg, started, call, performed, recorded, lease);
    RunReaches(cfg, started, performed, worked);
    s' := Run(cfg, s, working).value;
    AdvanceCarries(cfg, s, [RecordOf(call)], started, worked, [ReleaseOf(call)], s', lease.runId);
  }

  /** From every reachable state, an undisturbed call that is in time commits an outcome of the run it claimed. */
  lemma TurnAdvances(cfg: Config, s: System, call: Call, pick: (string, nat), actions: seq<Action>) returns (s': System)
    requires Reachable(cfg, s) && Run(cfg, s, actions).Some? && WholeTurn(call, pick, actions) && InTime(call)
    ensures Run(cfg, s, actions) == Some(s') && Advances(cfg.settings, s.db, s'.db, pick.0)
  {
    var working :| actions == [ClaimOf(call, pick)] + working && Working(call, working);
    RunSplit(cfg, s, [ClaimOf(call, pick)], working);
    var claimed, step, lease := ClaimStage(cfg, s, call, pick);
    RunReaches(cfg, s, [ClaimOf(call, pick)], claimed);
    ReachableInv(cfg, s);
    RunGrows(cfg, s, [ClaimOf(call, pick)]);
    s' := WorkingStage(cfg, claimed, call, working, step, lease);
    RunReaches(cfg, claimed, working, s');
    AdvanceCarries(cfg, s, [ClaimOf(call, pick)], claimed, s', [], s', pick.0);
  }

  lemma CommitTaken(cfg: Config, s: System, actions: seq<Action>, middle: System, call: Call, step: StepRecord,
                    lease: Lease, outcome: Outcome)
    returns (s': System, actions': seq<Action>)
    requires Run(cfg, s, actions) == Some(middle) && WorkerAt(middle, call.worker) == Answered(step, lease, outcome)
    ensures Run(cfg, s, actions') == Some(s') && actions' == actions + [CommitOf(call)]
    ensures s'.db == CommitOutcome(cfg, middle, step, lease, outcome,
                                  call.readings.retry, call.readings.commitLease, call.readings.commit).db
    ensures s'.ledger == middle.ledger && WorkerAt(s', call.worker) == Releasing(lease)
  {
    CommitKeepsWorkers(cfg, middle, step, lease, outcome, call.readings.retry, call.readings.commitLease,
                       call.readings.commit);
    s', actions' := Taken(cfg, s, actions, middle, CommitOf(call));
  }

  ghost predicate NoCreation(actions: seq<Action>) {
    forall k :: 0 <= k < |actions| ==> !actions[k].Create?
  }

  lemma PerformingCreatesNothing(call: Call, performed: seq<Action>)
    requires Performing(call, performed)
    ensures NoCreation(performed)
  {
    var sent, calling :| performed == [Send(call.worker)] + calling + [CommitOf(call)] && Calling(call, sent, calling);
    var serving, answer :| calling == serving + [answer] && ServedThenAnswered(call, sent, serving, answer);
    if serving != [] {
      assert Serving(call, sent, serving);
    }
    assert NoCreation(serving) && !answer.Create?;
    assert NoCreation(calling);
  }

  lemma TurnCreatesNothing(call: Call, pick: (string, nat), actions: seq<Action>)
    requires WholeTurn(call, pick, actions)
    ensures NoCreation(actions)
  {
    var working :| actions == [ClaimOf(call, pick)] + working && Working(call, working);
    WorkingCreatesNothing(call, working);
    NoCreationAppend([ClaimOf(call, pick)], working);
  }

  lemma WorkingCreatesNothing(call: Call, working: seq<Action>)
    requires Working(call, working)
    ensures NoCreation(working)
  {
    var performed :| working == [RecordOf(call)] + performed + [ReleaseOf(call)]
      && (performed == [] || Performing(call, performed));
    if performed != [] {
      PerformingCreatesNothing(call, performed);
    }
    NoCreationAppend([RecordOf(call)], performed);
    NoCreationAppend([RecordOf(call)] + performed, [ReleaseOf(call)]);
  }

  lemma NoCreationAppend(first: seq<Action>, second: seq<Action>)
    requires NoCreation(first) && NoCreation(second)
    ensures NoCreation(first + second)
  {
  }

  lemma {:induction false} RunKeepsRuns(cfg: Config, s: System, actions: seq<Action>)
    requires Run(cfg, s, actions).Some? && NoCreation(actions)
    ensures Run(cfg, s, actions).value.db.runs.Keys == s.db.runs.Keys
  {
    if actions != [] {
      var n := |actions| - 1;
      RunKeepsRuns(cfg, s, actions[..n]);
      ActionKeepsRuns(cfg, Run(cfg, s, actions[..n]).value, actions[n]);
    }
  }
}
