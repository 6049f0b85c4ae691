/** Crash-free completion: undisturbed calls in time, made late enough, end every run. */
module Completion {
  import opened Models
  import opened Graph
  import opened HistoryFacts
  import opened Database
  import opened Gateway
  import opened Protocol
  import opened Invariant
  import opened Safety
  import opened Progress
  import opened Runs
  import opened Turns
  import opened Ledger
  import opened Recovery

  /** At `now` no deadline, cooldown or lease holds anything back. */
  ghost predicate AllDue(db: Db, now: Time) {
    forall r: string, i: nat :: r in db.runs && i < |RowsOf(db.steps, r)| ==> Due(db, now, r, RowsOf(db.steps, r)[i])
  }

  ghost predicate NothingToClaim(db: Db, now: Time) {
    forall r: string, i: nat :: !Selectable(db, now, r, i)
  }

  /** One undisturbed call that looks late enough and is in time, whether it finds work or not. */
  ghost predicate Turn(cfg: Config, s: System, s': System) {
    exists call :: TurnOf(cfg, s, call, s')
  }

  ghost predicate TurnOf(cfg: Config, s: System, call: Call, s': System) {
    AllDue(s.db, call.readings.claim) && InTime(call)
    && if NothingToClaim(s.db, call.readings.claim) then s' == s
       else exists pick, actions :: WholeTurn(call, pick, actions) && Run(cfg, s, actions) == Some(s')
  }

  ghost predicate NoneRunning(db: Db) {
    forall r :: r in db.runs ==> !db.runs[r].status.Running?
  }

  // ----- the total budget -----

  /** The list names exactly these runs. */
  ghost predicate Enumerates(ids: seq<string>, runs: set<string>) {
    NoDuplicates(ids) && forall r :: r in runs <==> r in ids
  }

  lemma {:induction false} Enumeration(runs: set<string>) returns (ids: seq<string>)
    ensures Enumerates(ids, runs)
  {
    ids := [];
    if runs != {} {
      var r :| r in runs;
      var rest := Enumeration(runs - {r});
      ids := rest + [r];
      forall x ensures x in runs <==> x in ids {
        assert x != r ==> (x in runs - {r} <==> x in rest);
      }
    }
  }

  /** The rows of one run are due from some moment on. */
  lemma {:induction false} RowsDueFrom(db: Db, runId: string, rows: seq<StepRow>) returns (ready: Time)
    ensures forall now, i: nat {:trigger Due(db, now, runId, rows[i])} ::
              now >= ready && i < |rows| ==> Due(db, now, runId, rows[i])
  {
    ready := 0;
    if rows != [] {
      var n := |rows| - 1;
      var before := RowsDueFrom(db, runId, rows[..n]);
      ready := Max(before, ReadyAt(db, runId, rows[n]));
      forall now, i: nat | now >= ready && i < |rows| ensures Due(db, now, runId, rows[i]) {
        assert i < n ==> rows[i] == rows[..n][i];
      }
    }
  }

  lemma {:induction false} RunsDueFrom(db: Db, ids: seq<string>) returns (ready: Time)
    ensures forall now, k: nat, i: nat {:trigger Due(db, now, ids[k], RowsOf(db.steps, ids[k])[i])} ::
              now >= ready && k < |ids| && i < |RowsOf(db.steps, ids[k])| ==>
                Due(db, now, ids[k], RowsOf(db.steps, ids[k])[i])
  {
    ready := 0;
    if ids != [] {
      var n := |ids| - 1;
      var before := RunsDueFrom(db, ids[..n]);
      var last := RowsDueFrom(db, ids[n], RowsOf(db.steps, ids[n]));
      ready := Max(before, last);
      forall now, k: nat, i: nat | now >= ready && k < |ids| && i < |RowsOf(db.steps, ids[k])|
        ensures Due(db, now, ids[k], RowsOf(db.steps, ids[k])[i])
      {
        assert k < n ==> ids[k] == ids[..n][k];
      }
    }
  }

  /** Every clock reading from some moment on is late enough. */
  lemma EventuallyAllDue(db: Db) returns (ready: Time)
    ensures forall now :: now >= ready ==> AllDue(db, now)
  {
    var ids := Enumeration(db.runs.Keys);
    ready := RunsDueFrom(db, ids);
    forall now | now >= ready ensures AllDue(db, now) {
      forall r: string, i: nat | r in db.runs && i < |RowsOf(db.steps, r)|
        ensures Due(db, now, r, RowsOf(db.steps, r)[i])
      {
        assert r in ids;
        var k :| 0 <= k < |ids| && ids[k] == r;
      }
    }
  }

  /** How many outcomes all these runs together may still commit. */
  function TotalBudget(settings: Settings, db: Db, ids: seq<string>): int
    requires forall k :: 0 <= k < |ids| ==> ids[k] in db.runs
  {
    if ids == [] then 0
    else TotalBudget(settings, db, ids[..|ids| - 1]) + OutcomeBudget(settings, db, ids[|ids| - 1])
  }

  /** The list names runs of both databases, and none of them may commit more outcomes than before. */
  ghost predicate BudgetsShrink(settings: Settings, db: Db, db': Db, ids: seq<string>) {
    forall k :: 0 <= k < |ids| ==> ids[k] in db.runs && ids[k] in db'.runs
                                   && OutcomeBudget(settings, db', ids[k]) <= OutcomeBudget(settings, db, ids[k])
  }

  lemma GrowthShrinksBudgets(settings: Settings, db: Db, db': Db, ids: seq<string>)
    requires Grows(db, db') && forall k :: 0 <= k < |ids| ==> ids[k] in db.runs
    ensures BudgetsShrink(settings, db, db', ids)
  {
    forall k | 0 <= k < |ids|
      ensures ids[k] in db'.runs && OutcomeBudget(settings, db', ids[k]) <= OutcomeBudget(settings, db, ids[k])
    {
      BudgetShrinks(settings, db, db', ids[k]);
    }
  }

  lemma {:induction false} TotalShrinks(settings: Settings, db: Db, db': Db, ids: seq<string>)
    requires BudgetsShrink(settings, db, db', ids)
    ensures TotalBudget(settings, db', ids) <= TotalBudget(settings, db, ids)
  {
    if ids != [] {
      TotalShrinks(settings, db, db', ids[..|ids| - 1]);
    }
  }

  lemma {:induction false} TotalDrops(settings: Settings, db: Db, db': Db, ids: seq<string>, k: nat)
    requires BudgetsShrink(settings, db, db', ids) && k < |ids| && Advances(settings, db, db', ids[k])
    ensures TotalBudget(settings, db', ids) < TotalBudget(settings, db, ids)
  {
    var n := |ids| - 1;
    if k < n {
      TotalDrops(settings, db, db', ids[..n], k);
    } else {
      TotalShrinks(settings, db, db', ids[..n]);
    }
  }

  /** No run is overspent, and running runs have something left. */
  ghost predicate BudgetsSuffice(settings: Settings, db: Db, ids: seq<string>) {
    forall k :: 0 <= k < |ids| ==>
      ids[k] in db.runs && OutcomeBudget(settings, db, ids[k]) >= if db.runs[ids[k]].status.Running? then 1 else 0
  }

  lemma InvariantSuffices(cfg: Config, s: System, ids: seq<string>)
    requires Inv(cfg, s) && forall k :: 0 <= k < |ids| ==> ids[k] in s.db.runs
    ensures BudgetsSuffice(cfg.settings, s.db, ids)
  {
    forall k | 0 <= k < |ids|
      ensures OutcomeBudget(cfg.settings, s.db, ids[k]) >= if s.db.runs[ids[k]].status.Running? then 1 else 0
    {
      BudgetSuffices(cfg, s.db, s.retries, ids[k]);
    }
  }

  lemma {:induction false} TotalNonNegative(settings: Settings, db: Db, ids: seq<string>)
    requires BudgetsSuffice(settings, db, ids)
    ensures TotalBudget(settings, db, ids) >= 0
  {
    if ids != [] {
      TotalNonNegative(settings, db, ids[..|ids| - 1]);
    }
  }

  lemma {:induction false} TotalPositive(settings: Settings, db: Db, ids: seq<string>, k: nat)
    requires BudgetsSuffice(settings, db, ids) && k < |ids| && db.runs[ids[k]].status.Running?
    ensures TotalBudget(settings, db, ids) >= 1
  {
    var n := |ids| - 1;
    if k < n {
      TotalPositive(settings, db, ids[..n], k);
    } else {
      TotalNonNegative(settings, db, ids[..n]);
    }
  }

  // ----- turns -----

  /** Late enough, a running run always has a step to claim. */
  lemma LateClaimSucceeds(cfg: Config, s: System, runId: string, now: Time)
    requires Reachable(cfg, s) && runId in s.db.runs && s.db.runs[runId].status.Running? && AllDue(s.db, now)
    ensures !NothingToClaim(s.db, now)
  {
    ReachableInv(cfg, s);
    var i := ReadyRow(s.db, runId);
    assert Selectable(s.db, now, runId, i);
  }

  /** A turn keeps the set of runs and undoes nothing. */
  lemma TurnGrows(cfg: Config, s: System, s': System)
    requires Reachable(cfg, s) && Turn(cfg, s, s')
    ensures Reachable(cfg, s') && Grows(s.db, s'.db) && s'.db.runs.Keys == s.db.runs.Keys
  {
    var call :| TurnOf(cfg, s, call, s');
    if s' == s {
      GrowsReflexive(s.db);
    } else {
      var pick, actions :| WholeTurn(call, pick, actions) && Run(cfg, s, actions) == Some(s');
      RunReaches(cfg, s, actions, s');
      ReachableInv(cfg, s);
      RunGrows(cfg, s, actions);
      TurnCreatesNothing(call, pick, actions);
      RunKeepsRuns(cfg, s, actions);
    }
  }

  /** As long as some run is running, a turn commits an outcome of some run. */
  lemma TurnSpends(cfg: Config, s: System, s': System) returns (runId: string)
    requires Reachable(cfg, s) && Turn(cfg, s, s') && !NoneRunning(s.db)
    ensures Advances(cfg.settings, s.db, s'.db, runId)
  {
    var call :| TurnOf(cfg, s, call, s');
    var r :| r in s.db.runs && s.db.runs[r].status.Running?;
    LateClaimSucceeds(cfg, s, r, call.readings.claim);
    var pick, actions :| WholeTurn(call, pick, actions) && Run(cfg, s, actions) == Some(s');
    var reached := TurnAdvances(cfg, s, call, pick, actions);
    runId := pick.0;
  }

  /** Ended runs stay ended. */
  lemma EndedStayEnded(db: Db, db': Db)
    requires Grows(db, db') && db'.runs.Keys == db.runs.Keys && NoneRunning(db)
    ensures NoneRunning(db')
  {
    forall r | r in db'.runs ensures !db'.runs[r].status.Running? {
      assert Extends(Projection(db, r), Projection(db', r));
      assert Projection(db, r).status == db.runs[r].status && Projection(db', r).status == db'.runs[r].status;
    }
  }

  /** A sequence of states, each reached from the one before by a turn. */
  ghost predicate TurnByTurn(cfg: Config, states: seq<System>) {
    states != [] && Reachable(cfg, states[0])
    && forall k {:trigger Turn(cfg, states[k], states[k + 1])} :: 0 <= k < |states| - 1 ==>
         Turn(cfg, states[k], states[k + 1])
  }

  lemma {:induction false} TurnsSpend(cfg: Config, states: seq<System>, ids: seq<string>, k: nat)
    requires TurnByTurn(cfg, states) && Enumerates(ids, states[0].db.runs.Keys) && k < |states|
    ensures Reachable(cfg, states[k]) && states[k].db.runs.Keys == states[0].db.runs.Keys
    ensures forall j :: 0 <= j < |ids| ==> ids[j] in states[k].db.runs && ids[j] in states[0].db.runs
    ensures NoneRunning(states[k].db)
            || TotalBudget(cfg.settings, states[k].db, ids) + k <= TotalBudget(cfg.settings, states[0].db, ids)
  {
    forall j | 0 <= j < |ids| ensures ids[j] in states[0].db.runs {
      assert ids[j] in ids;
    }
    if k > 0 {
      var m := k - 1;
      TurnsSpend(cfg, states, ids, m);
      assert Turn(cfg, states[m], states[m + 1]);
      TurnGrows(cfg, states[m], states[k]);
      GrowthShrinksBudgets(cfg.settings, states[m].db, states[k].db, ids);
      if NoneRunning(states[m].db) {
        EndedStayEnded(states[m].db, states[k].db);
      } else {
        var r := TurnSpends(cfg, states[m], states[k]);
        var j :| 0 <= j < |ids| && ids[j] == r;
        TotalDrops(cfg.settings, states[m].db, states[k].db, ids, j);
      }
    }
  }

  /** From every reachable state, at most as many undisturbed turns as all runs together may still commit outcomes,
      each in time and late enough, end every run. */
  lemma CrashFreeCompletion(cfg: Config, states: seq<System>, ids: seq<string>)
    requires TurnByTurn(cfg, states) && Enumerates(ids, states[0].db.runs.Keys)
    requires forall k :: 0 <= k < |ids| ==> ids[k] in states[0].db.runs
    requires |states| > TotalBudget(cfg.settings, states[0].db, ids)
    ensures states[|states| - 1].db.runs.Keys == states[0].db.runs.Keys && NoneRunning(states[|states| - 1].db)
  {
    var last := |states| - 1;
    TurnsSpend(cfg, states, ids, last);
    ReachableInv(cfg, states[last]);
    InvariantSuffices(cfg, states[last], ids);
    if !NoneRunning(states[last].db) {
      var r :| r in states[last].db.runs && states[last].db.runs[r].status.Running?;
      var k :| 0 <= k < |ids| && ids[k] == r;
      TotalPositive(cfg.settings, states[last].db, ids, k);
    }
  }

  // ----- turns on which the tool answers -----

  /** A turn whose request is answered without throttling, under a reference that was not used before. */
  ghost predicate AnsweredTurnOf(cfg: Config, s: System, call: Call, s': System) {
    AllDue(s.db, call.readings.claim) && InTime(call) && call.delivery.arrives && call.delivery.answered
    && (forall e :: 0 <= e < |s.ledger.effects| ==> s.ledger.effects[e].id != call.delivery.referenceId)
    && if NothingToClaim(s.db, call.readings.claim) then s' == s
       else exists pick, actions ::
              WholeTurn(call, pick, actions) && Run(cfg, s, actions) == Some(s') && Unthrottled(actions)
  }

  ghost predicate AnsweredTurn(cfg: Config, s: System, s': System) {
    exists call :: AnsweredTurnOf(cfg, s, call, s')
  }

  lemma AnsweredTurnIsTurn(cfg: Config, s: System, s': System)
    requires AnsweredTurn(cfg, s, s')
    ensures Turn(cfg, s, s')
  {
    var call :| AnsweredTurnOf(cfg, s, call, s');
    assert TurnOf(cfg, s, call, s');
  }

  /** Such a turn never fails a run: it completes the step it claims. */
  lemma AnsweredTurnFailsNothing(cfg: Config, s: System, s': System, runId: string)
    requires Reachable(cfg, s) && AnsweredTurn(cfg, s, s')
    requires runId in s.db.runs && !s.db.runs[runId].status.RunFailed?
    ensures runId in s'.db.runs && !s'.db.runs[runId].status.RunFailed?
  {
    var call :| AnsweredTurnOf(cfg, s, call, s');
    if s' != s {
      var pick, actions :|
        WholeTurn(call, pick, actions) && Run(cfg, s, actions) == Some(s') && Unthrottled(actions);
      var result := AnsweredStepCompletes(cfg, s, call, pick, actions);
      CompletingFailsNothing(s.db, s'.db, pick.0, pick.1, result, runId);
    }
  }

  lemma CompletingFailsNothing(db: Db, db': Db, r: string, i: nat, result: ToolResult, runId: string)
    requires OnlyCompletes(db, db', r, i, result) && runId in db.runs && !db.runs[runId].status.RunFailed?
    ensures runId in db'.runs && !db'.runs[runId].status.RunFailed?
  {
  }

  lemma AnsweredStepCompletes(cfg: Config, s: System, call: Call, pick: (string, nat), actions: seq<Action>)
    returns (result: ToolResult)
    requires Reachable(cfg, s) && Run(cfg, s, actions).Some? && WholeTurn(call, pick, actions) && InTime(call)
    requires call.delivery.arrives && call.delivery.answered && Unthrottled(actions)
    requires forall e :: 0 <= e < |s.ledger.effects| ==> s.ledger.effects[e].id != call.delivery.referenceId
    ensures OnlyCompletes(s.db, Run(cfg, s, actions).value.db, pick.0, pick.1, result)
  {
    PickedStep(cfg, s, call, pick, actions);
    var step := Projection(s.db, pick.0).steps[pick.1];
    if HasEffect(s.ledger, step.operationKey) {
      var e :| 0 <= e < |s.ledger.effects| && s.ledger.effects[e].operationKey == step.operationKey;
      var s' := EffectIsRecovered(cfg, s, call, pick, actions, e);
      result := ToolResult(s.ledger.effects[e].operation, s.ledger.effects[e].id, true);
    } else {
      var s' := EffectIsMade(cfg, s, call, pick, actions);
      result := ToolResult(step.operation, call.delivery.referenceId, false);
    }
  }

  lemma PickedStep(cfg: Config, s: System, call: Call, pick: (string, nat), actions: seq<Action>)
    requires Run(cfg, s, actions).Some? && WholeTurn(call, pick, actions)
    ensures pick.0 in s.db.runs && pick.1 < |Projection(s.db, pick.0).steps|
  {
    var working :| actions == [ClaimOf(call, pick)] + working && Working(call, working);
    RunSplit(cfg, s, [ClaimOf(call, pick)], working);
    RunSingle(cfg, s, ClaimOf(call, pick));
  }

  ghost predicate AnsweredTurnByTurn(cfg: Config, states: seq<System>) {
    states != [] && Reachable(cfg, states[0])
    && forall k {:trigger AnsweredTurn(cfg, states[k], states[k + 1])} :: 0 <= k < |states| - 1 ==>
         AnsweredTurn(cfg, states[k], states[k + 1])
  }

  lemma {:induction false} NothingFails(cfg: Config, states: seq<System>, runId: string, k: nat)
    requires AnsweredTurnByTurn(cfg, states) && k < |states|
    requires runId in states[0].db.runs && !states[0].db.runs[runId].status.RunFailed?
    ensures Reachable(cfg, states[k]) && runId in states[k].db.runs && !states[k].db.runs[runId].status.RunFailed?
  {
    if k > 0 {
      var m := k - 1;
      NothingFails(cfg, states, runId, m);
      assert AnsweredTurn(cfg, states[m], states[m + 1]);
      AnsweredTurnFailsNothing(cfg, states[m], states[k], runId);
      AnsweredTurnIsTurn(cfg, states[m], states[k]);
      TurnGrows(cfg, states[m], states[k]);
    }
  }

  /** When the tool answers, runs do not only end, they complete: after that many undisturbed and answered turns every
      run that had not failed is completed. */
  lemma AnsweredRunsComplete(cfg: Config, states: seq<System>, ids: seq<string>, runId: string)
    requires AnsweredTurnByTurn(cfg, states) && Enumerates(ids, states[0].db.runs.Keys)
    requires forall k :: 0 <= k < |ids| ==> ids[k] in states[0].db.runs
    requires |states| > TotalBudget(cfg.settings, states[0].db, ids)
    requires runId in states[0].db.runs && !states[0].db.runs[runId].status.RunFailed?
    ensures runId in states[|states| - 1].db.runs && states[|states| - 1].db.runs[runId].status.RunCompleted?
  {
    forall k | 0 <= k < |states| - 1 ensures Turn(cfg, states[k], states[k + 1]) {
      assert AnsweredTurn(cfg, states[k], states[k + 1]);
      AnsweredTurnIsTurn(cfg, states[k], states[k + 1]);
    }
    CrashFreeCompletion(cfg, states, ids);
    NothingFails(cfg, states, runId, |states| - 1);
  }
}
