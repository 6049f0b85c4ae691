/** Effectively-once across both databases, and how the ledger follows the dependency graph. */
module Effects {
  import opened Models
  import opened History
  import opened HistoryFacts
  import opened Database
  import opened Refinement
  import opened Transitions
  import opened Dependencies
  import opened Counting
  import opened Ledger
  import opened Protocol
  import opened Invariant
  import opened Preservation
  import opened Execution

  /** The ledger holds exactly one effect under the key. */
  ghost predicate ExactlyOneEffect(ledger: LedgerTables, operationKey: string) {
    exists e :: 0 <= e < |ledger.effects| && OnlyEffect(ledger, operationKey, e)
  }

  predicate OnlyEffect(ledger: LedgerTables, operationKey: string, e: nat)
    requires e < |ledger.effects|
  {
    ledger.effects[e].operationKey == operationKey
    && forall d :: 0 <= d < |ledger.effects| && ledger.effects[d].operationKey == operationKey ==> d == e
  }

  // ----- effects and steps -----

  /** The run and step that an effect belongs to. */
  lemma EffectStep(cfg: Config, s: System, e: nat) returns (runId: string, i: nat)
    requires DbInv(s.db) && EffectsInv(s) && NetworkInv(s) && e < |s.ledger.effects|
    ensures runId in s.db.runs && i < |Projection(s.db, runId).steps|
    ensures var step, effect := Projection(s.db, runId).steps[i], s.ledger.effects[e];
            && effect.operationKey == step.operationKey == OperationKey(runId, step.id)
            && effect.operation == step.operation && effect.request == step.request && step.attempts >= 1
  {
    assert Requested(s.sent, s.ledger.effects[e]);
    var x :| x in s.sent && Requests(x, s.ledger.effects[e]);
    runId := x.runId;
    i := AuthorizedStep(s.db, x);
  }

  lemma KeyNamesStep(db: Db, run1: string, i: nat, run2: string, j: nat)
    requires DbInv(db) && run1 in db.runs && run2 in db.runs
    requires i < |Projection(db, run1).steps| && j < |Projection(db, run2).steps|
    requires Projection(db, run1).steps[i].operationKey == Projection(db, run2).steps[j].operationKey
    ensures run1 == run2 && i == j
  {
    RunFacts(db, run1);
    RunFacts(db, run2);
    OperationKeyInjective(run1, Projection(db, run1).steps[i].id, run2, Projection(db, run2).steps[j].id);
    StepIdsUnique(run1, Projection(db, run1), i, j);
  }

  /** The effect under a step's key was made for this step, which has been attempted. */
  lemma EffectMatchesStep(cfg: Config, s: System, e: nat, runId: string, i: nat)
    requires DbInv(s.db) && EffectsInv(s) && NetworkInv(s) && e < |s.ledger.effects|
    requires runId in s.db.runs && i < |Projection(s.db, runId).steps|
    requires s.ledger.effects[e].operationKey == Projection(s.db, runId).steps[i].operationKey
    ensures var step, effect := Projection(s.db, runId).steps[i], s.ledger.effects[e];
            effect.operation == step.operation && effect.request == step.request && step.attempts >= 1
  {
    var r, j := EffectStep(cfg, s, e);
    KeyNamesStep(s.db, runId, i, r, j);
  }

  lemma ConfirmedEffect(ledger: LedgerTables, digest: Digest, operationKey: string, result: ToolResult) returns (e: nat)
    requires LedgerInv(ledger, digest) && Confirmed(ledger, operationKey, result)
    ensures e < |ledger.effects| && OnlyEffect(ledger, operationKey, e) && ledger.effects[e].id == result.referenceId
  {
    assert HasEffect(ledger, operationKey);
    e :| 0 <= e < |ledger.effects| && ledger.effects[e].operationKey == operationKey;
  }

  // ----- effectively once -----

  /** No operation key ever has two effects, and every effect is the doing of one step of one run. */
  lemma AtMostOneEffect(cfg: Config, states: seq<System>, actions: seq<Action>, k: nat, operationKey: string)
    requires Protocol.Execution(cfg, states, actions) && k < |states| && HasEffect(states[k].ledger, operationKey)
    ensures ExactlyOneEffect(states[k].ledger, operationKey)
  {
    InvariantHolds(cfg, states, actions, k);
    var e :| 0 <= e < |states[k].ledger.effects| && states[k].ledger.effects[e].operationKey == operationKey;
    assert OnlyEffect(states[k].ledger, operationKey, e);
  }

  /** Every completed step has exactly one effect: the one whose ID is the reference in the step's stored output,
      of the step's own operation and request. */
  lemma CompletedStepHasItsEffect(cfg: Config, states: seq<System>, actions: seq<Action>, k: nat, runId: string, i: nat)
    returns (e: nat)
    requires Protocol.Execution(cfg, states, actions) && k < |states| && runId in states[k].db.runs
    requires i < |Projection(states[k].db, runId).steps| && Projection(states[k].db, runId).steps[i].status.Completed?
    ensures e < |states[k].ledger.effects|
    ensures var step, effect := Projection(states[k].db, runId).steps[i], states[k].ledger.effects[e];
            && OnlyEffect(states[k].ledger, step.operationKey, e)
            && step.output.Some? && effect.id == step.output.value.referenceId
            && effect.operation == step.operation && effect.request == step.request
  {
    InvariantHolds(cfg, states, actions, k);
    e := CompletedEffect(cfg, states[k], runId, i);
  }

  lemma CompletedEffect(cfg: Config, s: System, runId: string, i: nat) returns (e: nat)
    requires DbInv(s.db) && ToolInv(cfg, s) && runId in s.db.runs
    requires i < |Projection(s.db, runId).steps| && Projection(s.db, runId).steps[i].status.Completed?
    ensures e < |s.ledger.effects|
    ensures var step, effect := Projection(s.db, runId).steps[i], s.ledger.effects[e];
            && OnlyEffect(s.ledger, step.operationKey, e)
            && step.output.Some? && effect.id == step.output.value.referenceId
            && effect.operation == step.operation && effect.request == step.request
  {
    var step := Projection(s.db, runId).steps[i];
    assert CompletedConfirmed(s.db, s.ledger, runId);
    e := ConfirmedEffect(s.ledger, cfg.digest, step.operationKey, step.output.value);
    EffectMatchesStep(cfg, s, e, runId, i);
  }

  // ----- effects are authorized -----

  predicate AuthorizesEffect(event: Event, effect: SideEffect) {
    IsStart(event) && event.payload.operationKey == effect.operationKey
    && event.payload.operation == effect.operation && event.payload.request == effect.request
  }

  /** Behind every effect there is a recorded attempt that names its operation, request and key. */
  lemma EffectsAuthorized(cfg: Config, states: seq<System>, actions: seq<Action>, k: nat,
                          e: nat) returns (runId: string, n: nat)
    requires Protocol.Execution(cfg, states, actions) && k < |states| && e < |states[k].ledger.effects|
    ensures runId in states[k].db.runs && n < |RowsOf(states[k].db.events, runId)|
    ensures AuthorizesEffect(RowsOf(states[k].db.events, runId)[n], states[k].ledger.effects[e])
  {
    var s := states[k];
    InvariantHolds(cfg, states, actions, k);
    assert Requested(s.sent, s.ledger.effects[e]);
    var x :| x in s.sent && Requests(x, s.ledger.effects[e]);
    runId := x.runId;
    n :| 0 <= n < |RowsOf(s.db.events, x.runId)| && AuthorizedBy(RowsOf(s.db.events, x.runId)[n], x);
  }

  /** No request of the engine is refused for its key: no other operation or digest is ever stored under it, and the
      insertion fails only if the freshly drawn reference was used before. */
  lemma KeysNeverClash(cfg: Config, states: seq<System>, actions: seq<Action>, k: nat, x: Sent, referenceId: string,
                       now: Time)
    requires Protocol.Execution(cfg, states, actions) && k < |states| && x in states[k].sent
    ensures var outcome := Apply(states[k].ledger, cfg.digest, x.operation, x.operationKey, x.request, referenceId,
                                 now).1;
            && !outcome.Conflicting?
            && (outcome.ConstraintViolated? ==>
                  exists e :: 0 <= e < |states[k].ledger.effects| && states[k].ledger.effects[e].id == referenceId)
  {
    InvariantHolds(cfg, states, actions, k);
    NeverConflicts(cfg, states[k], x);
  }

  // ----- effects respect the graph -----

  /** If a step has an effect, then every step it depends on, directly or through others, is completed and has
      exactly one: at all times the ledger is closed under dependencies. */
  lemma EffectsDownwardClosed(cfg: Config, states: seq<System>, actions: seq<Action>, k: nat, runId: string, i: nat,
                              path: seq<string>)
    returns (j: nat)
    requires Protocol.Execution(cfg, states, actions) && k < |states| && runId in states[k].db.runs
    requires i < |Projection(states[k].db, runId).steps|
    requires HasEffect(states[k].ledger, Projection(states[k].db, runId).steps[i].operationKey)
    requires |path| >= 2 && path[0] == Projection(states[k].db, runId).steps[i].id
    requires DependencyPath(RunNodes(Projection(states[k].db, runId)), path)
    ensures j < |Projection(states[k].db, runId).steps|
    ensures var step := Projection(states[k].db, runId).steps[j];
            step.id == path[|path| - 1] && step.status.Completed?
            && ExactlyOneEffect(states[k].ledger, step.operationKey)
  {
    var s := states[k];
    InvariantHolds(cfg, states, actions, k);
    var e :| 0 <= e < |s.ledger.effects|
             && s.ledger.effects[e].operationKey == Projection(s.db, runId).steps[i].operationKey;
    EffectMatchesStep(cfg, s, e, runId, i);
    RunFacts(s.db, runId);
    SoundIsJustified(Projection(s.db, runId));
    j := PathDone(runId, Projection(s.db, runId), i, path);
    var own := CompletedEffect(cfg, s, runId, j);
  }

  // ----- the ledger of a completed run -----

  function HasOperation(operation: Operation): StepRecord -> bool {
    (step: StepRecord) => step.operation == operation
  }

  function StepKey(): StepRecord -> string {
    (step: StepRecord) => step.operationKey
  }

  function EffectKey(): SideEffect -> string {
    (effect: SideEffect) => effect.operationKey
  }

  /** An effect is counted for a run exactly when its key is the key of one of the run's steps. */
  lemma CountedExactly(cfg: Config, s: System, runId: string, operation: Operation, e: nat) returns (i: nat)
    requires DbInv(s.db) && EffectsInv(s) && NetworkInv(s) && runId in s.db.runs && e < |s.ledger.effects|
    requires Counted(s.ledger.effects[e], Some(runId), operation)
    ensures i < |Projection(s.db, runId).steps| && Projection(s.db, runId).steps[i].operation == operation
    ensures Projection(s.db, runId).steps[i].operationKey == s.ledger.effects[e].operationKey
  {
    var r, j := EffectStep(cfg, s, e);
    assert RunInv(s.db, runId) && RunInv(s.db, r);
    RunPatternMatches(runId, r, Projection(s.db, r).steps[j].id);
    i := j;
  }

  lemma StepCounted(cfg: Config, s: System, runId: string, i: nat) returns (e: nat)
    requires DbInv(s.db) && ToolInv(cfg, s) && runId in s.db.runs
    requires i < |Projection(s.db, runId).steps| && Projection(s.db, runId).steps[i].status.Completed?
    ensures e < |s.ledger.effects| && s.ledger.effects[e].operationKey == Projection(s.db, runId).steps[i].operationKey
    ensures Counted(s.ledger.effects[e], Some(runId), Projection(s.db, runId).steps[i].operation)
  {
    e := CompletedEffect(cfg, s, runId, i);
    RunFacts(s.db, runId);
    RunPatternMatches(runId, runId, Projection(s.db, runId).steps[i].id);
  }

  lemma SameKeys(cfg: Config, s: System, runId: string, operation: Operation)
    requires DbInv(s.db) && ToolInv(cfg, s) && runId in s.db.runs && AllStepsCompleted(Projection(s.db, runId))
    ensures KeySet(s.ledger.effects, CountedBy(Some(runId), operation), EffectKey()) ==
            KeySet(Projection(s.db, runId).steps, HasOperation(operation), StepKey())
  {
    var steps := Projection(s.db, runId).steps;
    forall key ensures key in KeySet(s.ledger.effects, CountedBy(Some(runId), operation), EffectKey()) <==>
                       key in KeySet(steps, HasOperation(operation), StepKey()) {
      if key in KeySet(s.ledger.effects, CountedBy(Some(runId), operation), EffectKey()) {
        EffectKeyOfStep(cfg, s, runId, operation, key);
      }
      if key in KeySet(steps, HasOperation(operation), StepKey()) {
        StepKeyOfEffect(cfg, s, runId, operation, key);
      }
    }
  }

  lemma EffectKeyOfStep(cfg: Config, s: System, runId: string, operation: Operation, key: string)
    requires DbInv(s.db) && ToolInv(cfg, s) && runId in s.db.runs && AllStepsCompleted(Projection(s.db, runId))
    requires key in KeySet(s.ledger.effects, CountedBy(Some(runId), operation), EffectKey())
    ensures key in KeySet(Projection(s.db, runId).steps, HasOperation(operation), StepKey())
  {
    var steps := Projection(s.db, runId).steps;
    KeySetMember(s.ledger.effects, CountedBy(Some(runId), operation), EffectKey(), key);
    KeySetMember(steps, HasOperation(operation), StepKey(), key);
    var e :| 0 <= e < |s.ledger.effects| && Counted(s.ledger.effects[e], Some(runId), operation)
             && s.ledger.effects[e].operationKey == key;
    var i := CountedExactly(cfg, s, runId, operation, e);
    assert HasOperation(operation)(steps[i]) && StepKey()(steps[i]) == key;
  }

  lemma StepKeyOfEffect(cfg: Config, s: System, runId: string, operation: Operation, key: string)
    requires DbInv(s.db) && ToolInv(cfg, s) && runId in s.db.runs && AllStepsCompleted(Projection(s.db, runId))
    requires key in KeySet(Projection(s.db, runId).steps, HasOperation(operation), StepKey())
    ensures key in KeySet(s.ledger.effects, CountedBy(Some(runId), operation), EffectKey())
  {
    var steps := Projection(s.db, runId).steps;
    KeySetMember(s.ledger.effects, CountedBy(Some(runId), operation), EffectKey(), key);
    KeySetMember(steps, HasOperation(operation), StepKey(), key);
    var i :| 0 <= i < |steps| && steps[i].operation == operation && steps[i].operationKey == key;
    var e := StepCounted(cfg, s, runId, i);
    assert CountedBy(Some(runId), operation)(s.ledger.effects[e]) && EffectKey()(s.ledger.effects[e]) == key;
  }

  lemma StepKeysDiffer(db: Db, runId: string)
    requires DbInv(db) && runId in db.runs
    ensures forall i, j :: 0 <= i < j < |Projection(db, runId).steps| ==>
              StepKey()(Projection(db, runId).steps[i]) != StepKey()(Projection(db, runId).steps[j])
  {
    forall i, j | 0 <= i < j < |Projection(db, runId).steps|
      ensures StepKey()(Projection(db, runId).steps[i]) != StepKey()(Projection(db, runId).steps[j])
    {
      if Projection(db, runId).steps[i].operationKey == Projection(db, runId).steps[j].operationKey {
        KeyNamesStep(db, runId, i, runId, j);
      }
    }
  }

  lemma OperationCount(cfg: Config, s: System, runId: string, operation: Operation)
    requires DbInv(s.db) && ToolInv(cfg, s) && runId in s.db.runs && AllStepsCompleted(Projection(s.db, runId))
    ensures Count(s.ledger.effects, CountedBy(Some(runId), operation)) ==
            Count(Projection(s.db, runId).steps, HasOperation(operation))
  {
    SameKeys(cfg, s, runId, operation);
    StepKeysDiffer(s.db, runId);
    CountIsKeyCount(s.ledger.effects, CountedBy(Some(runId), operation), EffectKey());
    CountIsKeyCount(Projection(s.db, runId).steps, HasOperation(operation), StepKey());
  }

  /** When a run is completed, the ledger's summary for it counts, per operation, exactly the run's steps. */
  lemma LedgerExactAtCompletion(cfg: Config, states: seq<System>, actions: seq<Action>, k: nat, runId: string)
    requires Protocol.Execution(cfg, states, actions) && k < |states|
    requires runId in states[k].db.runs && states[k].db.runs[runId].status.RunCompleted?
    ensures var steps := Projection(states[k].db, runId).steps;
            Summary(states[k].ledger, Some(runId)) ==
            LedgerSummary(Count(steps, HasOperation(Charge)), Count(steps, HasOperation(Provision)),
                          Count(steps, HasOperation(Notify)))
  {
    InvariantHolds(cfg, states, actions, k);
    RunFacts(states[k].db, runId);
    OperationCount(cfg, states[k], runId, Charge);
    OperationCount(cfg, states[k], runId, Provision);
    OperationCount(cfg, states[k], runId, Notify);
  }
}
