/** From submission to effects: a run executes what was submitted, and nothing else is ever done for it. */
module Submission {
  import opened Models
  import opened HistoryFacts
  import opened Database
  import opened Refinement
  import opened Lifecycle
  import opened Counting
  import opened Ledger
  import opened Protocol
  import opened Execution
  import opened Safety
  import opened Effects

  /** Action `j` creates the run. */
  ghost predicate Creates(states: seq<System>, actions: seq<Action>, j: nat, runId: string)
    requires |states| == |actions| + 1
  {
    j < |actions| && actions[j].Create? && actions[j].runId == runId && runId !in states[j].db.runs
  }

  /** Every run was created by exactly such an action. */
  lemma {:induction false} RunWasSubmitted(cfg: Config, states: seq<System>, actions: seq<Action>, k: nat,
                                           runId: string)
    returns (j: nat)
    requires Protocol.Execution(cfg, states, actions) && k < |states| && runId in states[k].db.runs
    ensures j < k && Creates(states, actions, j, runId)
  {
    var m := k - 1;
    assert Step(cfg, states[m], actions[m], states[m + 1]);
    if runId in states[m].db.runs {
      j := RunWasSubmitted(cfg, states, actions, m, runId);
    } else {
      j := m;
      if !actions[m].Create? {
        ActionKeepsRuns(cfg, states[m], actions[m]);
      } else {
        CreationAddsOneRun(cfg, states[m], actions[m]);
      }
    }
  }

  lemma CreationAddsOneRun(cfg: Config, s: System, a: Action)
    requires Enabled(s, a) && a.Create?
    ensures Do(cfg, s, a).db.runs.Keys == s.db.runs.Keys + {a.runId}
  {
  }

  /** In every later state the run's steps are those of the submitted definition, with its operations, requests,
      dependencies and tool key. */
  lemma SubmissionStands(cfg: Config, states: seq<System>, actions: seq<Action>, j: nat, k: nat, runId: string)
    requires Protocol.Execution(cfg, states, actions) && j < k < |states| && Creates(states, actions, j, runId)
    ensures runId in states[k].db.runs
    ensures Materializes(Projection(states[k].db, runId), runId, actions[j].definition, actions[j].toolKey,
                         actions[j].now)
  {
    assert Step(cfg, states[j], actions[j], states[j + 1]);
    CreatedRunRestates(states[j].db, runId, actions[j].definition, actions[j].toolKey, actions[j].now);
    NothingUndone(cfg, states, actions, j + 1, k);
    MaterialStays(Projection(states[j + 1].db, runId), Projection(states[k].db, runId), runId, actions[j].definition,
                  actions[j].toolKey, actions[j].now);
  }

  lemma MaterialStays(before: WorkflowRun, after: WorkflowRun, runId: string, definition: WorkflowDefinition,
                      toolKey: string, now: Time)
    requires Materializes(before, runId, definition, toolKey, now) && Extends(before, after)
    ensures Materializes(after, runId, definition, toolKey, now)
  {
    forall i | 0 <= i < |after.steps|
      ensures after.steps[i].position == i && Restates(after.steps[i], definition.steps[i], runId, toolKey)
    {
      assert SameDefinition(before.steps[i], after.steps[i]);
    }
  }

  /** Every effect under a key of the run has the operation and the request of the submitted step that the key names. */
  lemma EffectOfSubmission(cfg: Config, states: seq<System>, actions: seq<Action>, j: nat, k: nat, runId: string,
                           e: nat, stepId: string)
    returns (i: nat)
    requires Protocol.Execution(cfg, states, actions) && j < k < |states| && Creates(states, actions, j, runId)
    requires e < |states[k].ledger.effects| && states[k].ledger.effects[e].operationKey == runId + ":" + stepId
    ensures var submitted, effect := actions[j].definition.steps, states[k].ledger.effects[e];
            i < |submitted| && submitted[i].id == stepId
            && effect.operation == submitted[i].operation && effect.request == submitted[i].request
  {
    InvariantHolds(cfg, states, actions, k);
    SubmissionStands(cfg, states, actions, j, k, runId);
    var r;
    r, i := EffectStep(cfg, states[k], e);
    KeyOfRun(states[k].db, runId, stepId, r, i);
  }

  lemma KeyOfRun(db: Db, runId: string, stepId: string, r: string, i: nat)
    requires DbInv(db) && runId in db.runs && r in db.runs && i < |Projection(db, r).steps|
    requires OperationKey(r, Projection(db, r).steps[i].id) == runId + ":" + stepId
    ensures r == runId && Projection(db, r).steps[i].id == stepId
  {
    assert RunInv(db, runId) && RunInv(db, r);
    OperationKeyInjective(runId, stepId, r, Projection(db, r).steps[i].id);
  }

  /** When the run is completed, every submitted step has exactly one effect, of its own operation and request, and the
      run's record names it. */
  lemma CompletedRunDidSubmission(cfg: Config, states: seq<System>, actions: seq<Action>, j: nat, k: nat, runId: string,
                                  i: nat)
    returns (e: nat)
    requires Protocol.Execution(cfg, states, actions) && j < k < |states| && Creates(states, actions, j, runId)
    requires runId in states[k].db.runs && states[k].db.runs[runId].status.RunCompleted?
    requires i < |actions[j].definition.steps|
    ensures var submitted := actions[j].definition.steps[i];
            e < |states[k].ledger.effects| && OnlyEffect(states[k].ledger, runId + ":" + submitted.id, e)
            && states[k].ledger.effects[e].operation == submitted.operation
            && states[k].ledger.effects[e].request == submitted.request
    ensures i < |Projection(states[k].db, runId).steps|
            && Projection(states[k].db, runId).steps[i].output.Some?
            && Projection(states[k].db, runId).steps[i].output.value.referenceId == states[k].ledger.effects[e].id
  {
    SubmissionStands(cfg, states, actions, j, k, runId);
    StatusCoherent(cfg, states, actions, k, runId);
    e := CompletedStepHasItsEffect(cfg, states, actions, k, runId, i);
  }

  // ----- the summary of a completed run -----

  function Submits(operation: Operation): WorkflowStep -> bool {
    (step: WorkflowStep) => step.operation == operation
  }

  lemma {:induction false} CountsAgree(steps: seq<StepRecord>, submitted: seq<WorkflowStep>, operation: Operation)
    requires |steps| == |submitted|
    requires forall i :: 0 <= i < |steps| ==> steps[i].operation == submitted[i].operation
    ensures Count(steps, HasOperation(operation)) == Count(submitted, Submits(operation))
  {
    if steps != [] {
      CountsAgree(steps[..|steps| - 1], submitted[..|submitted| - 1], operation);
    }
  }

  /** The summary of a completed run counts, per operation, exactly the steps that were submitted. */
  lemma LedgerMatchesSubmission(cfg: Config, states: seq<System>, actions: seq<Action>, j: nat, k: nat, runId: string)
    requires Protocol.Execution(cfg, states, actions) && j < k < |states| && Creates(states, actions, j, runId)
    requires runId in states[k].db.runs && states[k].db.runs[runId].status.RunCompleted?
    ensures var submitted := actions[j].definition.steps;
            Summary(states[k].ledger, Some(runId)) ==
            LedgerSummary(Count(submitted, Submits(Charge)), Count(submitted, Submits(Provision)),
                          Count(submitted, Submits(Notify)))
  {
    SubmissionStands(cfg, states, actions, j, k, runId);
    LedgerExactAtCompletion(cfg, states, actions, k, runId);
    var steps, submitted := Projection(states[k].db, runId).steps, actions[j].definition.steps;
    forall i | 0 <= i < |steps| ensures steps[i].operation == submitted[i].operation {
      assert Restates(steps[i], submitted[i], runId, actions[j].toolKey);
    }
    CountsAgree(steps, submitted, Charge);
    CountsAgree(steps, submitted, Provision);
    CountsAgree(steps, submitted, Notify);
  }
}
