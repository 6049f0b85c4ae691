/** How many steps of a run can fail. The reducer does not limit failures to one step, so this is exactly when it does:
    for a given history, and for all histories of a given definition. */
module Failures {
  import opened Models
  import opened Graph
  import opened History
  import opened HistoryFacts
  import opened Refinement
  import opened Transitions
  import opened Dependencies

  ghost predicate AtMostOneFailed(run: WorkflowRun) {
    forall i, j :: 0 <= i < j < |run.steps| ==> !(run.steps[i].status.Failed? && run.steps[j].status.Failed?)
  }

  // ----- for one history -----

  /** No step failure follows an earlier one. */
  ghost predicate NoSecondFailure(events: seq<Event>) {
    forall j, k :: 0 <= j < k < |events| ==> !(events[j].eventType.StepFailed? && events[k].eventType.StepFailed?)
  }

  lemma FailureFailsStep(runId: string, events: seq<Event>, k: nat) returns (i: nat)
    requires Replay(runId, events).Ok? && Replay(runId, events).value.Some? && k < |events|
             && events[k].eventType.StepFailed?
    ensures i < |Replay(runId, events).value.value.steps| && Replay(runId, events).value.value.steps[i].status.Failed?
    ensures events[k].stepId == Some(Replay(runId, events).value.value.steps[i].id)
  {
    i := OutcomeNamesStep(runId, events, k);
    CountedAtLeastOnce(events, k, StepFailed, events[k].stepId.value);
    ReplayBooked(runId, events);
    assert StepBooked(events, Replay(runId, events).value.value.steps[i]);
  }

  lemma SecondFailureFailsSecondStep(runId: string, events: seq<Event>, j: nat, k: nat)
    requires Replay(runId, events).Ok? && Replay(runId, events).value.Some?
    requires j < k < |events| && events[j].eventType.StepFailed? && events[k].eventType.StepFailed?
    ensures !AtMostOneFailed(Replay(runId, events).value.value)
  {
    var run := Replay(runId, events).value.value;
    var first := FailureFailsStep(runId, events, j);
    var second := FailureFailsStep(runId, events, k);
    ReplayBooked(runId, events);
    assert StepBooked(events, run.steps[first]);
    if first == second {
      CountedTwice(events, j, k, StepFailed, run.steps[first].id);
    } else {
      TwoFailed(run, first, second);
    }
  }

  lemma TwoFailedStepsShow(runId: string, events: seq<Event>, i: nat, j: nat)
    requires Replay(runId, events).Ok? && Replay(runId, events).value.Some?
    requires i < j < |Replay(runId, events).value.value.steps|
    requires Replay(runId, events).value.value.steps[i].status.Failed?
             && Replay(runId, events).value.value.steps[j].status.Failed?
    ensures !NoSecondFailure(events)
  {
    var run := Replay(runId, events).value.value;
    ReplayShaped(runId, events);
    StepIdsUnique(runId, run, i, j);
    ReplayBooked(runId, events);
    assert StepBooked(events, run.steps[i]) && StepBooked(events, run.steps[j]);
    var k := CountedEvent(events, StepFailed, run.steps[i].id);
    var m := CountedEvent(events, StepFailed, run.steps[j].id);
    assert events[k].stepId != events[m].stepId;
    if k < m {
      assert events[k].eventType.StepFailed? && events[m].eventType.StepFailed?;
    } else {
      assert events[m].eventType.StepFailed? && events[k].eventType.StepFailed?;
    }
  }

  /** For every accepted history: at most one step failed, and exactly one if the run did, if and only if no step
      failure follows an earlier one. */
  lemma OneFailureExactly(events: seq<Event>)
    requires Reduce(events).Ok?
    ensures var run := Reduce(events).value;
            && (AtMostOneFailed(run) <==> NoSecondFailure(events))
            && (run.status.RunFailed? ==> (ExactlyOneFailed(run) <==> NoSecondFailure(events)))
  {
    var runId, run := events[0].runId, Reduce(events).value;
    if !NoSecondFailure(events) {
      var j, k :| 0 <= j < k < |events| && events[j].eventType.StepFailed? && events[k].eventType.StepFailed?;
      SecondFailureFailsSecondStep(runId, events, j, k);
    }
    if !AtMostOneFailed(run) {
      var i, j :| 0 <= i < j < |run.steps| && run.steps[i].status.Failed? && run.steps[j].status.Failed?;
      TwoFailedStepsShow(runId, events, i, j);
    }
    AcceptedStatus(events);
    OneFailedStep(run);
  }

  lemma OneFailedStep(run: WorkflowRun)
    ensures ExactlyOneFailed(run) <==> SomeStepFailed(run) && AtMostOneFailed(run)
  {
    if SomeStepFailed(run) && AtMostOneFailed(run) {
      var i :| 0 <= i < |run.steps| && run.steps[i].status.Failed?;
      forall j | 0 <= j < |run.steps| && run.steps[j].status.Failed? ensures j == i {
      }
    }
  }

  // ----- two open attempts can both fail -----

  /** An open attempt has no retry deadline: the reducer clears it when the attempt starts. */
  lemma {:induction false} OpenAttemptsHaveNoDeadline(runId: string, events: seq<Event>)
    requires Replay(runId, events).Ok? && Replay(runId, events).value.Some?
    ensures forall i :: 0 <= i < |Replay(runId, events).value.value.steps|
                        && Replay(runId, events).value.value.steps[i].status.IntentRecorded? ==>
              Replay(runId, events).value.value.steps[i].nextAttemptAt.None?
  {
    var n := |events| - 1;
    if n > 0 {
      PrefixAccepted(runId, events, n);
      OpenAttemptsHaveNoDeadline(runId, events[..n]);
    }
  }

  /** From any accepted history with two open attempts, the reducer accepts that both fail before the run does. */
  lemma TwoFailuresReduce(runId: string, events: seq<Event>, run: WorkflowRun, i: nat, j: nat, error: string, now: Time)
    returns (more: seq<Event>)
    requires Replay(runId, events) == Ok(Some(run)) && events != [] && events[0].runId == runId && run.status.Running?
    requires i < |run.steps| && j < |run.steps| && i != j
    requires run.steps[i].status.IntentRecorded? && run.steps[j].status.IntentRecorded?
    ensures Reduce(events + more).Ok? && |Reduce(events + more).value.steps| == |run.steps|
    ensures Reduce(events + more).value.steps[i].status.Failed? && Reduce(events + more).value.steps[j].status.Failed?
  {
    var n := |events|;
    OpenAttemptsHaveNoDeadline(runId, events);
    ReplayShaped(runId, events);
    var first := OutcomeEvent(run.steps[i], n + 1, StepFailed, FailedPayload(error), now);
    FailureAccepted(runId, run, i, n + 1, error, now);
    var run1 := WithStep(run, i, FailedStepRecord(run.steps[i], error, now));
    ReplayAppend(runId, events, first);
    ReplayShaped(runId, events + [first]);
    var second := OutcomeEvent(run1.steps[j], n + 2, StepFailed, FailedPayload(error), now);
    FailureAccepted(runId, run1, j, n + 2, error, now);
    var run2 := WithStep(run1, j, FailedStepRecord(run1.steps[j], error, now));
    ReplayAppend(runId, events + [first], second);
    ReplayShaped(runId, events + [first] + [second]);
    var third := EndedEvent(runId, n + 3, WorkflowRunFailed, Some(run2.steps[j].id),
                            RunFailedPayload(run2.steps[j].id, error), now);
    RunFailureAccepted(runId, run2, j, n + 3, error, now);
    ReplayAppend(runId, events + [first] + [second], third);
    more := [first] + [second] + [third];
    assert events + more == events + [first] + [second] + [third];
  }

  // ----- for all histories of a definition -----

  ghost predicate HistoryOf(runId: string, definitions: seq<StepDefinition>, events: seq<Event>) {
    events != [] && events[0].runId == runId && events[0].eventType.WorkflowRunCreated?
    && events[0].payload.CreatedPayload? && events[0].payload.steps == definitions
    && Reduce(events).Ok?
  }

  /** Some accepted history of the definition has two failed steps. */
  ghost predicate CanFailTwice(runId: string, definitions: seq<StepDefinition>) {
    exists events :: HistoryOf(runId, definitions, events) && !AtMostOneFailed(Reduce(events).value)
  }

  /** Neither of the two steps depends on the other, however remotely. */
  ghost predicate Unrelated(nodes: seq<Node>, i: nat, j: nat)
    requires i < |nodes| && j < |nodes|
  {
    i != j && !Reaches(nodes, nodes[i].id, nodes[j].id) && !Reaches(nodes, nodes[j].id, nodes[i].id)
  }

  ghost predicate HasUnrelatedSteps(nodes: seq<Node>) {
    exists i, j :: 0 <= i < |nodes| && 0 <= j < |nodes| && Unrelated(nodes, i, j)
  }

  lemma HistoryKeepsNodes(runId: string, definitions: seq<StepDefinition>, events: seq<Event>)
    requires HistoryOf(runId, definitions, events)
    ensures RunNodes(Reduce(events).value) == DefinitionNodes(definitions)
  {
    HistoryExtends(runId, events, 1);
    assert events[..1][..0] == [];
    var first := Replay(runId, events[..1]).value.value;
    ReplayShaped(runId, events[..1]);
    ShapePersists(runId, first, Reduce(events).value);
    assert RunNodes(first) == DefinitionNodes(definitions);
  }

  /** A failed step has been attempted, so whatever it depends on is completed and cannot be failed. */
  lemma FailedStepsUnrelated(runId: string, run: WorkflowRun, i: nat, j: nat)
    requires Shaped(runId, run) && Justified(run) && i < |run.steps| && j < |run.steps|
    requires run.steps[i].status.Failed? && run.steps[j].status.Failed?
    ensures !Reaches(RunNodes(run), run.steps[i].id, run.steps[j].id)
  {
    if Reaches(RunNodes(run), run.steps[i].id, run.steps[j].id) {
      var path :| PathBetween(RunNodes(run), run.steps[i].id, run.steps[j].id, path);
      assert StepJustified(run, run.steps[i]);
      var k := PathDone(runId, run, i, path);
      StepIdsUnique(runId, run, k, j);
    }
  }

  lemma TwoFailuresAreUnrelated(runId: string, definitions: seq<StepDefinition>, events: seq<Event>)
    requires HistoryOf(runId, definitions, events) && !AtMostOneFailed(Reduce(events).value)
    ensures HasUnrelatedSteps(DefinitionNodes(definitions))
  {
    var run := Reduce(events).value;
    var i, j :| 0 <= i < j < |run.steps| && run.steps[i].status.Failed? && run.steps[j].status.Failed?;
    ReplayShaped(runId, events);
    ReplayJustified(runId, events);
    HistoryKeepsNodes(runId, definitions, events);
    FailedStepsUnrelated(runId, run, i, j);
    FailedStepsUnrelated(runId, run, j, i);
    assert RunNodes(run)[i].id == run.steps[i].id && RunNodes(run)[j].id == run.steps[j].id;
    assert Unrelated(DefinitionNodes(definitions), i, j);
  }

  // ----- building such a history -----

  /** A partial history in which exactly the steps in `done` are completed and all others untouched. */
  ghost predicate Prepared(runId: string, nodes: seq<Node>, events: seq<Event>, run: WorkflowRun, done: set<string>) {
    events != [] && Replay(runId, events) == Ok(Some(run)) && run.status.Running? && RunNodes(run) == nodes
    && CompletedIds(run) == done
    && forall k :: 0 <= k < |run.steps| ==>
         run.steps[k].status == if run.steps[k].id in done then Completed else Pending
  }

  lemma StartInHistory(runId: string, events: seq<Event>, run: WorkflowRun, i: nat) returns (start: Event)
    requires events != [] && Replay(runId, events) == Ok(Some(run)) && run.status.Running? && i < |run.steps|
    requires run.steps[i].status.Pending? && DependenciesDone(run, run.steps[i])
    ensures Replay(runId, events + [start]) == Ok(Some(WithStep(run, i, StartedStep(run.steps[i], 0))))
  {
    ReplayShaped(runId, events);
    start := StartedEvent(run.steps[i], |events| + 1, None, None, 0);
    StartAccepted(runId, run, i, |events| + 1, None, None, 0);
    ReplayAppend(runId, events, start);
  }

  lemma CompleteInHistory(runId: string, events: seq<Event>, run: WorkflowRun, i: nat)
    returns (completion: Event, after: WorkflowRun)
    requires events != [] && Replay(runId, events) == Ok(Some(run)) && run.status.Running? && i < |run.steps|
    requires run.steps[i].status.IntentRecorded?
    ensures Replay(runId, events + [completion]) == Ok(Some(after))
    ensures exists output :: after == WithStep(run, i, CompletedStep(run.steps[i], output, 0))
  {
    ReplayShaped(runId, events);
    var output := ToolResult(run.steps[i].operation, "", false);
    completion := OutcomeEvent(run.steps[i], |events| + 1, StepCompleted, CompletedPayload(output), 0);
    CompletionAccepted(runId, run, i, |events| + 1, output, 0);
    ReplayAppend(runId, events, completion);
    after := WithStep(run, i, CompletedStep(run.steps[i], output, 0));
  }

  lemma PrepareOne(runId: string, nodes: seq<Node>, events: seq<Event>, run: WorkflowRun, done: set<string>, i: nat)
    returns (more: seq<Event>, after: WorkflowRun)
    requires Prepared(runId, nodes, events, run, done) && i < |run.steps| && run.steps[i].id !in done
    requires DependenciesDone(run, run.steps[i])
    ensures events <= more && Prepared(runId, nodes, more, after, done + {run.steps[i].id})
  {
    var start := StartInHistory(runId, events, run, i);
    var started := WithStep(run, i, StartedStep(run.steps[i], 0));
    var completion;
    completion, after := CompleteInHistory(runId, events + [start], started, i);
    more := events + [start] + [completion];
    ReplayShaped(runId, events);
    PreparedNext(runId, run, after, done, i);
  }

  lemma PreparedNext(runId: string, run: WorkflowRun, after: WorkflowRun, done: set<string>, i: nat)
    requires Shaped(runId, run) && CompletedIds(run) == done && i < |run.steps| == |after.steps|
    requires after.steps == run.steps[i := after.steps[i]] && SameDefinition(run.steps[i], after.steps[i])
    requires after.steps[i].status.Completed?
    requires forall k :: 0 <= k < |run.steps| ==>
               run.steps[k].status == if run.steps[k].id in done then Completed else Pending
    ensures RunNodes(after) == RunNodes(run) && CompletedIds(after) == done + {run.steps[i].id}
    ensures forall k :: 0 <= k < |after.steps| ==>
              after.steps[k].status == if after.steps[k].id in done + {run.steps[i].id} then Completed else Pending
  {
    forall k | 0 <= k < |after.steps|
      ensures after.steps[k].id == run.steps[k].id && after.steps[k].dependsOn == run.steps[k].dependsOn
      ensures after.steps[k].status == if after.steps[k].id in done + {run.steps[i].id} then Completed else Pending
    {
      StepIdsUnique(runId, run, k, i);
    }
    forall id ensures id in CompletedIds(after) <==> id in done + {run.steps[i].id} {
      if id in done {
        var k :| 0 <= k < |run.steps| && run.steps[k].status.Completed? && run.steps[k].id == id;
        assert after.steps[k].status.Completed? && after.steps[k].id == id;
      }
      if id in CompletedIds(after) {
        var k :| 0 <= k < |after.steps| && after.steps[k].status.Completed? && after.steps[k].id == id;
        assert run.steps[k].id == id;
      }
      assert after.steps[i].status.Completed? && after.steps[i].id == run.steps[i].id;
    }
  }

  /** A set of steps that contains all dependencies of its members. */
  ghost predicate Closed(nodes: seq<Node>, target: set<string>) {
    (forall id :: id in target ==> Known(nodes, id))
    && forall i, d :: 0 <= i < |nodes| && nodes[i].id in target && d in nodes[i].dependsOn ==> d in target
  }

  /** Every closed set of steps can be completed, leaving the other steps alone. */
  lemma {:induction false} PrepareAll(runId: string, nodes: seq<Node>, events: seq<Event>, run: WorkflowRun,
                                      done: set<string>, target: set<string>)
    returns (more: seq<Event>, after: WorkflowRun)
    requires Prepared(runId, nodes, events, run, done) && WellFormed(nodes) && Acyclic(nodes)
    requires Closed(nodes, target) && done <= target
    ensures events <= more && Prepared(runId, nodes, more, after, target)
    decreases target - done
  {
    if done == target {
      more, after := events, run;
    } else {
      var i := NextInTarget(nodes, done, target);
      assert run.steps[i].id == nodes[i].id && run.steps[i].dependsOn == nodes[i].dependsOn by {
        assert RunNodes(run)[i] == nodes[i];
      }
      var longer, middle := PrepareOne(runId, nodes, events, run, done, i);
      assert target - (done + {nodes[i].id}) < target - done;
      more, after := PrepareAll(runId, nodes, longer, middle, done + {nodes[i].id}, target);
    }
  }

  /** A step of the target that is not done although all its dependencies are. */
  lemma NextInTarget(nodes: seq<Node>, done: set<string>, target: set<string>) returns (i: nat)
    requires WellFormed(nodes) && Acyclic(nodes) && Closed(nodes, target) && done < target
    ensures i < |nodes| && nodes[i].id in target && nodes[i].id !in done && forall d :: d in nodes[i].dependsOn ==>
              d in done
  {
    var others := done + (IdSet(nodes) - target);
    var x :| x in target && x !in done;
    assert Known(nodes, x);
    i := AcyclicHasReadyStep(nodes, others);
  }

  /** Everything that one of the two steps depends on. */
  ghost function Ancestors(nodes: seq<Node>, i: nat, j: nat): set<string>
    requires i < |nodes| && j < |nodes|
  {
    set k | 0 <= k < |nodes| && (Reaches(nodes, nodes[i].id, nodes[k].id) || Reaches(nodes, nodes[j].id, nodes[k].id))
          :: nodes[k].id
  }

  lemma AncestorsClosed(nodes: seq<Node>, i: nat, j: nat)
    requires WellFormed(nodes) && Acyclic(nodes) && i < |nodes| && j < |nodes| && Unrelated(nodes, i, j)
    ensures Closed(nodes, Ancestors(nodes, i, j))
    ensures nodes[i].id !in Ancestors(nodes, i, j) && nodes[j].id !in Ancestors(nodes, i, j)
    ensures forall d :: d in nodes[i].dependsOn || d in nodes[j].dependsOn ==> d in Ancestors(nodes, i, j)
  {
    NeverReachesItself(nodes, nodes[i].id);
    NeverReachesItself(nodes, nodes[j].id);
    forall k, d | 0 <= k < |nodes| && d in nodes[k].dependsOn
                  && (k == i || k == j || nodes[k].id in Ancestors(nodes, i, j))
      ensures d in Ancestors(nodes, i, j)
    {
      DependencyIsAncestor(nodes, i, j, k, d);
    }
  }

  lemma DependencyIsAncestor(nodes: seq<Node>, i: nat, j: nat, k: nat, d: string)
    requires WellFormed(nodes) && i < |nodes| && j < |nodes| && k < |nodes| && d in nodes[k].dependsOn
    requires k == i || k == j || nodes[k].id in Ancestors(nodes, i, j)
    ensures d in Ancestors(nodes, i, j)
  {
    assert StepError(nodes, nodes[k]).None? && Known(nodes, d);
    var n :| 0 <= n < |nodes| && nodes[n].id == d;
    assert DependsOn(nodes, nodes[k].id, d);
    if k == i || k == j {
      ReachesDirectly(nodes, nodes[k].id, d);
    } else {
      var m :| 0 <= m < |nodes| && nodes[m].id == nodes[k].id
               && (Reaches(nodes, nodes[i].id, nodes[m].id) || Reaches(nodes, nodes[j].id, nodes[m].id));
      if Reaches(nodes, nodes[i].id, nodes[m].id) {
        ReachesFurther(nodes, nodes[i].id, nodes[m].id, d);
      } else {
        ReachesFurther(nodes, nodes[j].id, nodes[m].id, d);
      }
    }
  }

  lemma Creation(runId: string, definitions: seq<StepDefinition>) returns (events: seq<Event>, run: WorkflowRun)
    requires DefinitionsError(runId, definitions).None?
    ensures |events| == 1 && events[0].runId == runId && events[0].eventType.WorkflowRunCreated?
    ensures events[0].payload == CreatedPayload("", definitions)
    ensures Prepared(runId, DefinitionNodes(definitions), events, run, {})
  {
    events := [Event(runId, 1, WorkflowRunCreated, WORKFLOW_RUN_CREATED_SCHEMA_VERSION, None, None,
                     CreatedPayload("", definitions), 0)];
    run := InitialRun(runId, "", definitions, 0);
    assert events[..0] == [];
    assert RunNodes(run) == DefinitionNodes(definitions);
    assert CompletedIds(run) == {};
  }

  /** Two unrelated steps can be brought to fail one after the other. */
  lemma UnrelatedStepsFail(runId: string, definitions: seq<StepDefinition>, i: nat, j: nat)
    requires DefinitionsError(runId, definitions).None? && i < |definitions| && j < |definitions|
    requires Unrelated(DefinitionNodes(definitions), i, j)
    ensures CanFailTwice(runId, definitions)
  {
    var nodes := DefinitionNodes(definitions);
    SoundDefinitionsWellFormed(runId, definitions);
    AncestorsClosed(nodes, i, j);
    var created, initial := Creation(runId, definitions);
    var prepared, run := PrepareAll(runId, nodes, created, initial, {}, Ancestors(nodes, i, j));
    assert prepared[0] == created[0];
    var starts, started := StartBoth(runId, nodes, prepared, run, Ancestors(nodes, i, j), i, j);
    var failures := FailBoth(runId, prepared + starts, started, i, j);
    assert (prepared + starts + failures)[0] == prepared[0];
    assert HistoryOf(runId, definitions, prepared + starts + failures);
  }

  lemma StartBoth(runId: string, nodes: seq<Node>, events: seq<Event>, run: WorkflowRun, done: set<string>, i: nat,
                  j: nat)
    returns (starts: seq<Event>, started: WorkflowRun)
    requires Prepared(runId, nodes, events, run, done) && i < |nodes| && j < |nodes| && i != j
    requires nodes[i].id !in done && nodes[j].id !in done
    requires forall d :: d in nodes[i].dependsOn || d in nodes[j].dependsOn ==> d in done
    ensures Replay(runId, events + starts) == Ok(Some(started)) && started.status.Running?
            && |started.steps| == |nodes|
    ensures started.steps[i].status.IntentRecorded? && started.steps[j].status.IntentRecorded?
  {
    assert RunNodes(run)[i] == nodes[i] && RunNodes(run)[j] == nodes[j];
    var first := StartInHistory(runId, events, run, i);
    var run1 := WithStep(run, i, StartedStep(run.steps[i], 0));
    CompletedIdsStay(run, run1, i);
    var second := StartInHistory(runId, events + [first], run1, j);
    started := WithStep(run1, j, StartedStep(run1.steps[j], 0));
    starts := [first, second];
    assert events + starts == events + [first] + [second];
  }

  lemma FailBoth(runId: string, events: seq<Event>, run: WorkflowRun, i: nat, j: nat) returns (more: seq<Event>)
    requires Replay(runId, events) == Ok(Some(run)) && events != [] && events[0].runId == runId && run.status.Running?
    requires i < |run.steps| && j < |run.steps| && i != j
    requires run.steps[i].status.IntentRecorded? && run.steps[j].status.IntentRecorded?
    ensures Reduce(events + more).Ok? && !AtMostOneFailed(Reduce(events + more).value)
  {
    more := TwoFailuresReduce(runId, events, run, i, j, "", 0);
    TwoFailed(Reduce(events + more).value, i, j);
  }

  lemma TwoFailed(run: WorkflowRun, i: nat, j: nat)
    requires i < |run.steps| && j < |run.steps| && i != j && run.steps[i].status.Failed? && run.steps[j].status.Failed?
    ensures !AtMostOneFailed(run)
  {
    if i < j {
      assert run.steps[i].status.Failed? && run.steps[j].status.Failed?;
    } else {
      assert run.steps[j].status.Failed? && run.steps[i].status.Failed?;
    }
  }

  lemma CompletedIdsStay(run: WorkflowRun, after: WorkflowRun, i: nat)
    requires i < |run.steps| && !run.steps[i].status.Completed? && |after.steps| == |run.steps|
    requires after.steps == run.steps[i := after.steps[i]]
    ensures CompletedIds(run) <= CompletedIds(after)
  {
    forall id | id in CompletedIds(run) ensures id in CompletedIds(after) {
      var k :| 0 <= k < |run.steps| && run.steps[k].status.Completed? && run.steps[k].id == id;
      assert after.steps[k] == run.steps[k];
    }
  }

  /** A definition has an accepted history with two failed steps if and only if two of its steps are unrelated. */
  lemma TwoFailuresExactly(runId: string, definitions: seq<StepDefinition>)
    requires DefinitionsError(runId, definitions).None?
    ensures CanFailTwice(runId, definitions) <==> HasUnrelatedSteps(DefinitionNodes(definitions))
  {
    if CanFailTwice(runId, definitions) {
      var events :| HistoryOf(runId, definitions, events) && !AtMostOneFailed(Reduce(events).value);
      TwoFailuresAreUnrelated(runId, definitions, events);
    }
    if HasUnrelatedSteps(DefinitionNodes(definitions)) {
      var nodes := DefinitionNodes(definitions);
      var i, j :| 0 <= i < |nodes| && 0 <= j < |nodes| && Unrelated(nodes, i, j);
      UnrelatedStepsFail(runId, definitions, i, j);
    }
  }
}
