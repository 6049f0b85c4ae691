/** A concrete run on which the storage calls alone break the history, and a history with two failed steps. */
module Counterexamples {
  import opened Models
  import opened Graph
  import opened History
  import opened HistoryFacts
  import opened Database
  import opened Refinement
  import opened Transitions
  import opened Lifecycle
  import opened RawCalls
  import opened Failures

  const RUN := "00000000-0000-4000-8000-000000000000"

  /** Two independent charges. */
  const PAIR := WorkflowDefinition("pair", [
    WorkflowStep("a", Charge, [], ChargeRequest("customer", 1)),
    WorkflowStep("b", Charge, [], ChargeRequest("customer", 2))])

  lemma IndependentPair(a: string, b: string)
    requires a != b
    ensures WellFormed([Node(a, []), Node(b, [])]) && Acyclic([Node(a, []), Node(b, [])])
  {
    var nodes := [Node(a, []), Node(b, [])];
    assert nodes[0].id == a && nodes[1].id == b;
    TopologicalImpliesAcyclic(nodes, [a, b]);
  }

  lemma PairAccepted()
    ensures IsRunId(RUN) && AcceptedDefinition(PAIR)
  {
    assert StepNodes(PAIR.steps) == [Node("a", []), Node("b", [])];
    IndependentPair("a", "b");
  }

  /** A pair run on which the attempts of both steps are open. */
  ghost predicate BothOpen(db: Db) {
    DbInv(db) && RUN in db.runs && db.runs[RUN].status.Running?
    && var steps := Projection(db, RUN).steps;
    && |steps| == 2 && steps[0].id == "a" && steps[1].id == "b"
    && steps[0].status.IntentRecorded? && steps[1].status.IntentRecorded?
  }

  lemma StartStep(db: Db, i: nat) returns (db': Db)
    requires DbInv(db) && RUN in db.runs && db.runs[RUN].status.Running?
    requires i < |Projection(db, RUN).steps| && Projection(db, RUN).steps[i].dependsOn == []
    requires RunnableStatus(Projection(db, RUN).steps[i].status)
    ensures DbInv(db') && db'.runs == db.runs
    ensures Projection(db', RUN).steps == Projection(db, RUN).steps[i := StartedStep(Projection(db, RUN).steps[i], 0)]
  {
    var run, id := Projection(db, RUN), Projection(db, RUN).steps[i].id;
    RunFacts(db, RUN);
    StepIndexOf(RUN, run, i);
    assert db.steps[RUN][i].id == id;
    RowIndexMatches(db.runs[RUN], RowsOf(db.steps, RUN), RowsOf(db.dependencies, RUN), id);
    BlockedExactly(RUN, db.runs[RUN], RowsOf(db.steps, RUN), RowsOf(db.dependencies, RUN), i);
    assert db.steps[RUN][i].status == run.steps[i].status;
    var j := RecordAttemptCommits(db, RUN, id, None, None, 0, 0);
    StepIdsUnique(RUN, run, i, j);
    db' := RecordAttempt(db, RUN, id, None, None, 0, 0).value.0;
  }

  lemma OpenBoth() returns (db: Db)
    ensures BothOpen(db)
  {
    var empty := Db(map[], map[], map[], map[], map[], map[]);
    PairAccepted();
    CreateRunCommits(empty, RUN, PAIR, "tool", 0);
    db := CreateRun(empty, RUN, PAIR, "tool", 0).value;
    db := StartStep(db, 0);
    db := StartStep(db, 1);
  }

  lemma ActiveRow(db: Db, i: nat)
    requires DbInv(db) && RUN in db.runs && i < |Projection(db, RUN).steps|
             && Projection(db, RUN).steps[i].status.IntentRecorded?
    ensures ActiveAttempt(db, RUN, Projection(db, RUN).steps[i].id, None, None, 0) == Ok(i)
  {
    var run := Projection(db, RUN);
    RunFacts(db, RUN);
    StepIndexOf(RUN, run, i);
    assert db.steps[RUN][i].id == run.steps[i].id && db.steps[RUN][i].status == run.steps[i].status;
    RowIndexMatches(db.runs[RUN], RowsOf(db.steps, RUN), RowsOf(db.dependencies, RUN), run.steps[i].id);
  }

  /** The run fails through step b while the attempt of step a is still open; an unowned completion of step a is then
      committed, although the history no longer admits it. */
  lemma LateCompletionBreaksHistory(output: ToolResult) returns (db: Db, db': Db)
    ensures DbInv(db) && RUN in db.runs && db.runs[RUN].status.RunFailed?
    ensures CompleteStep(db, RUN, "a", output, None, None, 0, 0) == Ok(db')
    ensures !ProjectionMatchesHistory(db', RUN)
  {
    var open := OpenBoth();
    RunFacts(open, RUN);
    ActiveRow(open, 1);
    var i := FailStepCommits(open, RUN, "b", "declined", None, None, 0, 0);
    StepIdsUnique(RUN, Projection(open, RUN), i, 1);
    db := FailStep(open, RUN, "b", "declined", None, None, 0, 0).value;
    assert db.runs[RUN].status == Projection(db, RUN).status;
    assert Projection(db, RUN).steps[0] == Projection(open, RUN).steps[0];
    ActiveRow(db, 0);
    db' := CompleteStep(db, RUN, "a", output, None, None, 0, 0).value;
    CompleteStepMatchesExactly(db, db', RUN, "a", output, None, None, 0, 0);
  }

  lemma TwoFailuresHappen() returns (events: seq<Event>)
    ensures Reduce(events).Ok? && |Reduce(events).value.steps| == 2
    ensures Reduce(events).value.steps[0].status.Failed? && Reduce(events).value.steps[1].status.Failed?
  {
    var db := OpenBoth();
    RunFacts(db, RUN);
    SequencesContiguous(RUN, RowsOf(db.events, RUN));
    assert StepSound(Projection(db, RUN), Projection(db, RUN).steps[0])
           && StepSound(Projection(db, RUN), Projection(db, RUN).steps[1]);
    var more := TwoFailuresReduce(RUN, RowsOf(db.events, RUN), Projection(db, RUN), 0, 1, "declined", 0);
    events := RowsOf(db.events, RUN) + more;
  }

  /** A run claimed twice by the same owner: the first lease is superseded, and a rebuild followed by one more claim
      lets it pass the lease check again. */
  lemma SupersededLeaseRevived() returns (db: Db, lease: Lease, claimed: Db)
    ensures DbInv(db) && lease.runId == RUN && RUN in db.runs && RUN in db.leases
    ensures lease.fenceToken < db.leases[RUN].fenceToken && !PassesLeaseCheck(db, lease, 21)
    ensures RebuildProjection(db, RUN).Ok?
            && claimed == ClaimStep(RebuildProjection(db, RUN).value, RUN, lease.ownerId, 10, 20)
    ensures PassesLeaseCheck(claimed, lease, 21)
  {
    var created := OpenBoth();
    var first := created.(leases := map[RUN := Lease(RUN, "worker", 1, 10, 0)]);
    lease := first.leases[RUN];
    db := ClaimStep(first, RUN, "worker", 10, 10);
    LeasesKeepInvariant(created, db);
    assert RunInv(db, RUN);
    InvariantMatchesHistory(db, RUN);
    RebuildRevivesLease(db, lease, 10, 20, 21);
    claimed := ClaimStep(RebuildProjection(db, RUN).value, RUN, lease.ownerId, 10, 20);
  }
}
