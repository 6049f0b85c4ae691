/** Creation, leases and the offline rebuild: the transactions that do not move a step. */
module Lifecycle {
  import opened Models
  import opened Graph
  import opened History
  import opened HistoryFacts
  import opened Database
  import opened Refinement

  // ----- dependency lists survive the edge table -----

  lemma {:induction false} RegroupConcat(edges: seq<DependencyRow>, more: seq<DependencyRow>, stepId: string)
    ensures Regroup(edges + more, stepId) == Regroup(edges, stepId) + Regroup(more, stepId)
  {
    if more == [] {
      assert edges + more == edges;
    } else {
      var n := |more| - 1;
      assert (edges + more)[..|edges| + n] == edges + more[..n];
      RegroupConcat(edges, more[..n], stepId);
    }
  }

  lemma {:induction false} RegroupEdges(id: string, dependsOn: seq<string>, stepId: string)
    ensures Regroup(Edges(id, dependsOn), stepId) == if id == stepId then dependsOn else []
  {
    if dependsOn != [] {
      var n := |dependsOn| - 1;
      assert Edges(id, dependsOn)[..n] == Edges(id, dependsOn[..n]);
      RegroupEdges(id, dependsOn[..n], stepId);
      assert dependsOn == dependsOn[..n] + [dependsOn[n]];
    }
  }

  /** Flattening every dependency list to edge rows and regrouping the rows restores each list in order. */
  lemma {:induction false} RegroupRestores(nodes: seq<Node>, stepId: string)
    requires UniqueIds(nodes)
    ensures forall i :: 0 <= i < |nodes| && nodes[i].id == stepId ==>
              Regroup(NodeEdges(nodes), stepId) == nodes[i].dependsOn
    ensures (forall i :: 0 <= i < |nodes| ==> nodes[i].id != stepId) ==> Regroup(NodeEdges(nodes), stepId) == []
  {
    if nodes != [] {
      var n := |nodes| - 1;
      var init := nodes[..n];
      RegroupRestores(init, stepId);
      RegroupConcat(NodeEdges(init), Edges(nodes[n].id, nodes[n].dependsOn), stepId);
      RegroupEdges(nodes[n].id, nodes[n].dependsOn, stepId);
      forall i | 0 <= i < |nodes| && nodes[i].id == stepId
        ensures Regroup(NodeEdges(nodes), stepId) == nodes[i].dependsOn
      {
        if i < n {
          assert init[i].id == stepId;
        } else {
          assert forall j :: 0 <= j < |init| ==> init[j].id != stepId;
        }
      }
    }
  }

  // ----- creation -----

  lemma DefinitionsAccepted(runId: string, definition: WorkflowDefinition, toolKey: string)
    requires AcceptedDefinition(definition)
    ensures DefinitionNodes(StepDefinitions(runId, definition, toolKey)) == StepNodes(definition.steps)
    ensures DefinitionsError(runId, StepDefinitions(runId, definition, toolKey)).None?
  {
    var definitions := StepDefinitions(runId, definition, toolKey);
    var nodes := StepNodes(definition.steps);
    assert DefinitionNodes(definitions) == nodes;
    forall i | 0 <= i < |definitions| ensures DefinitionError(runId, nodes, definitions[i]).None? {
      assert StepError(nodes, nodes[i]).None?;
    }
    NoFirstError(runId, definitions, 0);
  }

  lemma {:induction false} NoFirstError(runId: string, definitions: seq<StepDefinition>, i: nat)
    requires i <= |definitions|
    requires forall j :: 0 <= j < |definitions| ==>
               DefinitionError(runId, DefinitionNodes(definitions), definitions[j]).None?
    ensures FirstDefinitionError(runId, definitions, i).None?
    decreases |definitions| - i
  {
    if i < |definitions| {
      NoFirstError(runId, definitions, i + 1);
    }
  }

  /** The rows of a new run project to the run that its creation event reduces to. */
  lemma CreatedProjection(db: Db, runId: string, definition: WorkflowDefinition, toolKey: string, now: Time)
    requires AcceptedDefinition(definition) && runId !in db.runs
    ensures var db' := CreateRun(db, runId, definition, toolKey, now).value;
            Projection(db', runId) == InitialRun(runId, definition.name, StepDefinitions(runId, definition, toolKey),
                                                 now)
  {
    DefinitionsAccepted(runId, definition, toolKey);
    NewRowsProject(runId, definition.name, StepDefinitions(runId, definition, toolKey), now);
  }

  /** The step is the submitted one, under the run's own key and with the tool key of the submission. */
  predicate Restates(step: StepRecord, submitted: WorkflowStep, runId: string, toolKey: string) {
    step.id == submitted.id && step.operation == submitted.operation && step.dependsOn == submitted.dependsOn
    && step.request == submitted.request && step.toolKey == toolKey
    && step.runId == runId && step.operationKey == runId + ":" + submitted.id
  }

  /** The run executes the submitted definition, step by step. */
  predicate Materializes(run: WorkflowRun, runId: string, definition: WorkflowDefinition, toolKey: string, now: Time) {
    run.runId == runId && run.name == definition.name && run.createdAt == now
    && |run.steps| == |definition.steps|
    && forall i :: 0 <= i < |run.steps| ==>
         run.steps[i].position == i && Restates(run.steps[i], definition.steps[i], runId, toolKey)
  }

  /** Nothing has happened to the run yet. */
  predicate Untouched(run: WorkflowRun) {
    run.status.Running? && run.completedAt.None?
    && forall i :: 0 <= i < |run.steps| ==>
         run.steps[i].status.Pending? && run.steps[i].attempts == 0 && run.steps[i].nextAttemptAt.None?
         && run.steps[i].output.None? && run.steps[i].lastError.None? && run.steps[i].completedAt.None?
  }

  /** A new run is the submitted definition, untouched: every step has its own operation, request and dependencies. */
  lemma CreatedRunRestates(db: Db, runId: string, definition: WorkflowDefinition, toolKey: string, now: Time)
    requires AcceptedDefinition(definition) && runId !in db.runs
    ensures CreateRun(db, runId, definition, toolKey, now).Ok?
    ensures var db' := CreateRun(db, runId, definition, toolKey, now).value;
            runId in db'.runs && Materializes(Projection(db', runId), runId, definition, toolKey, now)
            && Untouched(Projection(db', runId))
  {
    CreatedProjection(db, runId, definition, toolKey, now);
    InitialRunRestates(runId, definition, toolKey, now);
  }

  lemma InitialRunRestates(runId: string, definition: WorkflowDefinition, toolKey: string, now: Time)
    ensures var run := InitialRun(runId, definition.name, StepDefinitions(runId, definition, toolKey), now);
            Materializes(run, runId, definition, toolKey, now) && Untouched(run)
  {
  }

  lemma NewRowsProject(runId: string, name: string, definitions: seq<StepDefinition>, now: Time)
    requires UniqueIds(DefinitionNodes(definitions))
    ensures RunFromRows(NewRun(runId, name, definitions, now), NewRows(runId, definitions, now),
                        NodeEdges(DefinitionNodes(definitions))) ==
            InitialRun(runId, name, definitions, now)
  {
    var nodes := DefinitionNodes(definitions);
    var run := RunFromRows(NewRun(runId, name, definitions, now), NewRows(runId, definitions, now), NodeEdges(nodes));
    forall i | 0 <= i < |definitions| ensures run.steps[i] == InitialStep(runId, definitions[i], now) {
      RegroupRestores(nodes, nodes[i].id);
    }
    assert run.steps == InitialRun(runId, name, definitions, now).steps;
  }

  lemma InitialRunSound(runId: string, definition: WorkflowDefinition, toolKey: string, now: Time)
    requires AcceptedDefinition(definition)
    ensures Sound(InitialRun(runId, definition.name, StepDefinitions(runId, definition, toolKey), now))
  {
    var run := InitialRun(runId, definition.name, StepDefinitions(runId, definition, toolKey), now);
    assert run.steps[0].status.Pending?;
  }

  function CreationEvent(runId: string, definition: WorkflowDefinition, toolKey: string, now: Time): Event {
    Event(runId, 1, WorkflowRunCreated, WORKFLOW_RUN_CREATED_SCHEMA_VERSION, None, None,
          CreatedPayload(definition.name, StepDefinitions(runId, definition, toolKey)), now)
  }

  lemma CreationReduces(runId: string, definition: WorkflowDefinition, toolKey: string, now: Time)
    requires AcceptedDefinition(definition)
    ensures Replay(runId, [CreationEvent(runId, definition, toolKey, now)]) ==
            Ok(Some(InitialRun(runId, definition.name, StepDefinitions(runId, definition, toolKey), now)))
  {
    DefinitionsAccepted(runId, definition, toolKey);
    var event := CreationEvent(runId, definition, toolKey, now);
    assert [event][..0] == [];
  }

  lemma CreateRunWrites(db: Db, runId: string, definition: WorkflowDefinition, toolKey: string, now: Time)
    requires runId !in db.runs && runId !in db.events
    ensures CreateRun(db, runId, definition, toolKey, now).Ok?
    ensures var db' := CreateRun(db, runId, definition, toolKey, now).value;
            && db'.runs.Keys == db.runs.Keys + {runId} && db'.steps.Keys == db.steps.Keys + {runId}
            && db'.dependencies.Keys == db.dependencies.Keys + {runId} && db'.events.Keys == db.events.Keys + {runId}
            && OthersUntouched(db, db', runId) && db'.leases == db.leases && db'.throttles == db.throttles
            && RowsOf(db'.events, runId) == [CreationEvent(runId, definition, toolKey, now)]
  {
    InsertRunWrites(db, runId, definition.name, StepDefinitions(runId, definition, toolKey), now);
  }

  lemma InsertRunWrites(db: Db, runId: string, name: string, definitions: seq<StepDefinition>, now: Time)
    ensures var db' := InsertRun(db, runId, name, definitions, now);
            && db'.runs.Keys == db.runs.Keys + {runId} && db'.steps.Keys == db.steps.Keys + {runId}
            && db'.dependencies.Keys == db.dependencies.Keys + {runId} && db'.events == db.events
            && OthersUntouched(db, db', runId) && db'.leases == db.leases && db'.throttles == db.throttles
  {
  }

  lemma CreateRunCommits(db: Db, runId: string, definition: WorkflowDefinition, toolKey: string, now: Time)
    requires DbInv(db) && IsRunId(runId) && AcceptedDefinition(definition) && runId !in db.runs
    ensures var db' := CreateRun(db, runId, definition, toolKey, now).value;
            && DbInv(db') && db'.runs.Keys == db.runs.Keys + {runId}
            && OthersUntouched(db, db', runId) && db'.leases == db.leases && db'.throttles == db.throttles
            && Projection(db', runId) ==
                  InitialRun(runId, definition.name, StepDefinitions(runId, definition, toolKey), now)
            && RowsOf(db'.events, runId) == [CreationEvent(runId, definition, toolKey, now)]
  {
    CreateRunWrites(db, runId, definition, toolKey, now);
    CreatedProjection(db, runId, definition, toolKey, now);
    InitialRunSound(runId, definition, toolKey, now);
    CreationReduces(runId, definition, toolKey, now);
    NewRunInvariant(db, CreateRun(db, runId, definition, toolKey, now).value, runId);
  }

  lemma NewRunInvariant(db: Db, db': Db, runId: string)
    requires DbInv(db) && runId !in db.runs && OthersUntouched(db, db', runId) && RunInv(db', runId)
    requires db'.runs.Keys == db.runs.Keys + {runId} && db'.steps.Keys == db.steps.Keys + {runId}
    requires db'.dependencies.Keys == db.dependencies.Keys + {runId} && db'.events.Keys == db.events.Keys + {runId}
    requires db'.leases == db.leases
    ensures DbInv(db')
  {
    forall r | r in db'.runs ensures RunInv(db', r) {
      if r != runId {
        assert RunInv(db, r);
        UntouchedRunInv(db, db', runId, r);
      }
    }
  }

  // ----- leases -----

  /** Only leases differ. */
  ghost predicate SameTables(db: Db, db': Db) {
    db' == db.(leases := db'.leases)
  }

  lemma LeasesKeepInvariant(db: Db, db': Db)
    requires DbInv(db) && SameTables(db, db') && db'.leases.Keys <= db.runs.Keys
    ensures DbInv(db')
    ensures forall r :: r in db.runs ==> Projection(db', r) == Projection(db, r)
  {
    forall r | r in db'.runs ensures RunInv(db', r) && Projection(db', r) == Projection(db, r) {
      assert RunInv(db, r);
    }
  }

  // ----- rebuilding -----

  lemma RebuiltRows(run: WorkflowRun, status: Payload)
    requires UniqueIds(RunNodes(run))
    ensures RunFromRows(RunRow(run.runId, run.name, run.status, status, run.createdAt, run.updatedAt, run.completedAt),
                        RowsFromSteps(run.steps),
                        NodeEdges(RunNodes(run))) == run
  {
    var rows := RowsFromSteps(run.steps);
    var rebuilt := RunFromRows(RunRow(run.runId, run.name, run.status, status,
                                      run.createdAt, run.updatedAt, run.completedAt),
                               rows, NodeEdges(RunNodes(run)));
    forall i | 0 <= i < |run.steps| ensures rebuilt.steps[i] == run.steps[i] {
      RegroupRestores(RunNodes(run), run.steps[i].id);
      assert RunNodes(run)[i].id == run.steps[i].id;
    }
    assert rebuilt.steps == run.steps;
  }

  /** Whatever the projection rows of the run were, rebuilding them from a history that reduces gives the reduced run,
      touches no event and no other run, and rebuilding again changes nothing. */
  lemma RebuildRestores(db: Db, runId: string)
    requires Reduce(RowsOf(db.events, runId)).Ok?
    ensures RebuildProjection(db, runId).Ok?
    ensures var db' := RebuildProjection(db, runId).value;
            && runId in db'.runs && Projection(db', runId) == Reduce(RowsOf(db.events, runId)).value
            && ProjectionMatchesHistory(db', runId)
            && db'.events == db.events && OthersUntouched(db, db', runId)
            && runId !in db'.leases
            && RebuildProjection(db', runId) == Ok(db')
  {
    var events := RowsOf(db.events, runId);
    var run := Reduce(events).value;
    ReplayShaped(events[0].runId, events);
    RebuiltRows(run, events[0].payload);
    RebuildTwice(db, runId);
  }

  lemma RebuildTwice(db: Db, runId: string)
    requires Reduce(RowsOf(db.events, runId)).Ok?
    ensures RebuildProjection(db, runId).Ok?
    ensures RebuildProjection(RebuildProjection(db, runId).value, runId) == RebuildProjection(db, runId)
  {
    var db' := RebuildProjection(db, runId).value;
    assert db'.leases - {runId} == db'.leases;
    assert db'.runs[runId := db'.runs[runId]] == db'.runs;
    assert db'.steps[runId := db'.steps[runId]] == db'.steps;
    assert db'.dependencies[runId := db'.dependencies[runId]] == db'.dependencies;
  }

  /** Rebuilding the rows of an intact run changes no row that readers see. */
  lemma RebuildIsNeutral(db: Db, runId: string)
    requires DbInv(db) && runId in db.runs
    ensures RebuildProjection(db, runId).Ok?
    ensures Projection(RebuildProjection(db, runId).value, runId) == Projection(db, runId)
  {
    assert RunInv(db, runId);
    InvariantMatchesHistory(db, runId);
    RebuildRestores(db, runId);
  }

  /** The lease row goes with the projection, and with it the fence counter. */
  lemma RebuildForgetsFence(db: Db, runId: string)
    requires Reduce(RowsOf(db.events, runId)).Ok?
    ensures RebuildProjection(db, runId).Ok?
    ensures var db' := RebuildProjection(db, runId).value;
            runId !in db'.leases && NextFence(db', runId) == 1
  {
  }

  /** After a rebuild, a claim revives every superseded lease that its owner once held with the first fence. */
  lemma RebuildRevivesLease(db: Db, lease: Lease, ttl: Time, now: Time, t: Time)
    requires Reduce(RowsOf(db.events, lease.runId)).Ok? && lease.fenceToken == 1
    requires lease.runId in db.leases && db.leases[lease.runId].fenceToken > 1
    ensures !PassesLeaseCheck(db, lease, t) && RebuildProjection(db, lease.runId).Ok?
    ensures var claimed := ClaimStep(RebuildProjection(db, lease.runId).value, lease.runId, lease.ownerId, ttl, now);
            PassesLeaseCheck(claimed, lease, t) <==> t < now + ttl
  {
  }
}
