/** The strict reducer that makes the event history authoritative (history.py).
    `Reduce` is the reducer as a fold; `ReduceWorkflowRunHistory` is the loop that computes it. */
module History {
  import opened Models
  import opened Graph

  const EVENT_SCHEMA_VERSION := 1
  const ATTEMPT_EVENT_SCHEMA_VERSION := 2
  const WORKFLOW_RUN_CREATED_SCHEMA_VERSION := 3

  datatype HistoryError =
    | EmptyHistory | MultipleRunIds | SequenceGap | UnsupportedVersion | InvalidPayload
    | RepeatedCreation | CreationVersion | CreationMetadata
    | NoSteps | PositionsNotContiguous | DuplicateIds | WrongOperationKey
    | RepeatedDependency | InvalidDependency | CyclicSteps
    | NotCreated | AfterTerminal
    | RunCompletedMetadata | StepsIncomplete | RunFailedMetadata | UnknownStep | StepNotFailed
    | MissingStepOrAttempt | MissingOwnership | NotRunnable | AttemptNumber
    | DependenciesIncomplete | ChangedDefinition | NotCurrentAttempt
    | MissingRunFailed | MissingRunCompleted

  // ----- definitions -----

  function DefinitionNodes(definitions: seq<StepDefinition>): (nodes: seq<Node>)
    ensures |nodes| == |definitions|
    ensures forall i :: 0 <= i < |nodes| ==> nodes[i] == Node(definitions[i].id, definitions[i].dependsOn)
  {
    seq(|definitions|, i requires 0 <= i < |definitions| => Node(definitions[i].id, definitions[i].dependsOn))
  }

  ghost function DefinitionError(runId: string, nodes: seq<Node>, definition: StepDefinition): Option<HistoryError> {
    if definition.operationKey != OperationKey(runId, definition.id) then Some(WrongOperationKey)
    else if !NoDuplicates(definition.dependsOn) then Some(RepeatedDependency)
    else if definition.id in definition.dependsOn || exists d :: d in definition.dependsOn && !Known(nodes, d)
      then Some(InvalidDependency)
    else None
  }

  /** The first complaint about a single definition, from index `i` on. */
  ghost function FirstDefinitionError(runId: string, definitions: seq<StepDefinition>,
                                      i: nat): (error: Option<HistoryError>)
    requires i <= |definitions|
    ensures error.None? ==> forall j :: i <= j < |definitions| ==>
              DefinitionError(runId, DefinitionNodes(definitions), definitions[j]).None?
    decreases |definitions| - i
  {
    if i == |definitions| then None
    else
      var error := DefinitionError(runId, DefinitionNodes(definitions), definitions[i]);
      if error.Some? then error else FirstDefinitionError(runId, definitions, i + 1)
  }

  ghost function DefinitionsError(runId: string, definitions: seq<StepDefinition>): Option<HistoryError> {
    if definitions == [] then Some(NoSteps)
    else if exists i :: 0 <= i < |definitions| && definitions[i].position != i then Some(PositionsNotContiguous)
    else if !UniqueIds(DefinitionNodes(definitions)) then Some(DuplicateIds)
    else if FirstDefinitionError(runId, definitions, 0).Some? then FirstDefinitionError(runId, definitions, 0)
    else if !Acyclic(DefinitionNodes(definitions)) then Some(CyclicSteps)
    else None
  }

  method CheckDefinition(runId: string, nodes: seq<Node>,
                         definition: StepDefinition) returns (error: Option<HistoryError>)
    ensures error == DefinitionError(runId, nodes, definition)
  {
    if definition.operationKey != OperationKey(runId, definition.id) {
      return Some(WrongOperationKey);
    }
    var unique := set d | d in definition.dependsOn;
    NoDuplicatesSize(definition.dependsOn);
    if |unique| != |definition.dependsOn| {
      return Some(RepeatedDependency);
    }
    var known := set i | 0 <= i < |nodes| :: nodes[i].id;
    assert forall d :: d in known <==> Known(nodes, d);
    if definition.id in definition.dependsOn || !(unique <= known) {
      return Some(InvalidDependency);
    }
    return None;
  }

  method ValidateDefinitions(runId: string, definitions: seq<StepDefinition>) returns (error: Option<HistoryError>)
    ensures error == DefinitionsError(runId, definitions)
  {
    if definitions == [] {
      return Some(NoSteps);
    }
    var i := 0;
    while i < |definitions|
      invariant 0 <= i <= |definitions|
      invariant forall j :: 0 <= j < i ==> definitions[j].position == j
    {
      if definitions[i].position != i {
        return Some(PositionsNotContiguous);
      }
      i := i + 1;
    }
    var nodes := DefinitionNodes(definitions);
    var ids := IdList(nodes);
    NoDuplicatesSize(ids);
    assert NoDuplicates(ids) <==> UniqueIds(nodes);
    if |set x | x in ids| != |ids| {
      return Some(DuplicateIds);
    }
    i := 0;
    while i < |definitions|
      invariant 0 <= i <= |definitions|
      invariant FirstDefinitionError(runId, definitions, i) == FirstDefinitionError(runId, definitions, 0)
    {
      error := CheckDefinition(runId, nodes, definitions[i]);
      if error.Some? {
        return;
      }
      i := i + 1;
    }
    SoundDefinitionsWellFormed(runId, definitions);
    var acyclic, order := GreedyScan(nodes);
    error := if acyclic then None else Some(CyclicSteps);
  }

  lemma SoundDefinitionsWellFormed(runId: string, definitions: seq<StepDefinition>)
    requires UniqueIds(DefinitionNodes(definitions))
    requires FirstDefinitionError(runId, definitions, 0).None?
    ensures WellFormed(DefinitionNodes(definitions))
  {
    var nodes := DefinitionNodes(definitions);
    forall i | 0 <= i < |nodes| ensures StepError(nodes, nodes[i]).None? {
      assert DefinitionError(runId, nodes, definitions[i]).None?;
    }
  }

  // ----- the fold -----

  function StepIndex(steps: seq<StepRecord>, id: string): (index: Option<nat>)
    ensures index.Some? ==> index.value < |steps| && steps[index.value].id == id
                            && forall j :: 0 <= j < index.value ==> steps[j].id != id
    ensures index.None? ==> forall j :: 0 <= j < |steps| ==> steps[j].id != id
  {
    if steps == [] then None
    else if steps[0].id == id then Some(0)
    else match StepIndex(steps[1..], id)
      case None => None
      case Some(i) => assert steps[1..][i] == steps[i + 1]; Some(i + 1)
  }

  method FindStepWithIndex(steps: seq<StepRecord>, id: string) returns (index: Option<nat>)
    ensures index == StepIndex(steps, id)
  {
    var i := 0;
    while i < |steps|
      invariant 0 <= i <= |steps|
      invariant forall j :: 0 <= j < i ==> steps[j].id != id
    {
      if steps[i].id == id {
        return Some(i);
      }
      i := i + 1;
    }
    return None;
  }

  function RunNodes(run: WorkflowRun): (nodes: seq<Node>)
    ensures |nodes| == |run.steps|
    ensures forall i :: 0 <= i < |nodes| ==> nodes[i] == Node(run.steps[i].id, run.steps[i].dependsOn)
  {
    seq(|run.steps|, i requires 0 <= i < |run.steps| => Node(run.steps[i].id, run.steps[i].dependsOn))
  }

  function CompletedIds(run: WorkflowRun): set<string> {
    set i | 0 <= i < |run.steps| && run.steps[i].status.Completed? :: run.steps[i].id
  }

  function InitialStep(runId: string, definition: StepDefinition, now: Time): StepRecord {
    StepRecord(definition.id, runId, definition.position, definition.operation, definition.dependsOn,
               Pending, definition.request, definition.operationKey, definition.toolKey,
               None, 0, None, None, now, now, None)
  }

  function InitialRun(runId: string, name: string, definitions: seq<StepDefinition>, now: Time): WorkflowRun {
    WorkflowRun(runId, name, Running,
                seq(|definitions|, i requires 0 <= i < |definitions| => InitialStep(runId, definitions[i], now)),
                now, now, None)
  }

  ghost function ApplyCreation(runId: string, run: Option<WorkflowRun>, event: Event): Result<WorkflowRun, HistoryError>
    requires event.payload.CreatedPayload?
  {
    if run.Some? || event.sequence != 1 then Err(RepeatedCreation)
    else if event.schemaVersion != WORKFLOW_RUN_CREATED_SCHEMA_VERSION then Err(CreationVersion)
    else if event.stepId.Some? || event.attempt.Some? then Err(CreationMetadata)
    else match DefinitionsError(runId, event.payload.steps)
      case Some(error) => Err(error)
      case None => Ok(InitialRun(runId, event.payload.name, event.payload.steps, event.occurredAt))
  }

  function ApplyRunCompleted(run: WorkflowRun, event: Event): Result<WorkflowRun, HistoryError> {
    if event.stepId.Some? || event.attempt.Some? then Err(RunCompletedMetadata)
    else if exists i :: 0 <= i < |run.steps| && !run.steps[i].status.Completed? then Err(StepsIncomplete)
    else Ok(run.(status := RunCompleted, updatedAt := event.occurredAt, completedAt := Some(event.occurredAt)))
  }

  function ApplyRunFailed(run: WorkflowRun, event: Event): Result<WorkflowRun, HistoryError>
    requires event.payload.RunFailedPayload?
  {
    if event.stepId != Some(event.payload.stepId) || event.attempt.Some? then Err(RunFailedMetadata)
    else match StepIndex(run.steps, event.payload.stepId)
      case None => Err(UnknownStep)
      case Some(i) =>
        if !run.steps[i].status.Failed? || run.steps[i].lastError != Some(event.payload.error) then Err(StepNotFailed)
        else Ok(run.(status := RunFailed, updatedAt := event.occurredAt))
  }

  function ApplyAttemptStarted(run: WorkflowRun, step: StepRecord, event: Event): Result<StepRecord, HistoryError>
    requires event.payload.StartedPayload? && event.attempt.Some?
  {
    var started := event.payload;
    if event.schemaVersion == ATTEMPT_EVENT_SCHEMA_VERSION && (started.workerId.None? || started.fenceToken.None?)
    then Err(MissingOwnership)
    else if !RunnableStatus(step.status) then Err(NotRunnable)
    else if event.attempt.value != step.attempts + 1 then Err(AttemptNumber)
    else if !((set d | d in step.dependsOn) <= CompletedIds(run)) then Err(DependenciesIncomplete)
    else if started.operation != step.operation || started.request != step.request
            || started.operationKey != step.operationKey
    then Err(ChangedDefinition)
    else Ok(step.(status := IntentRecorded, attempts := event.attempt.value, nextAttemptAt := None,
                  lastError := None, updatedAt := event.occurredAt))
  }

  /** What an outcome does to the step whose current attempt it closes. */
  function ApplyOutcome(step: StepRecord, event: Event): Result<StepRecord, HistoryError>
    requires event.attempt.Some?
    requires event.payload.RetryPayload? || event.payload.CompletedPayload? || event.payload.FailedPayload?
  {
    if !step.status.IntentRecorded? || step.attempts != event.attempt.value then Err(NotCurrentAttempt)
    else match event.payload
      case RetryPayload(error, nextAttemptAt) =>
        Ok(step.(status := RetryWait, lastError := Some(error), nextAttemptAt := Some(nextAttemptAt),
                 updatedAt := event.occurredAt))
      case CompletedPayload(output) =>
        Ok(step.(status := Completed, output := Some(output), nextAttemptAt := None, lastError := None,
                 updatedAt := event.occurredAt, completedAt := Some(event.occurredAt)))
      case FailedPayload(error) =>
        Ok(step.(status := Failed, lastError := Some(error), nextAttemptAt := None, updatedAt := event.occurredAt))
  }

  function ApplyStepEvent(run: WorkflowRun, event: Event): Result<WorkflowRun, HistoryError>
    requires event.payload.StartedPayload? || event.payload.RetryPayload?
             || event.payload.CompletedPayload? || event.payload.FailedPayload?
  {
    if event.stepId.None? || event.attempt.None? then Err(MissingStepOrAttempt)
    else match StepIndex(run.steps, event.stepId.value)
      case None => Err(UnknownStep)
      case Some(i) =>
        var result := if event.payload.StartedPayload? then ApplyAttemptStarted(run, run.steps[i], event)
                      else ApplyOutcome(run.steps[i], event);
        match result
        case Err(error) => Err(error)
        case Ok(step) => Ok(run.(steps := run.steps[i := step]))
  }

  /** One turn of the reducer's loop. */
  ghost function ApplyEvent(runId: string, run: Option<WorkflowRun>, expected: int,
                            event: Event): Result<WorkflowRun, HistoryError>
  {
    if event.runId != runId then Err(MultipleRunIds)
    else if event.sequence != expected then Err(SequenceGap)
    else if event.schemaVersion !in {EVENT_SCHEMA_VERSION, ATTEMPT_EVENT_SCHEMA_VERSION,
                                     WORKFLOW_RUN_CREATED_SCHEMA_VERSION} then Err(UnsupportedVersion)
    else if !PayloadMatches(event.eventType, event.payload) then Err(InvalidPayload)
    else if event.eventType.WorkflowRunCreated? then ApplyCreation(runId, run, event)
    else if run.None? then Err(NotCreated)
    else if !run.value.status.Running? then Err(AfterTerminal)
    else if event.eventType.WorkflowRunCompleted? then ApplyRunCompleted(run.value, event)
    else if event.eventType.WorkflowRunFailed? then ApplyRunFailed(run.value, event)
    else ApplyStepEvent(run.value, event)
  }

  ghost function Replay(runId: string, events: seq<Event>): Result<Option<WorkflowRun>, HistoryError> {
    if events == [] then Ok(None)
    else
      var n := |events| - 1;
      match Replay(runId, events[..n])
      case Err(error) => Err(error)
      case Ok(run) =>
        match ApplyEvent(runId, run, |events|, events[n])
        case Err(error) => Err(error)
        case Ok(run') => Ok(Some(run'))
  }

  predicate SomeStepFailed(run: WorkflowRun) {
    exists i :: 0 <= i < |run.steps| && run.steps[i].status.Failed?
  }

  predicate AllStepsCompleted(run: WorkflowRun) {
    forall i :: 0 <= i < |run.steps| ==> run.steps[i].status.Completed?
  }

  function FinalError(run: WorkflowRun): Option<HistoryError> {
    if run.status.Running? && SomeStepFailed(run) then Some(MissingRunFailed)
    else if run.status.Running? && AllStepsCompleted(run) then Some(MissingRunCompleted)
    else None
  }

  ghost function Reduce(events: seq<Event>): Result<WorkflowRun, HistoryError> {
    if events == [] then Err(EmptyHistory)
    else match Replay(events[0].runId, events)
      case Err(error) => Err(error)
      case Ok(run) =>
        if run.None? then Err(EmptyHistory)
        else if FinalError(run.value).Some? then Err(FinalError(run.value).value)
        else Ok(run.value)
  }

  lemma ReplayAppend(runId: string, events: seq<Event>, event: Event)
    ensures Replay(runId, events + [event]) ==
            match Replay(runId, events)
            case Err(error) => Err(error)
            case Ok(run) =>
              match ApplyEvent(runId, run, |events| + 1, event)
              case Err(error) => Err(error)
              case Ok(run') => Ok(Some(run'))
  {
    assert (events + [event])[..|events|] == events;
  }

  /** Once a prefix is rejected, the whole history is rejected with the same complaint. */
  lemma {:induction false} RejectionSticks(runId: string, events: seq<Event>, n: nat)
    requires n <= |events| && Replay(runId, events[..n]).Err?
    ensures Replay(runId, events) == Replay(runId, events[..n])
  {
    if n == |events| {
      assert events[..n] == events;
    } else {
      var init := events[..|events| - 1];
      assert init[..n] == events[..n];
      RejectionSticks(runId, init, n);
    }
  }

  lemma {:induction false} PrefixAccepted(runId: string, events: seq<Event>, n: nat)
    requires n <= |events| && Replay(runId, events).Ok?
    ensures Replay(runId, events[..n]).Ok?
    ensures n > 0 ==> Replay(runId, events[..n]).value.Some?
  {
    if Replay(runId, events[..n]).Err? {
      RejectionSticks(runId, events, n);
    }
  }

  // ----- the loop -----

  method FoldEvent(runId: string, run: Option<WorkflowRun>, expected: int, event: Event)
    returns (result: Result<WorkflowRun, HistoryError>)
    ensures result == ApplyEvent(runId, run, expected, event)
  {
    if event.runId != runId { return Err(MultipleRunIds); }
    if event.sequence != expected { return Err(SequenceGap); }
    if event.schemaVersion !in {EVENT_SCHEMA_VERSION, ATTEMPT_EVENT_SCHEMA_VERSION,
                                WORKFLOW_RUN_CREATED_SCHEMA_VERSION} {
      return Err(UnsupportedVersion);
    }
    if !PayloadMatches(event.eventType, event.payload) { return Err(InvalidPayload); }
    if event.eventType == WorkflowRunCreated {
      if run.Some? || event.sequence != 1 { return Err(RepeatedCreation); }
      if event.schemaVersion != WORKFLOW_RUN_CREATED_SCHEMA_VERSION { return Err(CreationVersion); }
      if event.stepId.Some? || event.attempt.Some? { return Err(CreationMetadata); }
      var error := ValidateDefinitions(runId, event.payload.steps);
      if error.Some? { return Err(error.value); }
      return Ok(InitialRun(runId, event.payload.name, event.payload.steps, event.occurredAt));
    }
    if run.None? { return Err(NotCreated); }
    var current := run.value;
    if current.status != Running { return Err(AfterTerminal); }
    if event.eventType == WorkflowRunCompleted {
      result := ApplyRunCompleted(current, event);
      return;
    }
    if event.eventType == WorkflowRunFailed {
      result := ApplyRunFailed(current, event);
      return;
    }
    if event.stepId.None? || event.attempt.None? { return Err(MissingStepOrAttempt); }
    var index := FindStepWithIndex(current.steps, event.stepId.value);
    if index.None? { return Err(UnknownStep); }
    var step := current.steps[index.value];
    var updated := if event.eventType == StepAttemptStarted then ApplyAttemptStarted(current, step, event)
                   else ApplyOutcome(step, event);
    if updated.Err? { return Err(updated.error); }
    return Ok(current.(steps := current.steps[index.value := updated.value]));
  }

  method ReduceWorkflowRunHistory(events: seq<Event>) returns (result: Result<WorkflowRun, HistoryError>)
    ensures result == Reduce(events)
  {
    if events == [] { return Err(EmptyHistory); }
    var runId := events[0].runId;
    var run: Option<WorkflowRun> := None;
    var expectedSequence := 1;
    while expectedSequence <= |events|
      invariant 1 <= expectedSequence <= |events| + 1
      invariant Replay(runId, events[..expectedSequence - 1]) == Ok(run)
    {
      var event := events[expectedSequence - 1];
      assert events[..expectedSequence] == events[..expectedSequence - 1] + [event];
      ReplayAppend(runId, events[..expectedSequence - 1], event);
      var next := FoldEvent(runId, run, expectedSequence, event);
      if next.Err? {
        RejectionSticks(runId, events, expectedSequence);
        return Err(next.error);
      }
      run := Some(next.value);
      expectedSequence := expectedSequence + 1;
    }
    assert events[..|events|] == events;
    if FinalError(run.value).Some? { return Err(FinalError(run.value).value); }
    return Ok(run.value);
  }
}
