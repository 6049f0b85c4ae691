/** The engine database (storage.py) as a value, and each public transaction as a function on it.
    Every table is partitioned by run: the rows of one run are kept in position, rowid or sequence order. */
module Database {
  import opened Models
  import opened Graph
  import opened History

  datatype RunRow = RunRow(runId: string, name: string, status: RunStatus, definition: Payload,
                           createdAt: Time, updatedAt: Time, completedAt: Option<Time>)

  datatype StepRow = StepRow(
    runId: string, id: string, position: int, operation: Operation, status: StepStatus, request: Request,
    operationKey: string, toolKey: string, output: Option<ToolResult>, attempts: int,
    nextAttemptAt: Option<Time>, lastError: Option<string>,
    createdAt: Time, updatedAt: Time, completedAt: Option<Time>)

  datatype DependencyRow = DependencyRow(stepId: string, dependencyId: string)

  datatype Db = Db(
    runs: map<string, RunRow>,
    steps: map<string, seq<StepRow>>,
    dependencies: map<string, seq<DependencyRow>>,
    events: map<string, seq<Event>>,
    leases: map<string, Lease>,
    throttles: map<string, Throttle>)

  datatype StorageError =
    | RunExists | StepMissing | OwnershipIncomplete | LeaseLost
    | StepNotRunnable | DependenciesBlocked | NoActiveAttempt

  // ----- reading -----

  function RowsOf<T>(table: map<string, seq<T>>, runId: string): seq<T> {
    if runId in table then table[runId] else []
  }

  function RowIndex(rows: seq<StepRow>, id: string): (index: Option<nat>)
    ensures index.Some? ==> index.value < |rows| && rows[index.value].id == id
                            && forall j :: 0 <= j < index.value ==> rows[j].id != id
    ensures index.None? ==> forall j :: 0 <= j < |rows| ==> rows[j].id != id
  {
    if rows == [] then None
    else if rows[0].id == id then Some(0)
    else match RowIndex(rows[1..], id)
      case None => None
      case Some(i) => assert rows[1..][i] == rows[i + 1]; Some(i + 1)
  }

  /** The dependency list of one step, regrouped from the edge rows in insertion order. */
  function Regroup(edges: seq<DependencyRow>, stepId: string): seq<string> {
    if edges == [] then []
    else
      var last := edges[|edges| - 1];
      Regroup(edges[..|edges| - 1], stepId) + if last.stepId == stepId then [last.dependencyId] else []
  }

  function StepFromRow(row: StepRow, dependsOn: seq<string>): StepRecord {
    StepRecord(row.id, row.runId, row.position, row.operation, dependsOn, row.status, row.request,
               row.operationKey, row.toolKey, row.output, row.attempts, row.nextAttemptAt, row.lastError,
               row.createdAt, row.updatedAt, row.completedAt)
  }

  function RunFromRows(run: RunRow, rows: seq<StepRow>, edges: seq<DependencyRow>): WorkflowRun {
    WorkflowRun(run.runId, run.name, run.status,
                seq(|rows|, i requires 0 <= i < |rows| => StepFromRow(rows[i], Regroup(edges, rows[i].id))),
                run.createdAt, run.updatedAt, run.completedAt)
  }

  /** The projected run that readers see. */
  function Projection(db: Db, runId: string): WorkflowRun
    requires runId in db.runs
  {
    RunFromRows(db.runs[runId], RowsOf(db.steps, runId), RowsOf(db.dependencies, runId))
  }

  /** A step is blocked while a declared dependency has a row that is not completed. */
  predicate Blocked(rows: seq<StepRow>, edges: seq<DependencyRow>, stepId: string) {
    exists e, r :: 0 <= e < |edges| && 0 <= r < |rows| && edges[e].stepId == stepId
                   && rows[r].id == edges[e].dependencyId && !rows[r].status.Completed?
  }

  // ----- events -----

  function MaxSequence(events: seq<Event>): int
    requires events != []
  {
    var last := events[|events| - 1].sequence;
    if |events| == 1 then last
    else
      var rest := MaxSequence(events[..|events| - 1]);
      if last > rest then last else rest
  }

  function NextSequence(events: seq<Event>): int {
    if events == [] then 1 else MaxSequence(events) + 1
  }

  function NewEvent(db: Db, runId: string, eventType: EventType, payload: Payload, now: Time,
                    stepId: Option<string>, attempt: Option<int>, schemaVersion: int): Event
  {
    Event(runId, NextSequence(RowsOf(db.events, runId)), eventType, schemaVersion, stepId, attempt, payload, now)
  }

  function AppendEvent(db: Db, runId: string, eventType: EventType, payload: Payload, now: Time,
                       stepId: Option<string>, attempt: Option<int>, schemaVersion: int): Db
  {
    db.(events := db.events[runId := RowsOf(db.events, runId)
                            + [NewEvent(db, runId, eventType, payload, now, stepId, attempt, schemaVersion)]])
  }

  function SetStep(db: Db, runId: string, i: nat, row: StepRow): Db
    requires i < |RowsOf(db.steps, runId)|
  {
    db.(steps := db.steps[runId := db.steps[runId][i := row]])
  }

  // ----- creating a run -----

  function StepDefinitions(runId: string, definition: WorkflowDefinition, toolKey: string): seq<StepDefinition> {
    seq(|definition.steps|, i requires 0 <= i < |definition.steps| =>
      var step := definition.steps[i];
      StepDefinition(step.id, i, step.operation, step.dependsOn, step.request, OperationKey(runId, step.id), toolKey))
  }

  function NewRow(runId: string, definition: StepDefinition, now: Time): StepRow {
    StepRow(runId, definition.id, definition.position, definition.operation, Pending, definition.request,
            definition.operationKey, definition.toolKey, None, 0, None, None, now, now, None)
  }

  function NewRows(runId: string, definitions: seq<StepDefinition>, now: Time): seq<StepRow> {
    seq(|definitions|, i requires 0 <= i < |definitions| => NewRow(runId, definitions[i], now))
  }

  function Edges(stepId: string, dependsOn: seq<string>): seq<DependencyRow> {
    seq(|dependsOn|, i requires 0 <= i < |dependsOn| => DependencyRow(stepId, dependsOn[i]))
  }

  /** The edge rows of all steps, step by step. */
  function NodeEdges(nodes: seq<Node>): seq<DependencyRow> {
    if nodes == [] then []
    else
      var last := nodes[|nodes| - 1];
      NodeEdges(nodes[..|nodes| - 1]) + Edges(last.id, last.dependsOn)
  }

  function NewRun(runId: string, name: string, definitions: seq<StepDefinition>, now: Time): RunRow {
    RunRow(runId, name, Running, CreatedPayload(name, definitions), now, now, None)
  }

  function InsertRun(db: Db, runId: string, name: string, definitions: seq<StepDefinition>, now: Time): Db {
    db.(runs := db.runs[runId := NewRun(runId, name, definitions, now)],
        steps := db.steps[runId := NewRows(runId, definitions, now)],
        dependencies := db.dependencies[runId := NodeEdges(DefinitionNodes(definitions))])
  }

  function CreateRun(db: Db, runId: string, definition: WorkflowDefinition, toolKey: string,
                     now: Time): Result<Db, StorageError>
  {
    if runId in db.runs then Err(RunExists)
    else
      var definitions := StepDefinitions(runId, definition, toolKey);
      Ok(AppendEvent(InsertRun(db, runId, definition.name, definitions, now), runId, WorkflowRunCreated,
                     CreatedPayload(definition.name, definitions), now, None, None,
                     WORKFLOW_RUN_CREATED_SCHEMA_VERSION))
  }

  // ----- leases and claims -----

  /** The rows the selection query admits at time `now`. */
  predicate Selectable(db: Db, now: Time, runId: string, i: nat) {
    runId in db.runs && i < |RowsOf(db.steps, runId)|
    && var row := db.steps[runId][i];
    && db.runs[runId].status.Running?
    && RunnableStatus(row.status)
    && (row.nextAttemptAt.Some? ==> row.nextAttemptAt.value <= now)
    && (row.toolKey in db.throttles ==> db.throttles[row.toolKey].blockedUntil <= now)
    && (runId in db.leases ==> db.leases[runId].expiresAt <= now)
    && !Blocked(db.steps[runId], RowsOf(db.dependencies, runId), row.id)
  }

  predicate NoLater(db: Db, run1: string, i1: nat, run2: string, i2: nat)
    requires run1 in db.runs && i1 < |RowsOf(db.steps, run1)|
    requires run2 in db.runs && i2 < |RowsOf(db.steps, run2)|
  {
    var created1, created2 := db.runs[run1].createdAt, db.runs[run2].createdAt;
    created1 < created2
    || (created1 == created2 && db.steps[run1][i1].position <= db.steps[run2][i2].position)
  }

  /** An admitted row that no admitted row precedes; rows of equal rank are in no fixed order. */
  ghost predicate Selected(db: Db, now: Time, runId: string, i: nat) {
    Selectable(db, now, runId, i)
    && forall r: string, j: nat :: Selectable(db, now, r, j) ==> NoLater(db, runId, i, r, j)
  }

  function NextFence(db: Db, runId: string): int {
    if runId in db.leases then db.leases[runId].fenceToken + 1 else 1
  }

  function ClaimLease(db: Db, runId: string, ownerId: string, ttl: Time, now: Time): Lease {
    Lease(runId, ownerId, NextFence(db, runId), now + ttl, now)
  }

  function ClaimStep(db: Db, runId: string, ownerId: string, ttl: Time, now: Time): Db {
    db.(leases := db.leases[runId := ClaimLease(db, runId, ownerId, ttl, now)])
  }

  predicate Owns(db: Db, runId: string, ownerId: string, fenceToken: int) {
    runId in db.leases && db.leases[runId].ownerId == ownerId && db.leases[runId].fenceToken == fenceToken
  }

  function RenewLease(db: Db, runId: string, ownerId: string, fenceToken: int, ttl: Time, now: Time): Db {
    if Owns(db, runId, ownerId, fenceToken) && db.leases[runId].expiresAt > now
    then db.(leases := db.leases[runId := db.leases[runId].(expiresAt := now + ttl, updatedAt := now)])
    else db
  }

  function ReleaseLease(db: Db, runId: string, ownerId: string, fenceToken: int, now: Time): Db {
    if Owns(db, runId, ownerId, fenceToken)
    then db.(leases := db.leases[runId := db.leases[runId].(expiresAt := now, updatedAt := now)])
    else db
  }

  function LeaseError(db: Db, runId: string, ownerId: Option<string>, fenceToken: Option<int>,
                      now: Time): Option<StorageError>
  {
    if ownerId.None? && fenceToken.None? then None
    else if ownerId.None? || fenceToken.None? then Some(OwnershipIncomplete)
    else if Owns(db, runId, ownerId.value, fenceToken.value) && db.leases[runId].expiresAt > now then None
    else Some(LeaseLost)
  }

  predicate PassesLeaseCheck(db: Db, lease: Lease, leaseNow: Time) {
    LeaseError(db, lease.runId, Some(lease.ownerId), Some(lease.fenceToken), leaseNow).None?
  }

  // ----- step transitions: `leaseNow` is the clock reading of the lease check, `now` the one that is stored -----

  function RecordAttempt(db: Db, runId: string, stepId: string, ownerId: Option<string>, fenceToken: Option<int>,
                         leaseNow: Time, now: Time): Result<(Db, StepRecord), StorageError>
  {
    var rows := RowsOf(db.steps, runId);
    var edges := RowsOf(db.dependencies, runId);
    var index := RowIndex(rows, stepId);
    if index.None? then Err(StepMissing)
    else
      var row := rows[index.value];
      var lost := LeaseError(db, runId, ownerId, fenceToken, leaseNow);
      if lost.Some? then Err(lost.value)
      else if !RunnableStatus(row.status) then Err(StepNotRunnable)
      else if Blocked(rows, edges, stepId) then Err(DependenciesBlocked)
      else
        var attempt := row.attempts + 1;
        var version := if ownerId.Some? then ATTEMPT_EVENT_SCHEMA_VERSION else EVENT_SCHEMA_VERSION;
        var db1 := AppendEvent(db, runId, StepAttemptStarted,
                               StartedPayload(row.operation, row.request, row.operationKey, ownerId, fenceToken),
                               now, Some(stepId), Some(attempt), version);
        var row1 := row.(status := IntentRecorded, attempts := attempt, nextAttemptAt := None,
                         lastError := None, updatedAt := now);
        Ok((SetStep(db1, runId, index.value, row1), StepFromRow(row1, Regroup(edges, stepId))))
  }

  /** The row whose current attempt the caller may close. */
  function ActiveAttempt(db: Db, runId: string, stepId: string, ownerId: Option<string>, fenceToken: Option<int>,
                         leaseNow: Time): (result: Result<nat, StorageError>)
    ensures result.Ok? ==> result.value < |RowsOf(db.steps, runId)|
                           && db.steps[runId][result.value].id == stepId
                           && db.steps[runId][result.value].status.IntentRecorded?
  {
    var index := RowIndex(RowsOf(db.steps, runId), stepId);
    if index.None? then Err(StepMissing)
    else
      var lost := LeaseError(db, runId, ownerId, fenceToken, leaseNow);
      if lost.Some? then Err(lost.value)
      else if !db.steps[runId][index.value].status.IntentRecorded? then Err(NoActiveAttempt)
      else Ok(index.value)
  }

  /** A throttling retry raises the shared cooldown of its tool; a later deadline replaces an earlier one. */
  function Cooldowns(throttles: map<string, Throttle>, throttleTool: bool, toolKey: string, deadline: Time,
                     reason: string, now: Time): map<string, Throttle>
  {
    if !throttleTool then throttles
    else if toolKey !in throttles then throttles[toolKey := Throttle(toolKey, deadline, reason, now)]
    else
      var previous := throttles[toolKey];
      throttles[toolKey := Throttle(toolKey,
                                    if previous.blockedUntil >= deadline then previous.blockedUntil else deadline,
                                    if deadline >= previous.blockedUntil then reason else previous.reason, now)]
  }

  function ScheduleRetry(db: Db, runId: string, stepId: string, error: string, nextAttemptAt: Time,
                         ownerId: Option<string>, fenceToken: Option<int>, throttleTool: bool,
                         leaseNow: Time, now: Time)
    : Result<Db, StorageError>
  {
    match ActiveAttempt(db, runId, stepId, ownerId, fenceToken, leaseNow)
    case Err(e) => Err(e)
    case Ok(i) =>
      var row := db.steps[runId][i];
      var db1 := AppendEvent(db, runId, StepRetryScheduled, RetryPayload(error, nextAttemptAt), now,
                             Some(stepId), Some(row.attempts), EVENT_SCHEMA_VERSION);
      var db2 := SetStep(db1, runId, i, row.(status := RetryWait, lastError := Some(error),
                                             nextAttemptAt := Some(nextAttemptAt), updatedAt := now));
      Ok(db2.(throttles := Cooldowns(db.throttles, throttleTool, row.toolKey, nextAttemptAt, error, now)))
  }

  function SetRun(db: Db, runId: string, run: RunRow): Db {
    db.(runs := db.runs[runId := run])
  }

  function FailStep(db: Db, runId: string, stepId: string, error: string,
                    ownerId: Option<string>, fenceToken: Option<int>, leaseNow: Time, now: Time)
    : Result<Db, StorageError>
  {
    match ActiveAttempt(db, runId, stepId, ownerId, fenceToken, leaseNow)
    case Err(e) => Err(e)
    case Ok(i) =>
      var row := db.steps[runId][i];
      var db1 := AppendEvent(db, runId, StepFailed, FailedPayload(error), now,
                             Some(stepId), Some(row.attempts), EVENT_SCHEMA_VERSION);
      var db2 := AppendEvent(db1, runId, WorkflowRunFailed, RunFailedPayload(stepId, error), now,
                             Some(stepId), None, EVENT_SCHEMA_VERSION);
      var db3 := SetStep(db2, runId, i, row.(status := Failed, lastError := Some(error), updatedAt := now));
      Ok(if runId in db.runs then SetRun(db3, runId, db.runs[runId].(status := RunFailed, updatedAt := now)) else db3)
  }

  predicate AllRowsCompleted(rows: seq<StepRow>) {
    forall i :: 0 <= i < |rows| ==> rows[i].status.Completed?
  }

  function FinishStep(db: Db, runId: string, i: nat, output: ToolResult, now: Time): Db
    requires i < |RowsOf(db.steps, runId)|
  {
    var row := db.steps[runId][i];
    var db1 := AppendEvent(db, runId, StepCompleted, CompletedPayload(output), now,
                           Some(row.id), Some(row.attempts), EVENT_SCHEMA_VERSION);
    SetStep(db1, runId, i, row.(status := Completed, output := Some(output), nextAttemptAt := None,
                                lastError := None, completedAt := Some(now), updatedAt := now))
  }

  function FinishRun(db: Db, runId: string, now: Time): Db {
    var db1 := AppendEvent(db, runId, WorkflowRunCompleted, RunCompletedPayload, now, None, None, EVENT_SCHEMA_VERSION);
    if runId in db.runs
    then SetRun(db1, runId, db.runs[runId].(status := RunCompleted, completedAt := Some(now), updatedAt := now))
    else db1
  }

  /** Without an active attempt the call returns silently; the last completion also ends the run. */
  function CompleteStep(db: Db, runId: string, stepId: string, output: ToolResult,
                        ownerId: Option<string>, fenceToken: Option<int>, leaseNow: Time, now: Time)
    : Result<Db, StorageError>
  {
    match ActiveAttempt(db, runId, stepId, ownerId, fenceToken, leaseNow)
    case Err(e) => if e.NoActiveAttempt? then Ok(db) else Err(e)
    case Ok(i) =>
      var db1 := FinishStep(db, runId, i, output, now);
      Ok(if AllRowsCompleted(db1.steps[runId]) then FinishRun(db1, runId, now) else db1)
  }

  // ----- rebuilding the projection -----

  function RowFromStep(step: StepRecord): StepRow {
    StepRow(step.runId, step.id, step.position, step.operation, step.status, step.request, step.operationKey,
            step.toolKey, step.output, step.attempts, step.nextAttemptAt, step.lastError,
            step.createdAt, step.updatedAt, step.completedAt)
  }

  function RowsFromSteps(steps: seq<StepRecord>): seq<StepRow> {
    seq(|steps|, i requires 0 <= i < |steps| => RowFromStep(steps[i]))
  }

  /** Replaces the rows of one run by those of its reduced history; the lease row goes, the events stay. */
  ghost function RebuildProjection(db: Db, runId: string): Result<Db, HistoryError> {
    var events := RowsOf(db.events, runId);
    match Reduce(events)
    case Err(e) => Err(e)
    case Ok(run) =>
      Ok(db.(leases := db.leases - {runId},
             runs := db.runs[runId := RunRow(run.runId, run.name, run.status, events[0].payload,
                                             run.createdAt, run.updatedAt, run.completedAt)],
             steps := db.steps[runId := RowsFromSteps(run.steps)],
             dependencies := db.dependencies[runId := NodeEdges(RunNodes(run))]))
  }
}
