/** Entities of the workflow engine: definitions, persisted records, events and tool results.
    Clock readings, deadlines and delays are whole microseconds. */
module Models {

  datatype Option<+T> = None | Some(value: T)

  datatype Result<+T, +E> = Ok(value: T) | Err(error: E)

  type Time = int

  datatype RunStatus = Running | RunCompleted | RunFailed

  datatype StepStatus = Pending | IntentRecorded | RetryWait | Completed | Failed

  datatype Operation = Charge | Provision | Notify

  datatype EventType =
    | WorkflowRunCreated
    | StepAttemptStarted
    | StepRetryScheduled
    | StepCompleted
    | StepFailed
    | WorkflowRunCompleted
    | WorkflowRunFailed

  datatype Request =
    | ChargeRequest(chargedCustomer: string, amountCents: int)
    | ProvisionRequest(provisionedCustomer: string, plan: string)
    | NotifyRequest(notifiedCustomer: string, email: string, message: string)

  /** The request model that the discriminator `operation` selects. */
  predicate RequestMatches(operation: Operation, request: Request) {
    match operation
    case Charge => request.ChargeRequest?
    case Provision => request.ProvisionRequest?
    case Notify => request.NotifyRequest?
  }

  /** The field constraints of the request models; text is measured in characters. */
  predicate RequestWithinLimits(request: Request) {
    match request
    case ChargeRequest(customer, amountCents) => 1 <= |customer| <= 128 && amountCents > 0
    case ProvisionRequest(customer, plan) => 1 <= |customer| <= 128 && 1 <= |plan| <= 128
    case NotifyRequest(customer, email, message) =>
      1 <= |customer| <= 128 && 3 <= |email| <= 320 && 1 <= |message| <= 1000
  }

  datatype WorkflowStep = WorkflowStep(id: string, operation: Operation, dependsOn: seq<string>, request: Request)

  datatype WorkflowDefinition = WorkflowDefinition(name: string, steps: seq<WorkflowStep>)

  datatype StepDefinition = StepDefinition(
    id: string, position: int, operation: Operation, dependsOn: seq<string>,
    request: Request, operationKey: string, toolKey: string)

  datatype ToolResult = ToolResult(operation: Operation, referenceId: string, deduplicated: bool)

  /** A typed event payload; `UnreadablePayload` is stored text that no payload model accepts. */
  datatype Payload =
    | CreatedPayload(name: string, steps: seq<StepDefinition>)
    | StartedPayload(operation: Operation, request: Request, operationKey: string,
                     workerId: Option<string>, fenceToken: Option<int>)
    | RetryPayload(error: string, nextAttemptAt: Time)
    | CompletedPayload(output: ToolResult)
    | FailedPayload(error: string)
    | RunCompletedPayload
    | RunFailedPayload(stepId: string, error: string)
    | UnreadablePayload

  /** True when the stored payload satisfies the payload model registered for the event type. */
  predicate PayloadMatches(eventType: EventType, payload: Payload) {
    match eventType
    case WorkflowRunCreated => payload.CreatedPayload?
    case StepAttemptStarted => payload.StartedPayload?
    case StepRetryScheduled => payload.RetryPayload?
    case StepCompleted => payload.CompletedPayload?
    case StepFailed => payload.FailedPayload?
    case WorkflowRunCompleted => payload.RunCompletedPayload?
    case WorkflowRunFailed => payload.RunFailedPayload?
  }

  datatype Event = Event(
    runId: string, sequence: int, eventType: EventType, schemaVersion: int,
    stepId: Option<string>, attempt: Option<int>, payload: Payload, occurredAt: Time)

  datatype StepRecord = StepRecord(
    id: string, runId: string, position: int, operation: Operation, dependsOn: seq<string>,
    status: StepStatus, request: Request, operationKey: string, toolKey: string,
    output: Option<ToolResult>, attempts: int, nextAttemptAt: Option<Time>,
    lastError: Option<string>, createdAt: Time, updatedAt: Time, completedAt: Option<Time>)

  datatype WorkflowRun = WorkflowRun(
    runId: string, name: string, status: RunStatus, steps: seq<StepRecord>,
    createdAt: Time, updatedAt: Time, completedAt: Option<Time>)

  datatype Lease = Lease(runId: string, ownerId: string, fenceToken: int, expiresAt: Time, updatedAt: Time)

  datatype Throttle = Throttle(toolKey: string, blockedUntil: Time, reason: string, updatedAt: Time)

  datatype ClaimedStep = ClaimedStep(step: StepRecord, lease: Lease)

  predicate RunnableStatus(status: StepStatus) {
    status.Pending? || status.IntentRecorded? || status.RetryWait?
  }

  function OperationKey(runId: string, stepId: string): string {
    runId + ":" + stepId
  }

  predicate StepIdChar(c: char) {
    'A' <= c <= 'Z' || 'a' <= c <= 'z' || '0' <= c <= '9' || c == '_' || c == '-'
  }

  /** The pattern that a submitted step ID must match. */
  predicate IsStepId(id: string) {
    1 <= |id| <= 64 && forall i :: 0 <= i < |id| ==> StepIdChar(id[i])
  }

  predicate RunIdChar(c: char) {
    '0' <= c <= '9' || 'a' <= c <= 'f' || c == '-'
  }

  /** The characters of a version 4 UUID as text: lower-case hexadecimal digits and dashes. */
  predicate IsRunId(id: string) {
    |id| == 36 && forall i :: 0 <= i < |id| ==> RunIdChar(id[i])
  }

  /** Since neither part contains a colon, the key determines both of its parts. */
  lemma OperationKeyInjective(run1: string, step1: string, run2: string, step2: string)
    requires IsRunId(run1) && IsRunId(run2)
    requires OperationKey(run1, step1) == OperationKey(run2, step2)
    ensures run1 == run2 && step1 == step2
  {
    var key := OperationKey(run1, step1);
    assert key[..36] == run1 && key[37..] == step1;
    assert OperationKey(run2, step2)[..36] == run2 && OperationKey(run2, step2)[37..] == step2;
  }
}
