# Crashsafe, modelled and verified in Dafny

Crashsafe is a durable workflow engine. Workers claim steps of workflow runs from a SQLite database, record their intent,
call an independent tool over HTTP, and commit the outcome; any process may die between any two of these steps. This project
models the engine database, the strict reducer over the event history, the worker protocol, the tool's idempotent ledger and
the definition checks, and proves what ties them together. `dafny verify dfyconfig.toml` checks everything.

## How the model is laid out

| module | what it holds |
|---|---|
| `Models` | definitions, rows, events, leases; the operation key and why it determines run and step |
| `Graph` | dependency graphs, the worklist of `validate_graph`, the greedy scan of the reducer, readiness in acyclic graphs |
| `History`, `HistoryFacts` | the reducer as a fold and as the loop that computes it; what every accepted history has in common |
| `Database` | the tables as a value, every transaction as a function on them |
| `Refinement`, `Transitions`, `Lifecycle` | each transaction on a running run commits events that reduce to exactly the rows it wrote; creation; rebuilding |
| `RawCalls`, `Counterexamples` | storage calls without the engine: exactly when they keep the history reducible, and runs on which they do not |
| `Dependencies`, `Failures` | paths of dependencies in an accepted history; exactly when the reducer lets two steps of a run fail |
| `Ledger`, `Counting` | the tool's tables, `find`, `apply`, the summary query with its LIKE pattern |
| `Gateway` | HTTP answers as outcomes, the retry policy |
| `Protocol` | the state machine: any number of workers, crashes between any two steps, heartbeats, late and repeated delivery |
| `Invariant`, `Preservation`, `CommitPreservation`, `Execution` | the inductive invariant and its preservation by every action |
| `Safety`, `Effects`, `Progress`, `Backoff` | the theorems about all executions |
| `Submission` | a run does what was submitted: its steps, its effects and its summary in terms of the submitted definition |
| `Answers` | what the commit leaves behind, in terms of status, header and body of the tool's answer and of the attempts made |
| `Scheduling` | which steps a claim takes, and that older work is not passed over |
| `Runs`, `Turns`, `Recovery`, `Completion` | runs of the protocol from any state, the actions of one undisturbed call, how such a call completes a step whose effect may already be there, and how such calls end and complete every run |
| `Storage`, `ToolService`, `Engine` | the source's classes, with methods that update their fields, proved against the functions above |
| `Timeline`, `TimelineFacts` | `build_timeline`, its agreement with the reducer, and what each entry tells |

An execution (`Protocol.Execution`) is a finite sequence of actions from the empty system. One action is one transaction,
one message or one crash. Clock readings, owner names, lease durations, the tool's flakiness and the order of deliveries are
arbitrary in every action, so no safety theorem depends on clocks. A request stays on the wire for ever and may reach the
tool any number of times, also after its sender is dead or fenced out; the tool's lookup and its apply are separate actions.
`Engine.RunOnce` shows that the imperative `run_once`, undisturbed, is a run of these actions, and `Runs.RunIsExecution`
carries the theorems over to whatever such calls reach.

Where the storage calls alone do not give what the repository promises, the exact condition is proved. The repository's own
README says that ordered history reconstructs the projection exactly. The mutators do not look at the run's status, and a call
without an owner skips the lease check (crashsafe/storage.py:948-949), so for raw calls this holds if and only if the run is
running (`RawCalls`), with a concrete run on which it fails (`Counterexamples`). In engine runs the condition is a consequence of fencing
(`Safety.HistoryEqualsProjection`). Likewise the reducer alone does not promise that a failed run has exactly one failed step:
an accepted history keeps it if and only if no step failure follows an earlier one (`Failures.OneFailureExactly`), a definition
admits a history that breaks it if and only if two of its steps do not depend on each other (`Failures.TwoFailuresExactly`), and
`Counterexamples.TwoFailuresHappen` gives one. In engine runs it always holds (`Safety.StatusCoherent`). Rebuilding a projection
deletes the run's lease row and with it the fence counter, so the order of fences survives a rebuild if and only if the run had
no lease row (`Safety.RebuildKeepsFenceOrderExactly`), and a superseded lease can pass the lease check again
(`Counterexamples.SupersededLeaseRevived`).

## Model

| member | source | states |
|---|---|---|
| Models.OperationKeyInjective | crashsafe/storage.py:380 | an operation key determines both the run and the step it was made for, for every step ID |
| Graph.CheckStep | crashsafe/models.py:106-113 | the first complaint about one step's dependencies, in the source's order: duplicates, itself, unknown names |
| Graph.WorklistOrder | crashsafe/models.py:115-129 | the worklist terminates, its visit order puts dependencies first, and it visits all steps exactly when the graph has no cycle |
| Graph.ValidateGraph | crashsafe/models.py:99-132 | accepts exactly the well-formed acyclic graphs, with a topological visit order; which error is reported in every other case |
| Graph.ValidateDefinition | crashsafe/models.py:52-132 | accepts a definition exactly when all fields keep their limits, IDs match the pattern, requests fit their operations and the graph is well-formed and acyclic |
| Graph.GreedyScan | crashsafe/history.py:285-293 | the greedy scan terminates, accepts exactly the acyclic graphs and visits in topological order, so it agrees with the worklist |
| Graph.AcyclicHasReadyStep | crashsafe/models.py:99-132 | while a step of an accepted graph is unfinished, some unfinished step has all its dependencies finished |
| Lifecycle.DefinitionsAccepted | crashsafe/storage.py:373-385 | the snapshot made from any accepted definition passes the reducer's own validation |
| History.ValidateDefinitions | crashsafe/history.py:268-293 | the loop reports the first definition error in the source's order, cycles last |
| History.ReduceWorkflowRunHistory | crashsafe/history.py:68-265 | the reducing loop computes the fold, with the error of the first event that is rejected |
| History.FoldEvent | crashsafe/history.py:84-256 | one turn of the loop: all rejections in the source's order, and the run an accepted event leads to |
| History.RejectionSticks | crashsafe/history.py:84-256 | a history with a rejected prefix is rejected with the complaint of that prefix |
| HistoryFacts.HistoryExtends | crashsafe/history.py:140-256 | whatever is appended to an accepted history keeps definitions, finished steps and terminal runs, and never lowers an attempt count |
| HistoryFacts.AcceptedStatus | crashsafe/history.py:140-172 | in an accepted history a run is completed, failed or running exactly as its steps stand |
| HistoryFacts.NothingFollowsEnd | crashsafe/history.py:142-143 | an accepted history that continues one that ended the run is that same history |
| HistoryFacts.ReplayBooked | crashsafe/history.py:178-248 | per step: attempts are the start events, every outcome has its attempt, and starts are retries plus completions plus failures plus unmatched attempts |
| HistoryFacts.AttemptsNumbered | crashsafe/history.py:194-195 | the attempt starts of a step are numbered 1, 2, 3 and so on without gaps |
| HistoryFacts.OutcomeClosesCurrent | crashsafe/history.py:307-309 | every outcome closes the attempt that was started last, which had no outcome before |
| HistoryFacts.AttemptClosedOnce | crashsafe/history.py:212-248 | no step and attempt has two outcomes, in any accepted history |
| HistoryFacts.EventsWellPlaced | crashsafe/history.py:84-178 | every event of an accepted history belongs to the run, is in sequence, has a supported version, its own payload and the metadata its type asks for; only the first is a creation, and one that ends the run is the last |
| HistoryFacts.FailureNamesStep | crashsafe/history.py:157-172 | the event that fails a run names a failed step of the run and its error |
| HistoryFacts.AttemptRestatesDefinition | crashsafe/history.py:201-206 | an attempt event names operation, request and key of its step as the final run still has them |
| Refinement.NextSequenceExpected | crashsafe/storage.py:904-909 | the sequence number an appended event gets is the one the reducer expects next |
| Refinement.BlockedExactly | crashsafe/storage.py:689-698 | the join that looks for incomplete dependencies agrees with the reducer's subset test |
| Transitions.RecordAttemptCommits | crashsafe/storage.py:672-728 | on a running run, the attempt event is accepted and the rows written are the reduced run |
| Transitions.ScheduleRetryCommits | crashsafe/storage.py:730-782 | on a running run, the retry event is accepted and the rows written are the reduced run; the cooldown is raised as specified |
| Transitions.FailStepCommits | crashsafe/storage.py:784-826 | on a running run, both failure events are accepted and the rows are the reduced run, although the failing transaction leaves the deadline column alone |
| Transitions.CompleteStepCommits | crashsafe/storage.py:828-888 | on a running run, the completion is accepted and matches the rows; it ends the run exactly when it was the last one |
| Lifecycle.CreateRunCommits | crashsafe/storage.py:367-439 | creating a run adds one event that reduces to exactly the inserted rows and touches no other run |
| Lifecycle.CreatedRunRestates | crashsafe/storage.py:367-439 | in a new run every step has the ID, operation, dependencies and request of the submitted step at its position, the submitted tool key and its own key, and nothing has happened to it |
| Submission.RunWasSubmitted | crashsafe/storage.py:367-439 | every run of every execution was created by a submission |
| Submission.SubmissionStands | crashsafe/storage.py:373-385 | in every later state the run's steps restate the submitted definition, operations, requests, dependencies and tool key included |
| Submission.EffectOfSubmission | crashsafe/storage.py:373-385 | every effect under a key of the run has the operation and request of the submitted step that the key names |
| Submission.CompletedRunDidSubmission | crashsafe/storage.py:373-385 | when the run is completed, every submitted step has exactly one effect, of its own operation and request, and the run's record names it |
| Submission.LedgerMatchesSubmission | crashsafe/mock_tool.py:173-194 | the summary of a completed run counts, per operation, exactly the submitted steps |
| Lifecycle.RegroupRestores | crashsafe/storage.py:985-996 | flattening dependency lists to edge rows and regrouping them restores every list in order |
| Lifecycle.RebuildRestores | crashsafe/storage.py:487-517 | from arbitrary rows, rebuilding a run whose history reduces gives the reduced run, keeps events and other runs, and rebuilding twice is rebuilding once |
| Lifecycle.RebuildIsNeutral | crashsafe/storage.py:480-517 | rebuilding an intact run changes nothing that readers see |
| RawCalls.RecordAttemptMatchesExactly | crashsafe/storage.py:672-728 | a successful call leaves a history that reduces to the rows if and only if the run was running |
| RawCalls.ScheduleRetryMatchesExactly | crashsafe/storage.py:730-782 | the same equivalence for scheduling a retry |
| RawCalls.FailStepMatchesExactly | crashsafe/storage.py:784-826 | the same equivalence for failing a step |
| RawCalls.CompleteStepMatchesExactly | crashsafe/storage.py:828-888 | the same for completing, which also keeps the match when it returns silently |
| RawCalls.RecordAttemptSucceedsExactly | crashsafe/storage.py:672-698 | recording succeeds if and only if the step is known and runnable, its dependencies are completed and the caller claims no ownership or has an unexpired lease; which complaint comes first otherwise |
| RawCalls.OutcomeSucceedsExactly | crashsafe/storage.py:942-974 | an outcome is accepted if and only if the step is known, its attempt is open and the caller is allowed to; completing without an open attempt changes nothing; which complaint comes first otherwise |
| Counterexamples.LateCompletionBreaksHistory | crashsafe/storage.py:948-949 | a concrete failed run on which an unowned completion is committed and its history no longer reduces |
| Failures.OneFailureExactly | crashsafe/history.py:238-248 | an accepted history has at most one failed step, and exactly one if its run failed, if and only if no step failure follows an earlier one |
| Failures.TwoFailuresExactly | crashsafe/history.py:196-248 | a definition has an accepted history with two failed steps if and only if two of its steps do not depend on each other, however remotely |
| Failures.TwoFailuresReduce | crashsafe/history.py:157-172 | from any accepted history with two open attempts the reducer accepts that both fail before the run does |
| Failures.OpenAttemptsHaveNoDeadline | crashsafe/history.py:205-213 | in an accepted history an open attempt has no retry deadline |
| Counterexamples.TwoFailuresHappen | crashsafe/history.py:157-172 | an accepted history with two failed steps, written by unowned storage calls up to the failures |
| Lifecycle.RebuildForgetsFence | crashsafe/storage.py:493 | after a rebuild the next claim gets fence 1, whatever fence the run had reached |
| Lifecycle.RebuildRevivesLease | crashsafe/storage.py:493 | a superseded lease with fence 1 passes the lease check again after a rebuild and a claim by its owner, exactly until the new lease runs out |
| Counterexamples.SupersededLeaseRevived | crashsafe/storage.py:493 | a concrete run on which this happens |
| Ledger.ApplyKeepsLedger | crashsafe/mock_tool.py:120-151 | effects and cached results stay one-to-one, are never lost, and an effect is added exactly when the call reports one as created |
| Ledger.ApplyIdempotent | crashsafe/mock_tool.py:129-138 | repeating a request that succeeded returns the original reference and adds nothing, whatever was served in between |
| Ledger.ConflictExactly | crashsafe/mock_tool.py:132-136 | a key conflicts exactly when an effect with this key has another operation or request digest |
| Ledger.RunPatternMatches | crashsafe/mock_tool.py:176-181 | the LIKE pattern of a run matches an engine key exactly when the key belongs to the run |
| Ledger.SummaryCountsAll | crashsafe/mock_tool.py:173-194 | without a run the three counts are the numbers of effects of each operation and add up to all effects |
| Gateway.DoubledIsPower | crashsafe/engine.py:292-295 | the recursive doubling used for the backoff is the base times a power of two |
| Execution.ActionKeeps | crashsafe/engine.py:195-271 | every action keeps the protocol invariant: histories equal projections, fences grow, workers with the newest fence are undisturbed, requests are authorized, results are confirmed |
| Execution.InvariantHolds | crashsafe/engine.py:195-271 | the invariant holds in every state of every execution |
| Safety.HistoryEqualsProjection | crashsafe/storage.py:480-485 | in every state of every execution, reducing the events of any run succeeds and gives its projected run, field by field |
| Safety.StatusCoherent | crashsafe/storage.py:784-888 | completed if and only if all steps are; failed if and only if exactly one step is; running if and only if none is failed and some is incomplete |
| Safety.NothingUndone | crashsafe/storage.py:672-888 | between any two points histories are only extended, fences never fall, definitions and finished steps never change |
| Safety.TerminalAbsorbs | crashsafe/history.py:142-143 | once a run has ended, its rows and its events never change again, whatever workers and requests are still under way |
| Safety.CompletedStepsStay | crashsafe/storage.py:838-868 | a completed step keeps its whole record, output included |
| Safety.OneOwner | crashsafe/storage.py:942-962 | of all workers with a claim on a run at most one can pass the lease check, for arbitrary clock readings |
| Safety.ClaimRaisesFence | crashsafe/storage.py:545-557 | a claim's fence is above the lease row's, above that of every worker on the run and above all fences in its history |
| Safety.StaleLeaseCallsIgnored | crashsafe/storage.py:619-650 | once a fence is superseded, renewing or releasing with it changes nothing in that and in every later state |
| Safety.StaleForEver | crashsafe/storage.py:942-962 | a superseded fence never passes the lease check again |
| Safety.FencesPositive | crashsafe/storage.py:545-557 | every lease row of every execution has a fence of at least 1 |
| Safety.RebuildKeepsFenceOrderExactly | crashsafe/storage.py:493 | in every reachable state a rebuild makes the next fence 1, so fence order survives it if and only if the run had no lease row |
| Safety.AttemptFencesIncrease | crashsafe/storage.py:699-719 | the fences in a run's attempt events strictly increase in sequence order |
| Safety.ClaimThenRecordAtomic | crashsafe/storage.py:680-698 | recording a claimed step succeeds exactly when the lease check passes, on the step as it was claimed; no other error can occur |
| Safety.OutcomeBelongsToAttempt | crashsafe/engine.py:230-257 | a commit writes nothing without a live lease, and with one it closes, with the right outcome, the open attempt that this worker recorded under this fence |
| Answers.IntentIsStored | crashsafe/storage.py:699-728 | recording under a live lease appends one event with the next attempt, the step's request and the caller's owner and fence, and opens the attempt with deadline and error cleared; without a live lease it changes nothing |
| Answers.RetriedExactly | crashsafe/engine.py:280-305 | under a live lease a retryable outcome schedules another attempt if and only if fewer than max_attempts were made, after the provider's delay if there is one and otherwise min(base * 2^(n-1), cap); else it fails step and run |
| Answers.ThrottledIsRetried | crashsafe/engine.py:95-103 | status 429: the step waits for Retry-After or its own backoff and its tool cools down at least that long, for that reason, while attempts are left; then step and run fail |
| Answers.FaultIsRetried | crashsafe/engine.py:92-107 | a 5xx or no answer: the step waits for its own backoff, headers and cooldowns are left alone, while attempts are left; then step and run fail |
| Gateway.DecimalReadsBack | crashsafe/engine.py:107 | the status in a stored error text reads back as the status of the answer |
| Answers.RefusalFails | crashsafe/engine.py:104-109 | a 409 or any other 4xx fails step and run at once |
| Answers.ResultCompletes | crashsafe/engine.py:110 | any other answer completes the step with the result in its body, and the run if nothing else was missing; without a result nothing is written |
| Recovery.EffectIsRecovered | crashsafe/mock_tool.py:229-236 | from every reachable state, an undisturbed, timely and answered call for a step whose effect exists completes the step with the ID of that effect, makes no other, and touches nothing else |
| Recovery.EffectIsMade | crashsafe/mock_tool.py:238-258 | the same call for a step without effect, if it is not throttled, makes exactly one effect, of the step's operation and request, and completes the step with it |
| Effects.AtMostOneEffect | crashsafe/mock_tool.py:120-151 | no operation key ever has two effects, across crashes, retries and late or repeated delivery |
| Effects.CompletedStepHasItsEffect | crashsafe/engine.py:247-255 | every completed step has exactly one effect, with the step's operation and request, whose ID is the reference in the stored output |
| Effects.EffectsAuthorized | crashsafe/storage.py:699-719 | behind every effect there is a recorded attempt with the same operation, request and key |
| Effects.KeysNeverClash | crashsafe/mock_tool.py:132-136 | the conflict branch is unreachable for engine requests, and an insertion fails only on a reused reference |
| Dependencies.ReplayJustified | crashsafe/history.py:196-200 | in an accepted history every attempted step has its declared dependencies completed |
| Dependencies.PathDone | crashsafe/history.py:196-200 | everything an attempted step depends on, however remotely, is completed |
| Effects.EffectsDownwardClosed | crashsafe/storage.py:689-698 | if a step has an effect, every transitive dependency is completed and has exactly one |
| Effects.LedgerExactAtCompletion | crashsafe/mock_tool.py:173-194 | for a completed run the summary counts, per operation, exactly the run's steps |
| Progress.RunningHasReadyStep | crashsafe/storage.py:607-613 | a running run has a runnable step whose dependencies are completed |
| Progress.NeverStuck | crashsafe/storage.py:570-617 | in every reachable state a running run has a step that the query admits at exactly the times when its retry deadline, its tool's cooldown and the run's lease have passed |
| Scheduling.AdmittedExactly | crashsafe/storage.py:595-613 | the query admits exactly the unfinished steps of running runs whose dependencies are completed and which no deadline, cooldown or lease holds back |
| Scheduling.ClaimTakesReadyStep | crashsafe/storage.py:529-568 | a claim takes such a step, as the readers see it |
| Scheduling.ClaimServesOldest | crashsafe/storage.py:614 | no such step belongs to an older run than the claimed one, or comes before it in the same run |
| Scheduling.OvertakenOnlyWhenHeld | crashsafe/storage.py:595-614 | a claim passes over an older running run only if every ready step of it, and there is one, is held back |
| Progress.SomeRowSelected | crashsafe/storage.py:614 | whenever a row is admitted, the ordered query has a first row |
| Progress.IdleWorkerCanClaim | crashsafe/storage.py:529-568 | while a run is running, an idle worker that looks late enough gets a claim |
| Progress.StepWorkBounded | crashsafe/engine.py:280-288 | a step has at most max(1, max_attempts) committed outcomes, and its attempts are these plus the lost ones |
| Progress.RunWorkBounded | crashsafe/engine.py:273-305 | a run of n steps has at most n times max(1, max_attempts) outcomes; all further attempts were lost or are under way |
| Progress.BudgetDecreases | crashsafe/engine.py:230-257 | the number of outcomes a run may still commit is never negative, never grows, and shrinks with every commit under a live lease |
| Progress.BudgetSuffices | crashsafe/engine.py:280-288 | that number is never negative, and at least 1 while the run is running |
| Turns.TurnAdvances | crashsafe/engine.py:195-271 | from every reachable state an undisturbed call that is in time commits an outcome of the run it claimed |
| Completion.LateClaimSucceeds | crashsafe/storage.py:529-568 | when nothing is held back any more, a running run leaves something to claim |
| Completion.EventuallyAllDue | crashsafe/storage.py:570-617 | from some moment on no deadline, cooldown or lease holds anything back |
| Completion.CrashFreeCompletion | crashsafe/engine.py:195-271 | from every reachable state, as many undisturbed calls as all runs together may still commit outcomes, each in time and late enough, end every run |
| Completion.AnsweredRunsComplete | crashsafe/engine.py:195-271 | if each of these calls is answered, unthrottled, under a fresh reference, every run that had not failed is completed in the end |
| Progress.RetriesBounded | crashsafe/engine.py:280-288 | a step is retried at most max_attempts - 1 times |
| Backoff.BackoffBounded | crashsafe/engine.py:289-305 | the local delays of one step sum up to at most base * (2^(max_attempts-1) - 1) and at most (max_attempts-1) times the cap |
| Backoff.CooldownIsMaximum | crashsafe/storage.py:769-782 | a tool's stored cooldown is the latest deadline of all its committed throttling retries, over all runs |
| Backoff.CooldownNeverShrinks | crashsafe/storage.py:774-776 | a cooldown never ends earlier than it once was to end |
| Backoff.ClaimsRespectCooldowns | crashsafe/storage.py:575-603 | no claim returns a step of a tool that has a throttling deadline after the claim's time |
| Backoff.RetriesAreLogged | crashsafe/storage.py:741-753 | every retry counted above is a retry event of some history, with the same step, attempt and deadline |
| Storage.SQLiteStorage.CreateWorkflowRun | crashsafe/storage.py:367-439 | the inserting loops leave exactly the specified tables and return the run that the creation event reduces to, which is the submitted definition step by step; it fails exactly for an existing run ID, and then changes nothing |
| Storage.SQLiteStorage.GetWorkflowRun | crashsafe/storage.py:441-455 | the projected run, with dependency lists in insertion order |
| Storage.SQLiteStorage.Dependencies | crashsafe/storage.py:985-996 | the grouping loop gives every step its dependency list in insertion order |
| Storage.SQLiteStorage.CheckProjectionMatchesHistory | crashsafe/storage.py:480-485 | true exactly when the history reduces and to what readers see; which error otherwise |
| Storage.SQLiteStorage.RebuildProjection | crashsafe/storage.py:487-517 | the rebuilt tables and the reduced run, or the reducer's error and no change |
| Storage.SQLiteStorage.SelectRunnable | crashsafe/storage.py:570-617 | an admitted row, with no admitted row of an older run or, at equal age, of a lower position; none exactly when no row is admitted |
| Storage.SQLiteStorage.ClaimRunnableStep | crashsafe/storage.py:529-568 | the selected step and a lease with the next fence, which replaces the lease row and nothing else |
| Storage.SQLiteStorage.RenewLease | crashsafe/storage.py:619-638 | renews exactly an unexpired lease of this owner and fence |
| Storage.SQLiteStorage.ReleaseLease | crashsafe/storage.py:640-650 | expires exactly the lease of this owner and fence, and keeps its fence |
| Storage.SQLiteStorage.RecordAttempt | crashsafe/storage.py:672-728 | the whole new state or the first failing check and no change |
| Storage.SQLiteStorage.ScheduleRetry | crashsafe/storage.py:730-782 | the whole new state with the cooldown, or the first failing check and no change |
| Storage.SQLiteStorage.FailStep | crashsafe/storage.py:784-826 | the whole new state or the first failing check and no change |
| Storage.SQLiteStorage.CompleteStep | crashsafe/storage.py:828-888 | the whole new state, ending the run when the count of unfinished steps is zero; silence without an active attempt |
| Storage.SQLiteStorage.NextEventSequence | crashsafe/storage.py:904-909 | one more than the highest sequence number of the run |
| Storage.SQLiteStorage.RequireLease | crashsafe/storage.py:942-962 | no check without owner and fence, an error for half of them, otherwise owner, fence and expiry must match |
| ToolService.ToolStore.Find | crashsafe/mock_tool.py:153-171 | not found, conflict, or the cached result marked as deduplicated |
| ToolService.ToolStore.Apply | crashsafe/mock_tool.py:120-151 | lookup, effect and cached result as one transaction, including the constraints of the effects table |
| ToolService.ToolStore.Summarize | crashsafe/mock_tool.py:173-194 | the counts per operation of all effects, or of those whose key matches the run's pattern |
| ToolService.MockTool.DrawForcedFailure | crashsafe/mock_tool.py:240-246 | while counted failures are left they are used one by one and the one for a chosen operation is kept; after them that one is used, once |
| ToolService.MockTool.Execute | crashsafe/mock_tool.py:218-268 | a committed result is answered with status 200 before any failure is drawn; without one a drawn failure is a 429 that leaves no effect, and otherwise the new effect's result is answered; a misused key is a 409, a malformed payload a 500 |
| ToolService.ServeAnswers | crashsafe/mock_tool.py:218-268 | what is answered and kept in each of these cases, in terms of the effects in the table |
| ToolService.ServeFollowsProtocol | crashsafe/mock_tool.py:218-268 | serving a request is the protocol's lookup and, if that lets it through, its apply |
| Engine.WorkflowEngine.HandleRetryableFailure | crashsafe/engine.py:273-305 | the database after the commit of a retryable outcome, of which `Answers.RetriedExactly` says budget, delay and cooldown |
| Engine.WorkflowEngine.CallTool | crashsafe/engine.py:80-111 | one call and its outcome are protocol actions of the tool, the network and this worker |
| Engine.WorkflowEngine.RunOnce | crashsafe/engine.py:195-271 | undisturbed, a call is claim, record, send, the tool's lookup and apply, receive, commit and release in this order with nothing in between, the part from send to commit only if the intent could be recorded; there is no work exactly when nothing is claimable; from every reachable state a call that is in time shrinks its run's outcome budget |
| Runs.RunIsExecution | crashsafe/engine.py:195-271 | whatever sequences of actions reach from the empty system is reached by an execution |
| Engine.LeaseHeartbeat.Beat | crashsafe/engine.py:152-173 | every beat is a renewal of the protocol; while none fails the lease lasts until one duration after the last beat, and the first that fails ends the loop with a lease that is lost from then on |
| Progress.ClaimHoldsForTtl | crashsafe/storage.py:535-557 | a claim's holder passes the lease check exactly until the lease runs out, and until then nobody can claim on the run |
| Progress.RenewalExtends | crashsafe/storage.py:619-638 | a timely heartbeat extends the lease from its own time on; an expired lease is never revived |
| Progress.ReleaseFrees | crashsafe/storage.py:640-650 | a release frees the run at once and keeps the fence counter |
| Timeline.BuildTimeline | crashsafe/observability.py:30-99 | for every accepted history one entry per event in order; attempts equal the reduced run's attempts, retries those of its steps, the planned wait is the sum of the waits shown, durations have exactly the completed steps as keys and run from first attempt to completion |
| Timeline.StartsAreAttempts | crashsafe/observability.py:59-68 | in an accepted history the attempt events are as many as the attempts of all reduced steps |
| Timeline.StepCompletedExactly | crashsafe/observability.py:75-81 | a step has a completion event exactly when the reduced run has it completed |
| Timeline.CompletionTime | crashsafe/history.py:226-237 | a step's completion time is that of its completion event |
| TimelineFacts.EntryWait | crashsafe/observability.py:66-70 | a retry's entry shows its wait to within half a millisecond, 0 for a deadline that had passed; no other entry shows one |
| TimelineFacts.EntryOperation | crashsafe/observability.py:36-52 | an entry about a step shows the operation of that step of the reduced run |
| TimelineFacts.EntryDetail | crashsafe/observability.py:53-86 | the detail of an entry is the number of steps, the step's key, output or error as the reduced run has them, or the retry's reason |
| Timeline.MillisecondsRound | crashsafe/observability.py:204-205 | rounding is off by at most half a millisecond, halves to even, monotone and symmetric |

## Left out

- Schema creation, migrations, foreign keys and the ledger file rename (crashsafe/storage.py:108-365, crashsafe/mock_tool.py:59-118): each transaction is taken to be atomic, serialised and durable; tables are partitioned by run, and constraints that accepted definitions cannot violate are not represented. The database-wide row ID of an event is not part of this model.
- JSON, Pydantic parsing and SHA-256: payloads are datatypes, text that no payload model accepts is one `UnreadablePayload`, a request is one of three typed requests, an output is a tool result, and the digest is an arbitrary function. The limits of lengths and amounts are checked by `Graph.ValidateDefinition` alone; the theorems hold without them.
- Time: readings, deadlines and delays are whole microseconds, so float and `timedelta` rounding of delays and of the timeline's milliseconds is not modelled, nor a Retry-After header that is infinite or not a number.
- Random failures of the tool are an arbitrary 429 before any effect; another answer without a result (status 200 to 599 except 409 and 429) may be sent at any time. Fresh identifiers (run IDs, references) are parameters; a run ID is 36 lower-case hexadecimal digits and dashes.
- HTTP serving, API routes, supervision, polling, signals, pid files, settings, debug pauses, crash injection, logging, listing calls, `next_runnable_step`, `get_lease` and `get_tool_throttle`: plumbing or plain reads.
- `rebuild_projection` is not an action of the protocol. It deletes the lease row (crashsafe/storage.py:493) and with it the fence counter, so it is modelled as an offline operation; `Safety.RebuildKeepsFenceOrderExactly` says when that harms.
- Error messages other than the texts that are stored in events, and the rendering of timelines; a timeline entry's detail is the data its text is made from.
- Storage.SQLiteStorage.SelectRunnable: one SQL query, modelled as a scan with the query's order; among rows of equal rank any may be returned, as SQLite leaves open.
- Engine.WorkflowEngine.RunOnce: a sequential call without interference, with the mock tool behind the gateway; heartbeats and other workers are actions of `Protocol`. The mock tool never sends a success whose body does not parse; in `Protocol` such answers do occur, and the worker that reads one aborts.
- Engine.LeaseHeartbeat.Beat: a renewal that raises an exception is skipped by the source's loop; only the renewals that reach the database are beats here, at arbitrary times instead of a fixed interval.
- Gateway.DoubledIsPower: for attempts numbered from 1, as they are in every reachable state; Python's fractional powers for other numbers are not modelled.
