/** The engine database as a mutable object (storage.py): each public method is one transaction, and leaves the tables
    in the state that the specification in `Database` gives. */
module Storage {
  import opened Models
  import opened Graph
  import opened History
  import opened Database
  import opened Refinement
  import opened Lifecycle

  datatype ReadError = RunNotFound | Corrupt(error: HistoryError)

  /** How many of the run's steps are not completed. */
  function Unfinished(rows: seq<StepRow>): nat {
    if rows == [] then 0
    else Unfinished(rows[..|rows| - 1]) + if rows[|rows| - 1].status.Completed? then 0 else 1
  }

  lemma {:induction false} NothingUnfinished(rows: seq<StepRow>)
    ensures Unfinished(rows) == 0 <==> AllRowsCompleted(rows)
  {
    if rows != [] {
      NothingUnfinished(rows[..|rows| - 1]);
    }
  }

  lemma RebuiltRun(db: Db, db': Db, runId: string)
    requires Database.RebuildProjection(db, runId) == Ok(db')
    ensures runId in db'.runs && Projection(db', runId) == Reduce(RowsOf(db.events, runId)).value
  {
    RebuildRestores(db, runId);
  }

  /** What the specification of `RecordAttempt` comes to once every check has passed. */
  lemma AttemptRecorded(db: Db, runId: string, stepId: string, i: nat, ownerId: Option<string>,
                        fenceToken: Option<int>, leaseNow: Time, now: Time)
    requires RowIndex(RowsOf(db.steps, runId), stepId) == Some(i) && RunnableStatus(db.steps[runId][i].status)
    requires LeaseError(db, runId, ownerId, fenceToken, leaseNow).None?
    requires !Blocked(RowsOf(db.steps, runId), RowsOf(db.dependencies, runId), stepId)
    ensures var row := db.steps[runId][i];
            var row1 := row.(status := IntentRecorded, attempts := row.attempts + 1, nextAttemptAt := None,
                             lastError := None, updatedAt := now);
            var version := if ownerId.Some? then ATTEMPT_EVENT_SCHEMA_VERSION else EVENT_SCHEMA_VERSION;
            var db1 := AppendEvent(db, runId, StepAttemptStarted,
                                   StartedPayload(row.operation, row.request, row.operationKey, ownerId, fenceToken),
                                   now, Some(stepId), Some(row.attempts + 1), version);
            Database.RecordAttempt(db, runId, stepId, ownerId, fenceToken, leaseNow, now) ==
            Ok((SetStep(db1, runId, i, row1), StepFromRow(row1, Regroup(RowsOf(db.dependencies, runId), stepId))))
  {
  }

  class SQLiteStorage {
    const defaultToolKey: string
    var runs: map<string, RunRow>
    var steps: map<string, seq<StepRow>>
    var dependencies: map<string, seq<DependencyRow>>
    var events: map<string, seq<Event>>
    var leases: map<string, Lease>
    var throttles: map<string, Throttle>

    ghost function Contents(): Db
      reads this
    {
      Db(runs, steps, dependencies, events, leases, throttles)
    }

    constructor (defaultToolKey: string)
      ensures Contents() == Db(map[], map[], map[], map[], map[], map[])
      ensures this.defaultToolKey == defaultToolKey
    {
      this.defaultToolKey := defaultToolKey;
      runs, steps, dependencies, events, leases, throttles := map[], map[], map[], map[], map[], map[];
    }

    // ----- queries -----

    method GetStepRow(runId: string, stepId: string) returns (index: Option<nat>)
      ensures index == RowIndex(RowsOf(steps, runId), stepId)
    {
      var rows := RowsOf(steps, runId);
      var i := 0;
      while i < |rows|
        invariant 0 <= i <= |rows|
        invariant forall j :: 0 <= j < i ==> rows[j].id != stepId
      {
        if rows[i].id == stepId {
          return Some(i);
        }
        i := i + 1;
      }
      index := None;
    }

    /** The edge rows of one run as lists per step, in insertion order. */
    method Dependencies(runId: string) returns (values: map<string, seq<string>>)
      ensures forall id :: Regroup(RowsOf(dependencies, runId), id) == if id in values then values[id] else []
    {
      var rows := RowsOf(dependencies, runId);
      values := map[];
      var i := 0;
      while i < |rows|
        invariant 0 <= i <= |rows|
        invariant forall id :: Regroup(rows[..i], id) == if id in values then values[id] else []
      {
        var edge := rows[i];
        assert rows[..i + 1][..i] == rows[..i];
        if edge.stepId !in values {
          values := values[edge.stepId := []];
        }
        values := values[edge.stepId := values[edge.stepId] + [edge.dependencyId]];
        i := i + 1;
      }
      assert rows[..|rows|] == rows;
    }

    method HasIncompleteDependency(runId: string, stepId: string) returns (blocked: bool)
      ensures blocked <==> Blocked(RowsOf(steps, runId), RowsOf(dependencies, runId), stepId)
    {
      var rows, edges := RowsOf(steps, runId), RowsOf(dependencies, runId);
      var e := 0;
      while e < |edges|
        invariant 0 <= e <= |edges|
        invariant forall d, r ::
                    0 <= d < e && 0 <= r < |rows| && edges[d].stepId == stepId && rows[r].id == edges[d].dependencyId
                    ==> rows[r].status.Completed?
      {
        if edges[e].stepId == stepId {
          var r := 0;
          while r < |rows|
            invariant 0 <= r <= |rows|
            invariant forall q :: 0 <= q < r && rows[q].id == edges[e].dependencyId ==> rows[q].status.Completed?
          {
            if rows[r].id == edges[e].dependencyId && !rows[r].status.Completed? {
              return true;
            }
            r := r + 1;
          }
        }
        e := e + 1;
      }
      blocked := false;
    }

    method NextEventSequence(runId: string) returns (sequence: int)
      ensures sequence == NextSequence(RowsOf(events, runId))
    {
      var rows := RowsOf(events, runId);
      if rows == [] {
        return 1;
      }
      var highest, i := rows[0].sequence, 1;
      assert rows[..1][0] == rows[0];
      while i < |rows|
        invariant 1 <= i <= |rows|
        invariant highest == MaxSequence(rows[..i])
      {
        assert rows[..i + 1][..i] == rows[..i] && rows[..i + 1][i] == rows[i];
        if rows[i].sequence > highest {
          highest := rows[i].sequence;
        }
        i := i + 1;
      }
      assert rows[..|rows|] == rows;
      sequence := highest + 1;
    }

    method StepsFromRows(rows: seq<StepRow>, grouped: map<string, seq<string>>, ghost edges: seq<DependencyRow>)
      returns (records: seq<StepRecord>)
      requires forall id :: Regroup(edges, id) == if id in grouped then grouped[id] else []
      ensures |records| == |rows| && forall j :: 0 <= j < |rows| ==>
                records[j] == StepFromRow(rows[j], Regroup(edges, rows[j].id))
    {
      records := [];
      var i := 0;
      while i < |rows|
        invariant 0 <= i <= |rows| && |records| == i
        invariant forall j :: 0 <= j < i ==> records[j] == StepFromRow(rows[j], Regroup(edges, rows[j].id))
      {
        var dependsOn := if rows[i].id in grouped then grouped[rows[i].id] else [];
        records := records + [StepFromRow(rows[i], dependsOn)];
        i := i + 1;
      }
    }

    method GetWorkflowRun(runId: string) returns (result: Result<WorkflowRun, ReadError>)
      ensures result == if runId in runs then Ok(Projection(Contents(), runId)) else Err(RunNotFound)
    {
      if runId !in runs {
        return Err(RunNotFound);
      }
      var grouped := Dependencies(runId);
      var records := StepsFromRows(RowsOf(steps, runId), grouped, RowsOf(dependencies, runId));
      var run := runs[runId];
      assert records == Projection(Contents(), runId).steps;
      result := Ok(WorkflowRun(run.runId, run.name, run.status, records,
                               run.createdAt, run.updatedAt, run.completedAt));
    }

    /** True exactly when the history reduces, and to what readers see. */
    method CheckProjectionMatchesHistory(runId: string) returns (result: Result<bool, ReadError>)
      ensures result == Ok(true) <==> ProjectionMatchesHistory(Contents(), runId)
      ensures result == Err(RunNotFound) <==> runId !in runs || RowsOf(events, runId) == []
      ensures result.Err? && result.error.Corrupt? ==> Reduce(RowsOf(events, runId)) == Err(result.error.error)
    {
      var run := GetWorkflowRun(runId);
      if run.Err? {
        return Err(run.error);
      }
      var history := RowsOf(events, runId);
      if history == [] {
        return Err(RunNotFound);
      }
      var reduced := ReduceWorkflowRunHistory(history);
      if reduced.Err? {
        return Err(Corrupt(reduced.error));
      }
      result := Ok(run.value == reduced.value);
    }

    // ----- claiming -----

    method CheckSelectable(now: Time, runId: string, i: nat) returns (selectable: bool)
      requires runId in runs && i < |RowsOf(steps, runId)|
      ensures selectable <==> Selectable(Contents(), now, runId, i)
    {
      var row := steps[runId][i];
      if runs[runId].status != Running || row.status !in {Pending, IntentRecorded, RetryWait} {
        return false;
      }
      if row.nextAttemptAt.Some? && row.nextAttemptAt.value > now {
        return false;
      }
      if row.toolKey in throttles && throttles[row.toolKey].blockedUntil > now {
        return false;
      }
      if runId in leases && leases[runId].expiresAt > now {
        return false;
      }
      var blocked := HasIncompleteDependency(runId, row.id);
      selectable := !blocked;
    }

    ghost predicate BestOf(now: Time, pick: Option<(string, nat)>, seen: set<string>)
      reads this
    {
      match pick
      case None => forall r: string, j: nat :: r in seen ==> !Selectable(Contents(), now, r, j)
      case Some(best) =>
        Selectable(Contents(), now, best.0, best.1)
        && forall r: string, j: nat :: r in seen && Selectable(Contents(), now, r, j) ==>
             NoLater(Contents(), best.0, best.1, r, j)
    }

    /** The better of the best row so far and the best row of one more run. */
    method ScanRun(now: Time, runId: string, seen: set<string>,
                   best: Option<(string, nat)>) returns (pick: Option<(string, nat)>)
      requires runId in runs && BestOf(now, best, seen)
      ensures BestOf(now, pick, seen + {runId})
    {
      pick := best;
      var i := 0;
      while i < |RowsOf(steps, runId)|
        invariant 0 <= i <= |RowsOf(steps, runId)|
        invariant BestOf(now, pick, seen)
        invariant pick.Some? ==> forall j: nat :: j < i && Selectable(Contents(), now, runId, j) ==>
                    NoLater(Contents(), pick.value.0, pick.value.1, runId, j)
        invariant pick.None? ==> forall j: nat :: j < i ==> !Selectable(Contents(), now, runId, j)
      {
        var selectable := CheckSelectable(now, runId, i);
        if selectable {
          if pick.None? || Precedes(runId, i, pick.value.0, pick.value.1) {
            pick := Some((runId, i));
          }
        }
        i := i + 1;
      }
    }

    /** The order of the query: older runs first, then lower positions. */
    predicate Precedes(run1: string, i1: nat, run2: string, i2: nat)
      requires run1 in runs && i1 < |RowsOf(steps, run1)|
      requires run2 in runs && i2 < |RowsOf(steps, run2)|
      reads this
    {
      runs[run1].createdAt < runs[run2].createdAt
      || (runs[run1].createdAt == runs[run2].createdAt && steps[run1][i1].position < steps[run2][i2].position)
    }

    method SelectRunnable(now: Time) returns (pick: Option<(string, nat)>)
      ensures pick.None? ==> forall r: string, j: nat :: !Selectable(Contents(), now, r, j)
      ensures pick.Some? ==> Selected(Contents(), now, pick.value.0, pick.value.1)
      ensures pick.Some? ==>
                forall r: string, j: nat :: Selectable(Contents(), now, r, j) ==>
                  runs[pick.value.0].createdAt <= runs[r].createdAt
                  && (runs[pick.value.0].createdAt == runs[r].createdAt ==>
                        steps[pick.value.0][pick.value.1].position <= steps[r][j].position)
    {
      var remaining := runs.Keys;
      pick := None;
      while remaining != {}
        invariant remaining <= runs.Keys
        invariant BestOf(now, pick, runs.Keys - remaining)
      {
        var runId :| runId in remaining;
        pick := ScanRun(now, runId, runs.Keys - remaining, pick);
        assert runs.Keys - (remaining - {runId}) == (runs.Keys - remaining) + {runId};
        remaining := remaining - {runId};
      }
      assert runs.Keys - remaining == runs.Keys;
    }

    /** Selection and lease replacement in one transaction; the fence is one above that of the previous lease. */
    method ClaimRunnableStep(ownerId: string, ttl: Time, now: Time) returns (claim: Option<ClaimedStep>,
          pick: Option<(string, nat)>)
      modifies this`leases
      ensures claim.Some? <==> pick.Some?
      ensures pick.None? ==>
                Contents() == old(Contents()) && forall r: string, j: nat :: !Selectable(Contents(), now, r, j)
      ensures pick.Some? ==>
                Selected(old(Contents()), now, pick.value.0, pick.value.1)
                && Contents() == ClaimStep(old(Contents()), pick.value.0, ownerId, ttl, now)
                && claim.value == ClaimedStep(Projection(old(Contents()), pick.value.0).steps[pick.value.1],
                                              ClaimLease(old(Contents()), pick.value.0, ownerId, ttl, now))
    {
      pick := SelectRunnable(now);
      if pick.None? {
        return None, None;
      }
      var (runId, i) := pick.value;
      var fence := if runId in leases then leases[runId].fenceToken + 1 else 1;
      var lease := Lease(runId, ownerId, fence, now + ttl, now);
      var grouped := Dependencies(runId);
      var row := steps[runId][i];
      var dependsOn := if row.id in grouped then grouped[row.id] else [];
      leases := leases[runId := lease];
      claim := Some(ClaimedStep(StepFromRow(row, dependsOn), lease));
    }

    method RenewLease(runId: string, ownerId: string, fenceToken: int, ttl: Time, now: Time) returns (renewed: bool)
      modifies this`leases
      ensures renewed <==> Owns(old(Contents()), runId, ownerId, fenceToken) && old(leases)[runId].expiresAt > now
      ensures Contents() == Database.RenewLease(old(Contents()), runId, ownerId, fenceToken, ttl, now)
    {
      if runId !in leases {
        return false;
      }
      var lease := leases[runId];
      if lease.ownerId != ownerId || lease.fenceToken != fenceToken || lease.expiresAt <= now {
        return false;
      }
      leases := leases[runId := lease.(expiresAt := now + ttl, updatedAt := now)];
      renewed := true;
    }

    method ReleaseLease(runId: string, ownerId: string, fenceToken: int, now: Time) returns (released: bool)
      modifies this`leases
      ensures released <==> Owns(old(Contents()), runId, ownerId, fenceToken)
      ensures Contents() == Database.ReleaseLease(old(Contents()), runId, ownerId, fenceToken, now)
    {
      if runId !in leases || leases[runId].ownerId != ownerId || leases[runId].fenceToken != fenceToken {
        return false;
      }
      leases := leases[runId := leases[runId].(expiresAt := now, updatedAt := now)];
      released := true;
    }

    // ----- writing -----

    method RequireLease(runId: string, ownerId: Option<string>, fenceToken: Option<int>,
                        now: Time) returns (error: Option<StorageError>)
      ensures error == LeaseError(Contents(), runId, ownerId, fenceToken, now)
      ensures ownerId.None? && fenceToken.None? ==> error.None?
      ensures ownerId.None? != fenceToken.None? ==> error == Some(OwnershipIncomplete)
      ensures ownerId.Some? && fenceToken.Some? ==>
                error == if runId in leases && leases[runId].ownerId == ownerId.value
                            && leases[runId].fenceToken == fenceToken.value && leases[runId].expiresAt > now
                         then None else Some(LeaseLost)
    {
      if ownerId.None? && fenceToken.None? {
        return None;
      }
      if ownerId.None? || fenceToken.None? {
        return Some(OwnershipIncomplete);
      }
      if runId !in leases || leases[runId].ownerId != ownerId.value || leases[runId].fenceToken != fenceToken.value
         || leases[runId].expiresAt <= now {
        return Some(LeaseLost);
      }
      error := None;
    }

    method RequireActiveAttempt(runId: string, stepId: string, ownerId: Option<string>, fenceToken: Option<int>,
                                now: Time)
      returns (result: Result<nat, StorageError>)
      ensures result == ActiveAttempt(Contents(), runId, stepId, ownerId, fenceToken, now)
    {
      var index := GetStepRow(runId, stepId);
      if index.None? {
        return Err(StepMissing);
      }
      var lost := RequireLease(runId, ownerId, fenceToken, now);
      if lost.Some? {
        return Err(lost.value);
      }
      if steps[runId][index.value].status != IntentRecorded {
        return Err(NoActiveAttempt);
      }
      result := Ok(index.value);
    }

    method AppendEvent(runId: string, eventType: EventType, payload: Payload, now: Time,
                       stepId: Option<string>, attempt: Option<int>, schemaVersion: int)
      modifies this`events
      ensures Contents() == Database.AppendEvent(old(Contents()), runId, eventType, payload, now, stepId, attempt,
                                                 schemaVersion)
    {
      var sequence := NextEventSequence(runId);
      var event := Event(runId, sequence, eventType, schemaVersion, stepId, attempt, payload, now);
      events := events[runId := RowsOf(events, runId) + [event]];
    }

    method RecordAttempt(runId: string, stepId: string, ownerId: Option<string>, fenceToken: Option<int>,
                         leaseNow: Time, now: Time)
      returns (result: Result<StepRecord, StorageError>)
      modifies this`events, this`steps
      ensures match Database.RecordAttempt(old(Contents()), runId, stepId, ownerId, fenceToken, leaseNow, now)
              case Ok((db, step)) => Contents() == db && result == Ok(step)
              case Err(error) => Contents() == old(Contents()) && result == Err(error)
    {
      var index := GetStepRow(runId, stepId);
      if index.None? {
        return Err(StepMissing);
      }
      var row := steps[runId][index.value];
      var lost := RequireLease(runId, ownerId, fenceToken, leaseNow);
      if lost.Some? {
        return Err(lost.value);
      }
      if row.status !in {Pending, IntentRecorded, RetryWait} {
        return Err(StepNotRunnable);
      }
      var blocked := HasIncompleteDependency(runId, stepId);
      if blocked {
        return Err(DependenciesBlocked);
      }
      AttemptRecorded(Contents(), runId, stepId, index.value, ownerId, fenceToken, leaseNow, now);
      var attempt := row.attempts + 1;
      AppendEvent(runId, StepAttemptStarted,
                  StartedPayload(row.operation, row.request, row.operationKey, ownerId, fenceToken), now,
                  Some(stepId), Some(attempt),
                  if ownerId.Some? then ATTEMPT_EVENT_SCHEMA_VERSION else EVENT_SCHEMA_VERSION);
      row := row.(status := IntentRecorded, attempts := attempt, nextAttemptAt := None, lastError := None,
                  updatedAt := now);
      steps := steps[runId := steps[runId][index.value := row]];
      var grouped := Dependencies(runId);
      result := Ok(StepFromRow(row, if stepId in grouped then grouped[stepId] else []));
    }

    method ScheduleRetry(runId: string, stepId: string, error: string, nextAttemptAt: Time,
                         ownerId: Option<string>, fenceToken: Option<int>, throttleTool: bool,
                         leaseNow: Time, now: Time)
      returns (failure: Option<StorageError>)
      modifies this`events, this`steps, this`throttles
      ensures match Database.ScheduleRetry(old(Contents()), runId, stepId, error, nextAttemptAt, ownerId, fenceToken,
                                           throttleTool, leaseNow, now)
              case Ok(db) => Contents() == db && failure == None
              case Err(e) => Contents() == old(Contents()) && failure == Some(e)
    {
      var active := RequireActiveAttempt(runId, stepId, ownerId, fenceToken, leaseNow);
      if active.Err? {
        return Some(active.error);
      }
      var row := steps[runId][active.value];
      AppendEvent(runId, StepRetryScheduled, RetryPayload(error, nextAttemptAt), now, Some(stepId), Some(row.attempts),
                  EVENT_SCHEMA_VERSION);
      row := row.(status := RetryWait, lastError := Some(error), nextAttemptAt := Some(nextAttemptAt),
                  updatedAt := now);
      steps := steps[runId := steps[runId][active.value := row]];
      if throttleTool {
        RaiseCooldown(row.toolKey, nextAttemptAt, error, now);
      }
      failure := None;
    }

    /** The upsert of the throttle row. */
    method RaiseCooldown(toolKey: string, deadline: Time, reason: string, now: Time)
      modifies this`throttles
      ensures throttles == Cooldowns(old(throttles), true, toolKey, deadline, reason, now)
    {
      if toolKey !in throttles {
        throttles := throttles[toolKey := Throttle(toolKey, deadline, reason, now)];
        return;
      }
      var blockedUntil, kept := throttles[toolKey].blockedUntil, throttles[toolKey].reason;
      if deadline >= blockedUntil {
        blockedUntil, kept := deadline, reason;
      }
      throttles := throttles[toolKey := Throttle(toolKey, blockedUntil, kept, now)];
    }

    method FailStep(runId: string, stepId: string, error: string, ownerId: Option<string>, fenceToken: Option<int>,
                    leaseNow: Time, now: Time)
      returns (failure: Option<StorageError>)
      modifies this`events, this`steps, this`runs
      ensures match Database.FailStep(old(Contents()), runId, stepId, error, ownerId, fenceToken, leaseNow, now)
              case Ok(db) => Contents() == db && failure == None
              case Err(e) => Contents() == old(Contents()) && failure == Some(e)
    {
      var active := RequireActiveAttempt(runId, stepId, ownerId, fenceToken, leaseNow);
      if active.Err? {
        return Some(active.error);
      }
      var row := steps[runId][active.value];
      AppendEvent(runId, StepFailed, FailedPayload(error), now, Some(stepId), Some(row.attempts), EVENT_SCHEMA_VERSION);
      AppendEvent(runId, WorkflowRunFailed, RunFailedPayload(stepId, error), now, Some(stepId), None,
                  EVENT_SCHEMA_VERSION);
      row := row.(status := Failed, lastError := Some(error), updatedAt := now);
      steps := steps[runId := steps[runId][active.value := row]];
      if runId in runs {
        runs := runs[runId := runs[runId].(status := RunFailed, updatedAt := now)];
      }
      failure := None;
    }

    method CountUnfinished(runId: string) returns (remaining: nat)
      ensures remaining == Unfinished(RowsOf(steps, runId))
    {
      var rows := RowsOf(steps, runId);
      remaining := 0;
      var i := 0;
      while i < |rows|
        invariant 0 <= i <= |rows|
        invariant remaining == Unfinished(rows[..i])
      {
        assert rows[..i + 1][..i] == rows[..i];
        if rows[i].status != Completed {
          remaining := remaining + 1;
        }
        i := i + 1;
      }
      assert rows[..|rows|] == rows;
    }

    method CompleteStep(runId: string, stepId: string, output: ToolResult, ownerId: Option<string>,
                        fenceToken: Option<int>, leaseNow: Time, now: Time) returns (failure: Option<StorageError>)
      modifies this`events, this`steps, this`runs
      ensures match Database.CompleteStep(old(Contents()), runId, stepId, output, ownerId, fenceToken, leaseNow, now)
              case Ok(db) => Contents() == db && failure == None
              case Err(e) => Contents() == old(Contents()) && failure == Some(e)
    {
      var active := RequireActiveAttempt(runId, stepId, ownerId, fenceToken, leaseNow);
      if active.Err? {
        return if active.error == NoActiveAttempt then None else Some(active.error);
      }
      var row := steps[runId][active.value];
      AppendEvent(runId, StepCompleted, CompletedPayload(output), now, Some(stepId), Some(row.attempts),
                  EVENT_SCHEMA_VERSION);
      row := row.(status := Completed, output := Some(output), nextAttemptAt := None, lastError := None,
                  completedAt := Some(now), updatedAt := now);
      steps := steps[runId := steps[runId][active.value := row]];
      assert Contents() == FinishStep(old(Contents()), runId, active.value, output, now);
      var remaining := CountUnfinished(runId);
      NothingUnfinished(steps[runId]);
      if remaining == 0 {
        AppendEvent(runId, WorkflowRunCompleted, RunCompletedPayload, now, None, None, EVENT_SCHEMA_VERSION);
        if runId in runs {
          runs := runs[runId := runs[runId].(status := RunCompleted, completedAt := Some(now), updatedAt := now)];
        }
      }
      failure := None;
    }

    // ----- creating and rebuilding -----

    /** The edge rows of a run, inserted step by step. */
    method InsertEdges(runId: string, nodes: seq<Node>)
      modifies this`dependencies
      ensures dependencies == old(dependencies)[runId := NodeEdges(nodes)]
    {
      dependencies := dependencies[runId := []];
      assert nodes[..0] == [];
      var i := 0;
      while i < |nodes|
        invariant 0 <= i <= |nodes|
        invariant dependencies == old(dependencies)[runId := NodeEdges(nodes[..i])]
      {
        var before := dependencies[runId];
        assert before + Edges(nodes[i].id, nodes[i].dependsOn[..0]) == before;
        var j := 0;
        while j < |nodes[i].dependsOn|
          invariant 0 <= j <= |nodes[i].dependsOn|
          invariant dependencies == old(dependencies)[runId := before + Edges(nodes[i].id, nodes[i].dependsOn[..j])]
        {
          var edge := DependencyRow(nodes[i].id, nodes[i].dependsOn[j]);
          assert Edges(nodes[i].id, nodes[i].dependsOn[..j + 1]) ==
                 Edges(nodes[i].id, nodes[i].dependsOn[..j]) + [edge];
          assert before + Edges(nodes[i].id, nodes[i].dependsOn[..j + 1]) ==
                 before + Edges(nodes[i].id, nodes[i].dependsOn[..j]) + [edge];
          dependencies := dependencies[runId := dependencies[runId] + [edge]];
          j := j + 1;
        }
        assert nodes[i].dependsOn[..j] == nodes[i].dependsOn;
        assert nodes[..i + 1][..i] == nodes[..i] && nodes[..i + 1][i] == nodes[i];
        i := i + 1;
      }
      assert nodes[..|nodes|] == nodes;
    }

    method InsertSteps(runId: string, definitions: seq<StepDefinition>, now: Time)
      modifies this`steps
      ensures steps == old(steps)[runId := NewRows(runId, definitions, now)]
    {
      steps := steps[runId := []];
      var i := 0;
      while i < |definitions|
        invariant 0 <= i <= |definitions| && runId in steps
        invariant steps == old(steps)[runId := steps[runId]] && |steps[runId]| == i
        invariant forall j :: 0 <= j < i ==> steps[runId][j] == NewRow(runId, definitions[j], now)
      {
        steps := steps[runId := steps[runId] + [NewRow(runId, definitions[i], now)]];
        i := i + 1;
      }
      assert steps[runId] == NewRows(runId, definitions, now);
    }

    /** `runId` is the freshly drawn identifier; an empty tool key counts as none. */
    method CreateWorkflowRun(definition: WorkflowDefinition, toolKey: Option<string>, runId: string, now: Time)
      returns (result: Result<WorkflowRun, StorageError>)
      requires AcceptedDefinition(definition)
      modifies this
      ensures var selected := if toolKey.Some? && toolKey.value != "" then toolKey.value else defaultToolKey;
              match CreateRun(old(Contents()), runId, definition, selected, now)
              case Ok(db) => Contents() == db
                          && result == Ok(InitialRun(runId, definition.name,
                                                     StepDefinitions(runId, definition, selected), now))
              case Err(error) => Contents() == old(Contents()) && result == Err(error)
      ensures result.Err? <==> runId in old(runs)
      ensures var selected := if toolKey.Some? && toolKey.value != "" then toolKey.value else defaultToolKey;
              result.Ok? ==> Materializes(result.value, runId, definition, selected, now) && Untouched(result.value)
    {
      if runId in runs {
        return Err(RunExists);
      }
      var selected := if toolKey.Some? && toolKey.value != "" then toolKey.value else defaultToolKey;
      var definitions := StepDefinitions(runId, definition, selected);
      var created := CreatedPayload(definition.name, definitions);
      runs := runs[runId := RunRow(runId, definition.name, Running, created, now, now, None)];
      InsertSteps(runId, definitions, now);
      InsertEdges(runId, DefinitionNodes(definitions));
      assert Contents() == InsertRun(old(Contents()), runId, definition.name, definitions, now);
      AppendEvent(runId, WorkflowRunCreated, created, now, None, None, WORKFLOW_RUN_CREATED_SCHEMA_VERSION);
      CreatedProjection(old(Contents()), runId, definition, selected, now);
      InitialRunRestates(runId, definition, selected, now);
      var stored := GetWorkflowRun(runId);
      result := Ok(stored.value);
    }

    /** Projection rows and the lease row of one run are replaced; its events stay. */
    method RebuildProjection(runId: string) returns (result: Result<WorkflowRun, ReadError>)
      modifies this`runs, this`steps, this`dependencies, this`leases
      ensures RowsOf(events, runId) == [] ==> Contents() == old(Contents()) && result == Err(RunNotFound)
      ensures RowsOf(events, runId) != [] ==>
                match Database.RebuildProjection(old(Contents()), runId)
                case Ok(db) => Contents() == db && result == Ok(Reduce(RowsOf(events, runId)).value)
                case Err(error) => Contents() == old(Contents()) && result == Err(Corrupt(error))
    {
      var history := RowsOf(events, runId);
      if history == [] {
        return Err(RunNotFound);
      }
      var reduced := ReduceWorkflowRunHistory(history);
      if reduced.Err? {
        return Err(Corrupt(reduced.error));
      }
      var run := reduced.value;
      leases := leases - {runId};
      runs := runs[runId := RunRow(run.runId, run.name, run.status, history[0].payload,
                                    run.createdAt, run.updatedAt, run.completedAt)];
      InsertRebuiltSteps(runId, run.steps);
      InsertEdges(runId, RunNodes(run));
      RebuiltRun(old(Contents()), Contents(), runId);
      var stored := GetWorkflowRun(runId);
      result := Ok(stored.value);
    }

    method InsertRebuiltSteps(runId: string, records: seq<StepRecord>)
      modifies this`steps
      ensures steps == old(steps)[runId := RowsFromSteps(records)]
    {
      steps := steps[runId := []];
      var i := 0;
      while i < |records|
        invariant 0 <= i <= |records| && runId in steps
        invariant steps == old(steps)[runId := steps[runId]] && |steps[runId]| == i
        invariant forall j :: 0 <= j < i ==> steps[runId][j] == RowFromStep(records[j])
      {
        steps := steps[runId := steps[runId] + [RowFromStep(records[i])]];
        i := i + 1;
      }
      assert steps[runId] == RowsFromSteps(records);
    }
  }
}
