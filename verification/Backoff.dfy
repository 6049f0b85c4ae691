/** Delays over whole executions: how long one step can be held back, and what the shared cooldown of a tool is. */
module Backoff {
  import opened Models
  import opened HistoryFacts
  import opened Database
  import opened Refinement
  import opened Gateway
  import opened Protocol
  import opened Invariant
  import opened Execution
  import opened Progress

  // ----- the sum of local delays -----

  predicate LocalRetryOf(entry: RetryEntry, runId: string, stepId: string) {
    entry.local && entry.runId == runId && entry.stepId == stepId
  }

  /** The sum of the locally computed delays of one step, over its attempts 1..n. */
  function DelaySum(retries: seq<RetryEntry>, runId: string, stepId: string, n: int): int {
    if retries == [] then 0
    else
      var last := retries[|retries| - 1];
      DelaySum(retries[..|retries| - 1], runId, stepId, n)
      + if LocalRetryOf(last, runId, stepId) && last.attempt <= n then last.delay else 0
  }

  /** One local delay for each of the attempts 1..n. */
  function Schedule(settings: Settings, n: nat): int {
    if n == 0 then 0 else Schedule(settings, n - 1) + LocalDelay(settings, n)
  }

  lemma {:induction false} DoubledNonNegative(base: int, n: nat)
    requires base >= 0
    ensures Doubled(base, n) >= 0
  {
    if n > 0 {
      DoubledNonNegative(base, n - 1);
    }
  }

  /** Doubling from `base` for n attempts adds up to base * (2^n - 1), and no delay exceeds the cap. */
  lemma {:induction false} ScheduleBound(settings: Settings, n: nat)
    requires settings.baseBackoff >= 0 && settings.maxBackoff >= 0
    ensures Schedule(settings, n) <= Doubled(settings.baseBackoff, n) - settings.baseBackoff
    ensures Schedule(settings, n) <= n * settings.maxBackoff
  {
    if n > 0 {
      ScheduleBound(settings, n - 1);
      assert n * settings.maxBackoff == (n - 1) * settings.maxBackoff + settings.maxBackoff;
    }
  }

  /** The local retries of a step are at different attempts, all at least 1. */
  ghost predicate AttemptsDistinct(retries: seq<RetryEntry>, runId: string, stepId: string) {
    forall d, e :: 0 <= d < e < |retries| && LocalRetryOf(retries[d], runId, stepId)
                   && LocalRetryOf(retries[e], runId, stepId) ==>
      retries[d].attempt != retries[e].attempt
  }

  ghost predicate DelaysSound(settings: Settings, retries: seq<RetryEntry>) {
    forall e :: 0 <= e < |retries| ==> EntrySound(settings, retries[e])
  }

  lemma {:induction false} NoDelays(retries: seq<RetryEntry>, runId: string, stepId: string, n: int)
    requires forall e :: 0 <= e < |retries| && LocalRetryOf(retries[e], runId, stepId) ==> retries[e].attempt > n
    ensures DelaySum(retries, runId, stepId, n) == 0
  {
    if retries != [] {
      NoDelays(retries[..|retries| - 1], runId, stepId, n);
    }
  }

  lemma {:induction false} SameDelays(retries: seq<RetryEntry>, runId: string, stepId: string, n: int)
    requires forall e :: 0 <= e < |retries| && LocalRetryOf(retries[e], runId, stepId) ==> retries[e].attempt != n
    ensures DelaySum(retries, runId, stepId, n) == DelaySum(retries, runId, stepId, n - 1)
  {
    if retries != [] {
      SameDelays(retries[..|retries| - 1], runId, stepId, n);
    }
  }

  /** Allowing attempt n adds at most the one delay that this attempt may have caused. */
  lemma {:induction false} OneMoreAttempt(settings: Settings, retries: seq<RetryEntry>, runId: string, stepId: string,
                                          n: int)
    requires AttemptsDistinct(retries, runId, stepId) && DelaysSound(settings, retries) && LocalDelay(settings, n) >= 0
    ensures DelaySum(retries, runId, stepId, n) <= DelaySum(retries, runId, stepId, n - 1) + LocalDelay(settings, n)
  {
    if retries != [] {
      var m := |retries| - 1;
      var init := retries[..m];
      assert forall e :: 0 <= e < m ==> init[e] == retries[e];
      assert EntrySound(settings, retries[m]);
      if LocalRetryOf(retries[m], runId, stepId) && retries[m].attempt == n {
        SameDelays(init, runId, stepId, n);
      } else {
        OneMoreAttempt(settings, init, runId, stepId, n);
      }
    }
  }

  lemma {:induction false} DelaysWithinSchedule(settings: Settings, retries: seq<RetryEntry>, runId: string,
                                                stepId: string, n: nat)
    requires AttemptsDistinct(retries, runId, stepId) && DelaysSound(settings, retries)
    requires settings.baseBackoff >= 0 && settings.maxBackoff >= 0
    ensures DelaySum(retries, runId, stepId, n) <= Schedule(settings, n)
  {
    if n == 0 {
      forall e | 0 <= e < |retries| ensures retries[e].attempt > 0 {
        assert EntrySound(settings, retries[e]);
      }
      NoDelays(retries, runId, stepId, 0);
    } else {
      DelaysWithinSchedule(settings, retries, runId, stepId, n - 1);
      DoubledNonNegative(settings.baseBackoff, n - 1);
      OneMoreAttempt(settings, retries, runId, stepId, n);
    }
  }

  lemma RetriesOfStepDistinct(cfg: Config, db: Db, retries: seq<RetryEntry>, runId: string, stepId: string)
    requires DbInv(db) && RetriesInv(cfg, db, retries)
    ensures AttemptsDistinct(retries, runId, stepId) && DelaysSound(cfg.settings, retries)
  {
    forall e | 0 <= e < |retries| ensures EntrySound(cfg.settings, retries[e]) {
      assert Logged(db, retries[e]);
    }
    forall d, e | 0 <= d < e < |retries| && LocalRetryOf(retries[d], runId, stepId)
                  && LocalRetryOf(retries[e], runId, stepId)
      ensures retries[d].attempt != retries[e].attempt
    {
      if retries[d].attempt == retries[e].attempt {
        EntriesClash(db, retries[d], retries[e]);
      }
    }
  }

  lemma LoggedCloses(db: Db, entry: RetryEntry)
    requires Logged(db, entry)
    ensures Closes(RowsOf(db.events, entry.runId)[entry.sequence - 1], entry.stepId, entry.attempt)
  {
  }

  /** The log has no two retry events for the same attempt. */
  lemma EntriesClash(db: Db, first: RetryEntry, second: RetryEntry)
    requires DbInv(db) && Logged(db, first) && Logged(db, second) && first.runId == second.runId
             && first.stepId == second.stepId
    requires first.sequence < second.sequence
    ensures first.attempt != second.attempt
  {
    LoggedCloses(db, first);
    LoggedCloses(db, second);
    if first.attempt == second.attempt {
      assert RunInv(db, first.runId);
      AttemptClosedOnce(first.runId, RowsOf(db.events, first.runId), first.stepId, first.attempt);
      ClosedTwice(RowsOf(db.events, first.runId), first.sequence - 1, second.sequence - 1, first.stepId, first.attempt);
    }
  }

  /** The locally computed delays of one step sum up to at most base * (2^(max_attempts - 1) - 1), and to at most
      max_attempts - 1 times the cap, over the whole life of the run. */
  lemma BackoffBounded(cfg: Config, states: seq<System>, actions: seq<Action>, k: nat, runId: string, stepId: string)
    requires Protocol.Execution(cfg, states, actions) && k < |states|
    requires cfg.settings.maxAttempts >= 1 && cfg.settings.baseBackoff >= 0 && cfg.settings.maxBackoff >= 0
    ensures var total := DelaySum(states[k].retries, runId, stepId, cfg.settings.maxAttempts);
            && total <= cfg.settings.baseBackoff * Pow2(cfg.settings.maxAttempts - 1) - cfg.settings.baseBackoff
            && total <= (cfg.settings.maxAttempts - 1) * cfg.settings.maxBackoff
  {
    var settings, retries := cfg.settings, states[k].retries;
    InvariantHolds(cfg, states, actions, k);
    RetriesOfStepDistinct(cfg, states[k].db, retries, runId, stepId);
    DelaysWithinSchedule(settings, retries, runId, stepId, settings.maxAttempts - 1);
    forall e | 0 <= e < |retries| ensures retries[e].attempt != settings.maxAttempts {
      assert EntrySound(settings, retries[e]);
    }
    SameDelays(retries, runId, stepId, settings.maxAttempts);
    ScheduleBound(settings, settings.maxAttempts - 1);
    DoubledIsPower(settings.baseBackoff, settings.maxAttempts - 1);
  }

  // ----- the shared cooldown -----

  predicate Throttles(entry: RetryEntry, toolKey: string) {
    entry.throttled && entry.toolKey == toolKey
  }

  lemma {:induction false} LatestIsMaximum(retries: seq<RetryEntry>, toolKey: string)
    ensures LatestDeadline(retries, toolKey).None? <==> forall e :: 0 <= e < |retries| ==>
              !Throttles(retries[e], toolKey)
    ensures LatestDeadline(retries, toolKey).Some? ==>
              (forall e :: 0 <= e < |retries| && Throttles(retries[e], toolKey) ==>
                 retries[e].deadline <= LatestDeadline(retries, toolKey).value)
              && (exists e :: 0 <= e < |retries| && Throttles(retries[e], toolKey)
                            && retries[e].deadline == LatestDeadline(retries, toolKey).value)
  {
    if retries != [] {
      var m := |retries| - 1;
      var init := retries[..m];
      LatestIsMaximum(init, toolKey);
      assert forall e :: 0 <= e < m ==> init[e] == retries[e];
      if Throttles(retries[m], toolKey) {
        assert LatestDeadline(retries, toolKey).Some?;
        if LatestDeadline(retries, toolKey).value != retries[m].deadline {
          var e :| 0 <= e < m && Throttles(init[e], toolKey) && init[e].deadline == LatestDeadline(init, toolKey).value;
          assert Throttles(retries[e], toolKey);
        }
      } else if LatestDeadline(retries, toolKey).Some? {
        var e :| 0 <= e < m && Throttles(init[e], toolKey) && init[e].deadline == LatestDeadline(init, toolKey).value;
        assert Throttles(retries[e], toolKey);
      }
    }
  }

  /** A tool is cooling down exactly since some retry was throttled by it, and its stored deadline is the latest of all
      the deadlines that its throttling retries were given, in whatever order and from whatever runs they came. */
  lemma CooldownIsMaximum(cfg: Config, states: seq<System>, actions: seq<Action>, k: nat, toolKey: string)
    requires Protocol.Execution(cfg, states, actions) && k < |states|
    ensures var throttles, retries := states[k].db.throttles, states[k].retries;
            && (toolKey in throttles <==> exists e :: 0 <= e < |retries| && Throttles(retries[e], toolKey))
            && (toolKey in throttles ==>
                  (forall e :: 0 <= e < |retries| && Throttles(retries[e], toolKey) ==>
                     retries[e].deadline <= throttles[toolKey].blockedUntil)
                  && (exists e :: 0 <= e < |retries| && Throttles(retries[e], toolKey)
                                && retries[e].deadline == throttles[toolKey].blockedUntil))
  {
    InvariantHolds(cfg, states, actions, k);
    assert ThrottleExact(states[k].db.throttles, states[k].retries, toolKey);
    LatestIsMaximum(states[k].retries, toolKey);
  }

  /** Every throttling retry in the list is a retry event of some history, with this deadline. */
  lemma RetriesAreLogged(cfg: Config, states: seq<System>, actions: seq<Action>, k: nat, e: nat)
    requires Protocol.Execution(cfg, states, actions) && k < |states| && e < |states[k].retries|
    ensures Logged(states[k].db, states[k].retries[e])
  {
    InvariantHolds(cfg, states, actions, k);
    assert EntriesLogged(cfg.settings, states[k].db, states[k].retries);
  }

  lemma CommitExtendsRetries(cfg: Config, s: System, step: StepRecord, lease: Lease, outcome: Outcome, clock: Time,
                             leaseNow: Time, now: Time)
    ensures s.retries <= CommitOutcome(cfg, s, step, lease, outcome, clock, leaseNow, now).retries
  {
  }

  lemma ActionExtendsRetries(cfg: Config, s: System, a: Action)
    requires Enabled(s, a)
    ensures s.retries <= Do(cfg, s, a).retries
  {
    if a.Commit? {
      var worker := WorkerAt(s, a.worker);
      CommitExtendsRetries(cfg, s, worker.step, worker.lease, worker.outcome, a.clock, a.leaseNow, a.now);
    } else {
      OthersKeepRetries(cfg, s, a);
    }
  }

  lemma OthersKeepRetries(cfg: Config, s: System, a: Action)
    requires Enabled(s, a) && !a.Commit?
    ensures Do(cfg, s, a).retries == s.retries
  {
  }

  lemma StepExtendsRetries(cfg: Config, states: seq<System>, actions: seq<Action>, k: nat)
    requires Protocol.Execution(cfg, states, actions) && k < |actions|
    ensures states[k].retries <= states[k + 1].retries
  {
    assert Step(cfg, states[k], actions[k], states[k + 1]);
    ActionExtendsRetries(cfg, states[k], actions[k]);
  }

  lemma {:induction false} RetriesOnlyGrow(cfg: Config, states: seq<System>, actions: seq<Action>, j: nat, k: nat)
    requires Protocol.Execution(cfg, states, actions) && j <= k < |states|
    ensures states[j].retries <= states[k].retries
    decreases k - j
  {
    if j < k {
      RetriesOnlyGrow(cfg, states, actions, j, k - 1);
      StepExtendsRetries(cfg, states, actions, k - 1);
    }
  }

  /** A cooldown never ends earlier than it once was to end. */
  lemma CooldownNeverShrinks(cfg: Config, states: seq<System>, actions: seq<Action>, j: nat, k: nat, toolKey: string)
    requires Protocol.Execution(cfg, states, actions) && j <= k < |states| && toolKey in states[j].db.throttles
    ensures toolKey in states[k].db.throttles
    ensures states[j].db.throttles[toolKey].blockedUntil <= states[k].db.throttles[toolKey].blockedUntil
  {
    RetriesOnlyGrow(cfg, states, actions, j, k);
    CooldownIsMaximum(cfg, states, actions, j, toolKey);
    CooldownIsMaximum(cfg, states, actions, k, toolKey);
    var e :| 0 <= e < |states[j].retries| && Throttles(states[j].retries[e], toolKey)
             && states[j].retries[e].deadline == states[j].db.throttles[toolKey].blockedUntil;
    assert states[k].retries[e] == states[j].retries[e];
  }

  /** No claim made at `now` returns a step whose tool has a throttling deadline after `now`, committed by any run. */
  lemma ClaimsRespectCooldowns(cfg: Config, states: seq<System>, actions: seq<Action>, k: nat, e: nat)
    requires Protocol.Execution(cfg, states, actions) && k < |actions| && actions[k].Claim? && actions[k].pick.Some?
    requires e < |states[k].retries| && states[k].retries[e].throttled
    ensures WorkerAt(states[k + 1], actions[k].worker).Claimed?
    ensures WorkerAt(states[k + 1], actions[k].worker).step.toolKey == states[k].retries[e].toolKey ==>
              states[k].retries[e].deadline <= actions[k].now
  {
    assert Step(cfg, states[k], actions[k], states[k + 1]);
    var toolKey := states[k].retries[e].toolKey;
    CooldownIsMaximum(cfg, states, actions, k, toolKey);
    assert Throttles(states[k].retries[e], toolKey);
  }
}
