/** Runs of the protocol from any state, and the states reachable from the empty system. */
module Runs {
  import opened Models
  import opened Database
  import opened Gateway
  import opened Protocol
  import opened Invariant
  import Execution
  import opened Safety

  /** The state that the actions lead to, if each is enabled when it is taken. */
  ghost function Run(cfg: Config, s: System, actions: seq<Action>): Option<System> {
    if actions == [] then Some(s)
    else
      var last := actions[|actions| - 1];
      match Run(cfg, s, actions[..|actions| - 1])
      case None => None
      case Some(middle) => if Enabled(middle, last) then Some(Do(cfg, middle, last)) else None
  }

  lemma RunOne(cfg: Config, s: System, actions: seq<Action>, middle: System, a: Action)
    requires Run(cfg, s, actions) == Some(middle) && Enabled(middle, a)
    ensures Run(cfg, s, actions + [a]) == Some(Do(cfg, middle, a))
  {
    assert (actions + [a])[..|actions|] == actions;
  }

  lemma {:induction false} RunAppend(cfg: Config, s: System, first: seq<Action>, middle: System, second: seq<Action>)
    requires Run(cfg, s, first) == Some(middle)
    ensures Run(cfg, s, first + second) == Run(cfg, middle, second)
  {
    if second == [] {
      assert first + second == first;
    } else {
      var n := |second| - 1;
      RunAppend(cfg, s, first, middle, second[..n]);
      assert (first + second)[..|first| + n] == first + second[..n];
    }
  }

  lemma {:induction false} RunSplit(cfg: Config, s: System, first: seq<Action>, second: seq<Action>)
    requires Run(cfg, s, first + second).Some?
    ensures Run(cfg, s, first).Some? && Run(cfg, Run(cfg, s, first).value, second) == Run(cfg, s, first + second)
  {
    if second == [] {
      assert first + second == first;
    } else {
      var n := |second| - 1;
      assert (first + second)[..|first| + n] == first + second[..n];
      RunSplit(cfg, s, first, second[..n]);
    }
  }

  lemma RunSingle(cfg: Config, s: System, a: Action)
    ensures Run(cfg, s, [a]) == if Enabled(s, a) then Some(Do(cfg, s, a)) else None
  {
    assert [a][..0] == [];
  }

  lemma FirstStep(cfg: Config, s: System, actions: seq<Action>) returns (s': System)
    requires actions != [] && Run(cfg, s, actions).Some?
    ensures Enabled(s, actions[0]) && s' == Do(cfg, s, actions[0]) && Run(cfg, s', actions[1..]) == Run(cfg, s, actions)
  {
    assert actions == [actions[0]] + actions[1..];
    RunSplit(cfg, s, [actions[0]], actions[1..]);
    RunSingle(cfg, s, actions[0]);
    s' := Do(cfg, s, actions[0]);
  }

  /** What a run reaches from the empty system, an execution reaches, so every theorem on executions applies to it. */
  lemma {:induction false} RunIsExecution(cfg: Config, actions: seq<Action>) returns (states: seq<System>)
    requires Run(cfg, EMPTY_SYSTEM, actions).Some?
    ensures Protocol.Execution(cfg, states, actions) && states[|actions|] == Run(cfg, EMPTY_SYSTEM, actions).value
  {
    if actions == [] {
      states := [EMPTY_SYSTEM];
    } else {
      var n := |actions| - 1;
      var before := RunIsExecution(cfg, actions[..n]);
      states := before + [Run(cfg, EMPTY_SYSTEM, actions).value];
      forall k | 0 <= k < |actions| ensures Step(cfg, states[k], actions[k], states[k + 1]) {
        assert k < n ==> actions[..n][k] == actions[k] && Step(cfg, before[k], actions[..n][k], before[k + 1]);
      }
    }
  }

  lemma {:induction false} RunKeeps(cfg: Config, s: System, actions: seq<Action>)
    requires Inv(cfg, s) && Run(cfg, s, actions).Some?
    ensures Inv(cfg, Run(cfg, s, actions).value)
  {
    if actions != [] {
      var n := |actions| - 1;
      RunKeeps(cfg, s, actions[..n]);
      Execution.ActionKeeps(cfg, Run(cfg, s, actions[..n]).value, actions[n]);
    }
  }

  /** Some run of the protocol leads from the empty system to this state. */
  ghost predicate Reachable(cfg: Config, s: System) {
    exists actions :: Run(cfg, EMPTY_SYSTEM, actions) == Some(s)
  }

  lemma ReachableInv(cfg: Config, s: System)
    requires Reachable(cfg, s)
    ensures Inv(cfg, s)
  {
    var actions :| Run(cfg, EMPTY_SYSTEM, actions) == Some(s);
    InitialInvariant(cfg);
    RunKeeps(cfg, EMPTY_SYSTEM, actions);
  }

  lemma RunReaches(cfg: Config, s: System, actions: seq<Action>, s': System)
    requires Reachable(cfg, s) && Run(cfg, s, actions) == Some(s')
    ensures Reachable(cfg, s')
  {
    var first :| Run(cfg, EMPTY_SYSTEM, first) == Some(s);
    RunAppend(cfg, EMPTY_SYSTEM, first, s, actions);
  }

  lemma {:induction false} RunGrows(cfg: Config, s: System, actions: seq<Action>)
    requires Inv(cfg, s) && Run(cfg, s, actions).Some?
    ensures Grows(s.db, Run(cfg, s, actions).value.db)
  {
    if actions == [] {
      GrowsReflexive(s.db);
    } else {
      var n := |actions| - 1;
      var middle := Run(cfg, s, actions[..n]).value;
      RunGrows(cfg, s, actions[..n]);
      RunKeeps(cfg, s, actions[..n]);
      ActionGrows(cfg, middle, actions[n]);
      GrowsTransitive(s.db, middle.db, Do(cfg, middle, actions[n]).db);
    }
  }

  lemma Taken(cfg: Config, s: System, actions: seq<Action>, middle: System, a: Action)
    returns (s': System, actions': seq<Action>)
    requires Run(cfg, s, actions) == Some(middle) && Enabled(middle, a)
    ensures actions' == actions + [a] && s' == Do(cfg, middle, a) && Run(cfg, s, actions') == Some(s')
  {
    RunOne(cfg, s, actions, middle, a);
    s', actions' := Do(cfg, middle, a), actions + [a];
  }

  // ----- one more action, and what it does -----

  lemma SendTaken(cfg: Config, s: System, w: nat, step: StepRecord, lease: Lease)
    returns (s': System, actions: seq<Action>)
    requires WorkerAt(s, w) == Recorded(step, lease)
    ensures Run(cfg, s, actions) == Some(s') && actions == [Send(w)] && s'.db == s.db && s'.ledger == s.ledger
    ensures WorkerAt(s', w) == Waiting(step, lease) && SentFor(step, lease) in s'.sent
  {
    s', actions := Taken(cfg, s, [], s, Send(w));
  }

  lemma ReceiveTaken(cfg: Config, s: System, actions: seq<Action>, middle: System, w: nat, step: StepRecord,
                     lease: Lease, reply: HttpReply)
    returns (s': System, actions': seq<Action>)
    requires Run(cfg, s, actions) == Some(middle) && WorkerAt(middle, w) == Waiting(step, lease)
    requires Reply(SentFor(step, lease), reply) in middle.replies
    ensures actions' == actions + [Receive(w, reply)]
    ensures Run(cfg, s, actions') == Some(s') && s'.db == middle.db && s'.ledger == middle.ledger
    ensures WorkerAt(s', w) == Answered(step, lease, Interpret(reply))
  {
    s', actions' := Taken(cfg, s, actions, middle, Receive(w, reply));
  }

  lemma TransportErrorTaken(cfg: Config, s: System, actions: seq<Action>, middle: System, w: nat, step: StepRecord,
                            lease: Lease, detail: string)
    returns (s': System, actions': seq<Action>)
    requires Run(cfg, s, actions) == Some(middle) && WorkerAt(middle, w) == Waiting(step, lease)
    ensures actions' == actions + [TransportError(w, detail)]
    ensures Run(cfg, s, actions') == Some(s') && s'.db == middle.db && s'.ledger == middle.ledger
    ensures WorkerAt(s', w) == Answered(step, lease, NoAnswer(detail))
  {
    s', actions' := Taken(cfg, s, actions, middle, TransportError(w, detail));
  }

  lemma ReleaseTaken(cfg: Config, s: System, actions: seq<Action>, middle: System, w: nat, lease: Lease, now: Time)
    returns (s': System, actions': seq<Action>)
    requires Run(cfg, s, actions) == Some(middle) && WorkerAt(middle, w) == Releasing(lease)
    ensures Run(cfg, s, actions') == Some(s') && actions' == actions + [Release(w, now)]
    ensures s'.db == ReleaseLease(middle.db, lease.runId, lease.ownerId, lease.fenceToken, now)
            && s'.ledger == middle.ledger
    ensures WorkerAt(s', w).Idle?
  {
    s', actions' := Taken(cfg, s, actions, middle, Release(w, now));
  }

  lemma RenewTaken(cfg: Config, s: System, actions: seq<Action>, middle: System, lease: Lease, ttl: Time, now: Time)
    returns (s': System, actions': seq<Action>)
    requires Run(cfg, s, actions) == Some(middle)
    ensures Run(cfg, s, actions') == Some(s')
            && actions' == actions + [Renew(lease.runId, lease.ownerId, lease.fenceToken, ttl, now)]
    ensures s'.db == RenewLease(middle.db, lease.runId, lease.ownerId, lease.fenceToken, ttl, now)
            && s'.workers == middle.workers
  {
    s', actions' := Taken(cfg, s, actions, middle, Renew(lease.runId, lease.ownerId, lease.fenceToken, ttl, now));
  }
}
