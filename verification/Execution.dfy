/** Tool actions keep the invariant, hence so does every action, and it holds in every state of every execution. */
module Execution {
  import opened Models
  import opened Gateway
  import opened Ledger
  import opened Protocol
  import opened Invariant
  import opened Preservation
  import opened CommitPreservation

  // ----- tool actions -----

  lemma AnswerKeeps(cfg: Config, s: System, x: Sent, http: HttpReply)
    requires Inv(cfg, s) && x in s.sent && ReplySound(s.ledger, Reply(x, http))
    ensures Inv(cfg, Answer(s, x, http))
  {
  }

  lemma FaultKeeps(cfg: Config, s: System, x: Sent, status: int, detail: string)
    requires Inv(cfg, s) && x in s.sent && 200 <= status < 600 && status != 409
    ensures Inv(cfg, Respond(s, x, status, None, detail))
  {
    AnswerKeeps(cfg, s, x, HttpReply(status, None, None, detail));
  }

  /** No request of the engine ever finds its key used for anything else. */
  lemma NeverConflicts(cfg: Config, s: System, x: Sent)
    requires Inv(cfg, s) && x in s.sent
    ensures !Find(s.ledger, cfg.digest, x.operation, x.operationKey, x.request).Conflict?
  {
    if x.operationKey in s.ledger.results {
      assert HasEffect(s.ledger, x.operationKey);
      var k :| 0 <= k < |s.ledger.effects| && s.ledger.effects[k].operationKey == x.operationKey;
      assert Requested(s.sent, s.ledger.effects[k]);
      var y :| y in s.sent && Requests(y, s.ledger.effects[k]);
      SameKeySameRequest(s.db, x, y);
    }
  }

  lemma LookupReplySound(ledger: LedgerTables, digest: Digest, x: Sent, throttled: bool, retryAfter: Option<Time>)
    requires LedgerInv(ledger, digest) && !Find(ledger, digest, x.operation, x.operationKey, x.request).Conflict?
    ensures var reply := LookupReply(ledger, digest, x.operation, x.operationKey, x.request, throttled, retryAfter);
            reply.Some? ==> ReplySound(ledger, Reply(x, reply.value))
  {
  }

  lemma LookupKeeps(cfg: Config, s: System, x: Sent, throttled: bool, retryAfter: Option<Time>)
    requires Inv(cfg, s) && x in s.sent
    ensures Inv(cfg, DoLookup(cfg, s, x, throttled, retryAfter))
  {
    NeverConflicts(cfg, s, x);
    LookupReplySound(s.ledger, cfg.digest, x, throttled, retryAfter);
    var reply := LookupReply(s.ledger, cfg.digest, x.operation, x.operationKey, x.request, throttled, retryAfter);
    if reply.Some? {
      AnswerKeeps(cfg, s, x, reply.value);
    }
  }

  /** The facts about network and completed steps survive one more effect, requested by `x`. */
  lemma LedgerGrows(cfg: Config, s: System, ledger': LedgerTables, x: Sent)
    requires Inv(cfg, s) && x in s.sent && LedgerInv(ledger', cfg.digest) && LedgerExtends(s.ledger, ledger')
    requires forall k :: |s.ledger.effects| <= k < |ledger'.effects| ==> Requests(x, ledger'.effects[k])
    ensures Inv(cfg, s.(ledger := ledger'))
  {
    var s' := s.(ledger := ledger');
    forall k | 0 <= k < |ledger'.effects| ensures Requested(s.sent, ledger'.effects[k]) {
      if k < |s.ledger.effects| {
        assert Requested(s.sent, s.ledger.effects[k]);
        assert ledger'.effects[k] == s.ledger.effects[k];
      }
    }
    forall r | r in s.db.runs ensures CompletedConfirmed(s.db, ledger', r) {
      assert CompletedConfirmed(s.db, s.ledger, r);
    }
    forall v | v in s.workers ensures WorkerInv(s.db, ledger', s.workers[v]) {
      assert WorkerInv(s.db, s.ledger, s.workers[v]);
    }
  }

  /** The ledger after serving a request whose key is not used otherwise, and its answer. */
  lemma ApplyReplySound(ledger: LedgerTables, digest: Digest, x: Sent, referenceId: string, now: Time)
    requires LedgerInv(ledger, digest) && !Find(ledger, digest, x.operation, x.operationKey, x.request).Conflict?
    ensures var (ledger', outcome) := Apply(ledger, digest, x.operation, x.operationKey, x.request, referenceId, now);
            LedgerInv(ledger', digest) && LedgerExtends(ledger, ledger')
            && (forall k :: |ledger.effects| <= k < |ledger'.effects| ==> Requests(x, ledger'.effects[k]))
            && ReplySound(ledger', Reply(x, ApplyReply(outcome)))
  {
    ApplyKeepsLedger(ledger, digest, x.operation, x.operationKey, x.request, referenceId, now);
    var (ledger', outcome) := Apply(ledger, digest, x.operation, x.operationKey, x.request, referenceId, now);
    if outcome.Applied? {
      AppliedConfirmed(digest, ledger', x.operationKey, outcome.result);
    }
  }

  lemma ApplyKeeps(cfg: Config, s: System, x: Sent, referenceId: string, now: Time)
    requires Inv(cfg, s) && x in s.sent
    ensures Inv(cfg, DoApply(cfg, s, x, referenceId, now))
  {
    NeverConflicts(cfg, s, x);
    ApplyReplySound(s.ledger, cfg.digest, x, referenceId, now);
    var (ledger, outcome) := Apply(s.ledger, cfg.digest, x.operation, x.operationKey, x.request, referenceId, now);
    LedgerGrows(cfg, s, ledger, x);
    AnswerKeeps(cfg, s.(ledger := ledger), x, ApplyReply(outcome));
  }

  lemma AppliedConfirmed(digest: Digest, ledger: LedgerTables, key: string, result: ToolResult)
    requires LedgerInv(ledger, digest) && key in ledger.results
    requires ledger.results[key].response.referenceId == result.referenceId
             && ledger.results[key].operation == result.operation
    ensures Confirmed(ledger, key, result)
  {
    assert HasEffect(ledger, key);
  }

  // ----- all actions -----

  lemma ActionKeeps(cfg: Config, s: System, a: Action)
    requires Inv(cfg, s) && Enabled(s, a)
    ensures Inv(cfg, Do(cfg, s, a))
  {
    match a
    case Create(runId, definition, toolKey, now) =>
      if runId !in s.db.runs {
        CreateKeeps(cfg, s, runId, definition, toolKey, now);
      }
    case Claim(w, ownerId, ttl, now, None) =>
    case Claim(w, ownerId, ttl, now, Some(pick)) => ClaimKeeps(cfg, s, w, ownerId, ttl, now, pick.0, pick.1);
    case Record(w, leaseNow, now) => RecordKeeps(cfg, s, w, WorkerAt(s, w).step, WorkerAt(s, w).lease, leaseNow, now);
    case Send(w) => SendKeeps(cfg, s, w, WorkerAt(s, w).step, WorkerAt(s, w).lease);
    case Receive(w, http) => ReceiveKeeps(cfg, s, w, WorkerAt(s, w).step, WorkerAt(s, w).lease, http);
    case TransportError(w, detail) => TransportErrorKeeps(cfg, s, w, WorkerAt(s, w).step, WorkerAt(s, w).lease, detail);
    case Commit(w, clock, leaseNow, now) => CommitActionKeeps(cfg, s, w, WorkerAt(s, w), clock, leaseNow, now);
    case Release(w, now) => ReleaseKeeps(cfg, s, w, WorkerAt(s, w).lease, now);
    case Abort(w) => AbortKeeps(cfg, s, w);
    case Crash(w) => CrashKeeps(cfg, s, w);
    case Renew(runId, ownerId, fenceToken, ttl, now) => RenewKeeps(cfg, s, runId, ownerId, fenceToken, ttl, now);
    case ToolLookup(_, _, _) => ToolActionKeeps(cfg, s, a);
    case ToolApply(_, _, _) => ToolActionKeeps(cfg, s, a);
    case ToolFault(_, _, _) => ToolActionKeeps(cfg, s, a);
  }

  lemma ToolActionKeeps(cfg: Config, s: System, a: Action)
    requires Inv(cfg, s) && Enabled(s, a) && (a.ToolLookup? || a.ToolApply? || a.ToolFault?)
    ensures Inv(cfg, Do(cfg, s, a))
  {
    match a
    case ToolLookup(x, throttled, retryAfter) => LookupKeeps(cfg, s, x, throttled, retryAfter);
    case ToolApply(x, referenceId, now) => ApplyKeeps(cfg, s, x, referenceId, now);
    case ToolFault(x, status, detail) => FaultKeeps(cfg, s, x, status, detail);
  }

  lemma {:induction false} InvariantHolds(cfg: Config, states: seq<System>, actions: seq<Action>, k: nat)
    requires Execution(cfg, states, actions) && k < |states|
    ensures Inv(cfg, states[k])
  {
    if k == 0 {
      InitialInvariant(cfg);
    } else {
      var j := k - 1;
      InvariantHolds(cfg, states, actions, j);
      assert Step(cfg, states[j], actions[j], states[j + 1]);
      ActionKeeps(cfg, states[j], actions[j]);
    }
  }
}
