/** The mock tool as mutable objects (mock_tool.py): the durable ledger and the flaky service in front of it. */
module ToolService {
  import opened Models
  import opened Counting
  import opened Gateway
  import opened Ledger
  import opened Protocol

  class ToolStore {
    const digest: Digest
    var effects: seq<SideEffect>
    var results: map<string, CachedResult>

    ghost function Contents(): LedgerTables
      reads this
    {
      LedgerTables(effects, results)
    }

    constructor (digest: Digest)
      ensures Contents() == LedgerTables([], map[]) && this.digest == digest
    {
      this.digest := digest;
      effects, results := [], map[];
    }

    method Find(operation: Operation, operationKey: string, request: Request) returns (lookup: Lookup)
      ensures lookup == Ledger.Find(Contents(), digest, operation, operationKey, request)
    {
      if operationKey !in results {
        return NotFound;
      }
      var row := results[operationKey];
      if row.operation != operation || row.requestHash != digest(request) {
        return Conflict;
      }
      lookup := Found(row.response.(deduplicated := true));
    }

    /** The constraints of the effects table: the primary key and the unique operation key. */
    method CheckInsert(id: string, operationKey: string) returns (allowed: bool)
      ensures allowed <==> InsertAllowed(effects, id, operationKey)
    {
      var k := 0;
      while k < |effects|
        invariant 0 <= k <= |effects|
        invariant forall j :: 0 <= j < k ==> effects[j].id != id && effects[j].operationKey != operationKey
      {
        if effects[k].id == id || effects[k].operationKey == operationKey {
          return false;
        }
        k := k + 1;
      }
      allowed := true;
    }

    /** Lookup, effect and cached response in one transaction; `referenceId` is freshly drawn. */
    method Apply(operation: Operation, operationKey: string, request: Request, referenceId: string, now: Time)
      returns (outcome: Application)
      modifies this
      ensures (Contents(), outcome) == Ledger.Apply(old(Contents()), digest, operation, operationKey, request,
                                                    referenceId, now)
    {
      var existing := Find(operation, operationKey, request);
      if existing == Conflict {
        return Conflicting;
      }
      if existing.Found? {
        return Applied(existing.result, false);
      }
      var allowed := CheckInsert(referenceId, operationKey);
      if !allowed {
        return ConstraintViolated;
      }
      var result := ToolResult(operation, referenceId, false);
      effects := effects + [SideEffect(referenceId, operationKey, operation, request, now)];
      results := results[operationKey := CachedResult(operation, digest(request), result, now)];
      outcome := Applied(result, true);
    }

    /** All effects per operation, or only those whose key starts with the run's identifier. */
    method Summarize(runId: Option<string>) returns (summary: LedgerSummary)
      ensures summary == Summary(Contents(), runId)
    {
      var charges, provisions, notifications := 0, 0, 0;
      var k := 0;
      while k < |effects|
        invariant 0 <= k <= |effects|
        invariant charges == Count(effects[..k], CountedBy(runId, Charge))
        invariant provisions == Count(effects[..k], CountedBy(runId, Provision))
        invariant notifications == Count(effects[..k], CountedBy(runId, Notify))
      {
        assert effects[..k + 1][..k] == effects[..k];
        if runId.None? || Like(RunPattern(runId.value), effects[k].operationKey) {
          match effects[k].operation
          case Charge => charges := charges + 1;
          case Provision => provisions := provisions + 1;
          case Notify => notifications := notifications + 1;
        }
        k := k + 1;
      }
      assert effects[..|effects|] == effects;
      summary := LedgerSummary(charges, provisions, notifications);
    }
  }

  /** What the tool does with one request, its two transactions run back to back: its tables afterwards and its
      reply. */
  function Serve(ledger: LedgerTables, digest: Digest, operation: Operation, operationKey: string, request: Request,
                 throttled: bool, retryAfter: Option<Time>, referenceId: string, now: Time): (LedgerTables, HttpReply)
  {
    match LookupReply(ledger, digest, operation, operationKey, request, throttled, retryAfter)
    case Some(http) => (ledger, http)
    case None =>
      var (applied, outcome) := Apply(ledger, digest, operation, operationKey, request, referenceId, now);
      (applied, ApplyReply(outcome))
  }

  /** The service's answers by the effects it has: the payload is checked first, then a committed effect is answered
      with its result, then a drawn failure refuses the request, and only then is an effect made. */
  ghost predicate AnsweredBy(ledger: LedgerTables, digest: Digest, operation: Operation, operationKey: string,
                             request: Request, throttled: bool, retryAfter: Option<Time>, referenceId: string,
                             now: Time, ledger': LedgerTables, reply: HttpReply)
  {
    var effects := ledger.effects;
    if !RequestMatches(operation, request) then ledger' == ledger && reply.status == 500 && reply.body.None?
    else if HasEffect(ledger, operationKey) then
      ledger' == ledger
      && forall e :: 0 <= e < |effects| && effects[e].operationKey == operationKey ==>
           if effects[e].operation == operation && digest(effects[e].request) == digest(request)
           then reply.status == 200 && reply.body == Some(ToolResult(operation, effects[e].id, true))
           else reply.status == 409 && reply.body.None?
    else if throttled then
      ledger' == ledger && reply.status == 429 && reply.retryAfter == retryAfter && reply.body.None?
    else if exists e :: 0 <= e < |effects| && effects[e].id == referenceId then
      ledger' == ledger && reply.status == 500 && reply.body.None?
    else
      ledger'.effects == effects + [SideEffect(referenceId, operationKey, operation, request, now)]
      && reply.status == 200 && reply.body == Some(ToolResult(operation, referenceId, false))
  }

  /** A request whose effect is committed gets its result back, and a new one gets the result of its own effect. */
  lemma ServeAnswers(ledger: LedgerTables, digest: Digest, operation: Operation, operationKey: string,
                     request: Request, throttled: bool, retryAfter: Option<Time>, referenceId: string, now: Time)
    requires LedgerInv(ledger, digest)
    ensures var (ledger', reply) := Serve(ledger, digest, operation, operationKey, request, throttled, retryAfter,
                                          referenceId, now);
            AnsweredBy(ledger, digest, operation, operationKey, request, throttled, retryAfter, referenceId, now,
                       ledger', reply)
  {
    if operationKey in ledger.results {
      assert HasEffect(ledger, operationKey);
    }
  }

  /** True when the first transaction lets the request through to the second one. */
  predicate Admits(ledger: LedgerTables, digest: Digest, sent: Sent, throttled: bool) {
    LookupReply(ledger, digest, sent.operation, sent.operationKey, sent.request, throttled, None).None?
  }

  /** Database, workers and wire are the same. */
  predicate EngineUntouched(s: System, s': System) {
    s'.db == s.db && s'.workers == s.workers && s'.sent == s.sent
  }

  lemma LookupServes(cfg: Config, s: System, sent: Sent, throttled: bool, retryAfter: Option<Time>,
                     referenceId: string, now: Time)
    ensures var looked := DoLookup(cfg, s, sent, throttled, retryAfter);
            EngineUntouched(s, looked) && looked.ledger == s.ledger
            && if Admits(s.ledger, cfg.digest, sent, throttled) then sent in looked.admitted
               else
                 var (ledger, reply) := Serve(s.ledger, cfg.digest, sent.operation, sent.operationKey, sent.request,
                                              throttled, retryAfter, referenceId, now);
                 ledger == s.ledger && Reply(sent, reply) in looked.replies
  {
  }

  lemma ApplyServes(cfg: Config, s: System, sent: Sent, throttled: bool, retryAfter: Option<Time>, referenceId: string,
                    now: Time)
    requires Admits(s.ledger, cfg.digest, sent, throttled)
    ensures var applied := DoApply(cfg, s, sent, referenceId, now);
            var (ledger, reply) := Serve(s.ledger, cfg.digest, sent.operation, sent.operationKey, sent.request,
                                         throttled, retryAfter, referenceId, now);
            EngineUntouched(s, applied) && applied.ledger == ledger && Reply(sent, reply) in applied.replies
  {
  }

  ghost function Served(cfg: Config, s: System, sent: Sent, throttled: bool, retryAfter: Option<Time>,
                        referenceId: string, now: Time): System
  {
    var looked := DoLookup(cfg, s, sent, throttled, retryAfter);
    if Admits(s.ledger, cfg.digest, sent, throttled) then DoApply(cfg, looked, sent, referenceId, now) else looked
  }

  /** Serving a request that is on the wire is the protocol's lookup, followed by its apply if the lookup admits it. */
  lemma ServeFollowsProtocol(cfg: Config, s: System, sent: Sent, throttled: bool, retryAfter: Option<Time>,
                             referenceId: string, now: Time)
    ensures var served := Served(cfg, s, sent, throttled, retryAfter, referenceId, now);
            var (ledger, reply) := Serve(s.ledger, cfg.digest, sent.operation, sent.operationKey, sent.request,
                                         throttled, retryAfter, referenceId, now);
            EngineUntouched(s, served) && served.ledger == ledger && Reply(sent, reply) in served.replies
  {
    LookupServes(cfg, s, sent, throttled, retryAfter, referenceId, now);
    var looked := DoLookup(cfg, s, sent, throttled, retryAfter);
    if Admits(s.ledger, cfg.digest, sent, throttled) {
      ApplyServes(cfg, looked, sent, throttled, retryAfter, referenceId, now);
    }
  }

  class MockTool {
    const store: ToolStore
    const retryAfter: Time
    const forcedFailureOperation: Option<Operation>
    var forcedFailures: int
    var operationFailurePending: bool

    constructor (store: ToolStore, retryAfter: Time, forcedFailures: int, forcedFailureOperation: Option<Operation>)
      ensures this.store == store && this.retryAfter == retryAfter && this.forcedFailures == forcedFailures
      ensures this.forcedFailureOperation == forcedFailureOperation
              && operationFailurePending == forcedFailureOperation.Some?
    {
      this.store, this.retryAfter, this.forcedFailures := store, retryAfter, forcedFailures;
      this.forcedFailureOperation := forcedFailureOperation;
      operationFailurePending := forcedFailureOperation.Some?;
    }

    /** How many failures are still to be forced, at most. */
    function ForcedBudget(): nat
      reads this
    {
      (if forcedFailures > 0 then forcedFailures else 0) + if operationFailurePending then 1 else 0
    }

    /** The failure is drawn before the effect: first the counted ones, then the one for a chosen operation. */
    method DrawForcedFailure(operation: Operation) returns (forced: bool)
      modifies this
      ensures old(forcedFailures) > 0 ==>
                forcedFailures == old(forcedFailures) - 1 && operationFailurePending == old(operationFailurePending)
      ensures old(forcedFailures) <= 0 ==>
                forcedFailures == old(forcedFailures)
                && (operationFailurePending <==> old(operationFailurePending) && !forced)
      ensures forced <==>
              old(forcedFailures) > 0 || (old(operationFailurePending) && forcedFailureOperation == Some(operation))
      ensures ForcedBudget() == old(ForcedBudget()) - if forced then 1 else 0
    {
      forced := forcedFailures > 0;
      if forced {
        forcedFailures := forcedFailures - 1;
      } else if operationFailurePending && forcedFailureOperation == Some(operation) {
        operationFailurePending := false;
        forced := true;
      }
    }

    /** Serving one request. A committed result is returned before any failure can be injected, a throttled request
        leaves no effect, and each forced failure is used up once. */
    method Execute(operation: Operation, request: Request, operationKey: string, flaky: bool, referenceId: string,
                   now: Time)
      returns (reply: HttpReply, throttled: bool)
      modifies this, store
      ensures (store.Contents(), reply) ==
              Serve(old(store.Contents()), store.digest, operation, operationKey, request, throttled, Some(retryAfter),
                    referenceId, now)
      ensures LedgerInv(old(store.Contents()), store.digest) ==>
                AnsweredBy(old(store.Contents()), store.digest, operation, operationKey, request, throttled,
                           Some(retryAfter), referenceId, now, store.Contents(), reply)
      ensures var found := Find(old(store.Contents()), store.digest, operation, operationKey, request);
              RequestMatches(operation, request) && found.Found? ==>
                reply.status == 200 && reply.body == Some(found.result) && store.Contents() == old(store.Contents())
      ensures throttled <==> reply.status == 429
      ensures throttled && !flaky ==> ForcedBudget() == old(ForcedBudget()) - 1
      ensures Find(old(store.Contents()), store.digest, operation, operationKey, request).Found? ==>
                !throttled && ForcedBudget() == old(ForcedBudget())
    {
      ghost var before := store.Contents();
      forall drawn: bool | LedgerInv(before, store.digest)
        ensures var (after, answer) := Serve(before, store.digest, operation, operationKey, request, drawn,
                                             Some(retryAfter), referenceId, now);
                AnsweredBy(before, store.digest, operation, operationKey, request, drawn, Some(retryAfter), referenceId,
                           now, after, answer)
      {
        ServeAnswers(before, store.digest, operation, operationKey, request, drawn, Some(retryAfter), referenceId, now);
      }
      if !RequestMatches(operation, request) {
        return HttpReply(500, None, None, "invalid payload"), false;
      }
      var committed := store.Find(operation, operationKey, request);
      if committed == Conflict {
        return CONFLICT, false;
      }
      if committed.Found? {
        return HttpReply(200, None, Some(committed.result), ""), false;
      }
      var forced := DrawForcedFailure(operation);
      if forced || flaky {
        return HttpReply(429, Some(retryAfter), None, "mock tool is temporarily throttled"), true;
      }
      throttled := false;
      var outcome := store.Apply(operation, operationKey, request, referenceId, now);
      reply := ApplyReply(outcome);
    }
  }
}
