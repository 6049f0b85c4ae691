/** The tool's idempotent ledger (mock_tool.py): effects, cached results and the summary query. */
module Ledger {
  import opened Models
  import opened Counting

  /** The digest of a canonical request; nothing below depends on how it is computed. */
  type Digest = Request -> int

  datatype SideEffect = SideEffect(id: string, operationKey: string, operation: Operation, request: Request,
                                   createdAt: Time)

  datatype CachedResult = CachedResult(operation: Operation, requestHash: int, response: ToolResult, createdAt: Time)

  datatype LedgerTables = LedgerTables(effects: seq<SideEffect>, results: map<string, CachedResult>)

  datatype Lookup = NotFound | Conflict | Found(result: ToolResult)

  datatype Application = Applied(result: ToolResult, created: bool) | Conflicting | ConstraintViolated

  datatype LedgerSummary = LedgerSummary(charges: nat, provisions: nat, notifications: nat)

  function Find(ledger: LedgerTables, digest: Digest, operation: Operation, operationKey: string,
                request: Request): Lookup
  {
    if operationKey !in ledger.results then NotFound
    else
      var row := ledger.results[operationKey];
      if row.operation != operation || row.requestHash != digest(request) then Conflict
      else Found(row.response.(deduplicated := true))
  }

  /** The primary key and the unique column of the effects table. */
  predicate InsertAllowed(effects: seq<SideEffect>, id: string, operationKey: string) {
    forall k :: 0 <= k < |effects| ==> effects[k].id != id && effects[k].operationKey != operationKey
  }

  /** One transaction; `referenceId` is the freshly drawn reference. */
  function Apply(ledger: LedgerTables, digest: Digest, operation: Operation, operationKey: string, request: Request,
                 referenceId: string, now: Time): (LedgerTables, Application)
  {
    match Find(ledger, digest, operation, operationKey, request)
    case Conflict => (ledger, Conflicting)
    case Found(result) => (ledger, Applied(result, false))
    case NotFound =>
      if !InsertAllowed(ledger.effects, referenceId, operationKey) then (ledger, ConstraintViolated)
      else
        var result := ToolResult(operation, referenceId, false);
        (LedgerTables(ledger.effects + [SideEffect(referenceId, operationKey, operation, request, now)],
                      ledger.results[operationKey := CachedResult(operation, digest(request), result, now)]),
         Applied(result, true))
  }

  /** Both tables describe the same effects, one per operation key. */
  ghost predicate LedgerInv(ledger: LedgerTables, digest: Digest) {
    var effects := ledger.effects;
    && (forall j, k :: 0 <= j < k < |effects| ==>
          effects[j].operationKey != effects[k].operationKey && effects[j].id != effects[k].id)
    && (forall k :: 0 <= k < |effects| ==>
          effects[k].operationKey in ledger.results
          && ledger.results[effects[k].operationKey] ==
             CachedResult(effects[k].operation, digest(effects[k].request),
                          ToolResult(effects[k].operation, effects[k].id, false), effects[k].createdAt))
    && (forall key :: key in ledger.results ==> HasEffect(ledger, key))
  }

  predicate HasEffect(ledger: LedgerTables, operationKey: string) {
    exists k :: 0 <= k < |ledger.effects| && ledger.effects[k].operationKey == operationKey
  }

  /** Later tables keep every effect and every cached result. */
  ghost predicate LedgerExtends(before: LedgerTables, after: LedgerTables) {
    before.effects <= after.effects
    && forall key :: key in before.results ==> key in after.results && after.results[key] == before.results[key]
  }

  lemma ApplyKeepsLedger(ledger: LedgerTables, digest: Digest, operation: Operation, operationKey: string,
                         request: Request, referenceId: string, now: Time)
    requires LedgerInv(ledger, digest)
    ensures var (ledger', outcome) := Apply(ledger, digest, operation, operationKey, request, referenceId, now);
            && LedgerInv(ledger', digest) && LedgerExtends(ledger, ledger')
            && (outcome.Applied? ==> operationKey in ledger'.results)
            && (outcome.Applied? ==> ledger'.results[operationKey].response.referenceId == outcome.result.referenceId)
            && (outcome.Applied? ==> ledger'.results[operationKey].operation == operation == outcome.result.operation)
            && (outcome.Applied? && outcome.created <==> |ledger'.effects| == |ledger.effects| + 1)
            && (!(outcome.Applied? && outcome.created) ==> ledger' == ledger)
  {
    if operationKey in ledger.results {
      assert HasEffect(ledger, operationKey);
    } else if InsertAllowed(ledger.effects, referenceId, operationKey) {
      InsertKeepsLedger(ledger, digest, operation, operationKey, request, referenceId, now);
    }
  }

  lemma InsertKeepsLedger(ledger: LedgerTables, digest: Digest, operation: Operation, operationKey: string,
                          request: Request, referenceId: string, now: Time)
    requires LedgerInv(ledger, digest) && operationKey !in ledger.results
    requires InsertAllowed(ledger.effects, referenceId, operationKey)
    ensures var result := ToolResult(operation, referenceId, false);
            var ledger' :=
              LedgerTables(ledger.effects + [SideEffect(referenceId, operationKey, operation, request, now)],
                           ledger.results[operationKey := CachedResult(operation, digest(request), result, now)]);
            LedgerInv(ledger', digest) && LedgerExtends(ledger, ledger')
  {
    var result := ToolResult(operation, referenceId, false);
    var ledger' := LedgerTables(ledger.effects + [SideEffect(referenceId, operationKey, operation, request, now)],
                                ledger.results[operationKey := CachedResult(operation, digest(request), result, now)]);
    ResultsHaveEffects(ledger, ledger', digest, operationKey);
  }

  lemma ResultsHaveEffects(ledger: LedgerTables, ledger': LedgerTables, digest: Digest, operationKey: string)
    requires LedgerInv(ledger, digest) && |ledger'.effects| == |ledger.effects| + 1 && ledger.effects <= ledger'.effects
    requires ledger'.effects[|ledger.effects|].operationKey == operationKey
    requires ledger'.results.Keys == ledger.results.Keys + {operationKey}
    ensures forall key :: key in ledger'.results ==> HasEffect(ledger', key)
  {
    forall key | key in ledger'.results ensures HasEffect(ledger', key) {
      if key != operationKey {
        assert HasEffect(ledger, key);
        var k :| 0 <= k < |ledger.effects| && ledger.effects[k].operationKey == key;
        assert ledger'.effects[k] == ledger.effects[k];
      }
    }
  }

  /** Repeating a request that has succeeded returns the original reference and adds nothing,
      however many other requests were served in between. */
  lemma ApplyIdempotent(earlier: LedgerTables, digest: Digest, operation: Operation, operationKey: string,
                        request: Request,
                        reference1: string, time1: Time, later: LedgerTables, reference2: string, time2: Time)
    requires LedgerInv(earlier, digest)
    requires Apply(earlier, digest, operation, operationKey, request, reference1, time1).1.Applied?
    requires LedgerExtends(Apply(earlier, digest, operation, operationKey, request, reference1, time1).0, later)
    ensures var first := Apply(earlier, digest, operation, operationKey, request, reference1, time1).1.result;
            Apply(later, digest, operation, operationKey, request, reference2, time2)
            == (later, Applied(first.(deduplicated := true), false))
  {
    ApplyKeepsLedger(earlier, digest, operation, operationKey, request, reference1, time1);
    if operationKey in earlier.results {
      assert HasEffect(earlier, operationKey);
    }
  }

  /** A request is refused as conflicting exactly when its key was used for another operation or another digest. */
  lemma ConflictExactly(ledger: LedgerTables, digest: Digest, operation: Operation, operationKey: string,
                        request: Request)
    requires LedgerInv(ledger, digest)
    ensures Find(ledger, digest, operation, operationKey, request).Conflict? <==>
            exists k :: 0 <= k < |ledger.effects| && ledger.effects[k].operationKey == operationKey
                        && (ledger.effects[k].operation != operation
                            || digest(ledger.effects[k].request) != digest(request))
  {
    if operationKey in ledger.results {
      assert HasEffect(ledger, operationKey);
    }
  }

  // ----- the summary query -----

  function FoldCase(c: char): char {
    if 'A' <= c <= 'Z' then c - 'A' + 'a' else c
  }

  /** SQL LIKE: `%` matches any text, `_` any character, and letters match in either case. */
  predicate Like(pattern: string, text: string)
    decreases |pattern|, |text|
  {
    if pattern == "" then text == ""
    else if pattern[0] == '%' then Like(pattern[1..], text) || (text != "" && Like(pattern, text[1..]))
    else text != "" && (pattern[0] == '_' || FoldCase(pattern[0]) == FoldCase(text[0])) && Like(pattern[1..], text[1..])
  }

  lemma {:induction false} LikeAnything(text: string)
    ensures Like("%", text)
  {
    if text != "" {
      LikeAnything(text[1..]);
    }
  }

  /** A literal prefix of the pattern is matched character by character. */
  lemma {:induction false} LikePrefix(prefix: string, rest: string, text: string)
    requires forall i :: 0 <= i < |prefix| ==> prefix[i] != '%' && prefix[i] != '_'
    ensures Like(prefix + rest, text) <==>
            |prefix| <= |text| && (forall i :: 0 <= i < |prefix| ==> FoldCase(prefix[i]) == FoldCase(text[i]))
            && Like(rest, text[|prefix|..])
  {
    if prefix == "" {
      assert prefix + rest == rest && text[0..] == text;
    } else if text != "" {
      assert (prefix + rest)[1..] == prefix[1..] + rest;
      LikePrefix(prefix[1..], rest, text[1..]);
      assert |prefix| <= |text| ==> text[1..][|prefix| - 1..] == text[|prefix|..];
      assert forall i :: 0 <= i < |prefix| - 1 ==> prefix[1..][i] == prefix[i + 1];
      assert forall i :: 0 <= i < |text| - 1 ==> text[1..][i] == text[i + 1];
      assert forall i :: 1 <= i < |prefix| ==> prefix[i] == prefix[1..][i - 1];
      assert forall i :: 1 <= i < |text| ==> text[i] == text[1..][i - 1];
    }
  }

  function RunPattern(runId: string): string {
    runId + ":%"
  }

  /** The pattern of one run matches an engine key exactly when the key belongs to that run. */
  lemma RunPatternMatches(runId: string, keyRun: string, stepId: string)
    requires IsRunId(runId) && IsRunId(keyRun)
    ensures Like(RunPattern(runId), OperationKey(keyRun, stepId)) <==> keyRun == runId
  {
    var prefix, key := runId + ":", OperationKey(keyRun, stepId);
    assert RunPattern(runId) == prefix + "%";
    LikePrefix(prefix, "%", key);
    LikeAnything(key[|prefix|..]);
    assert forall i :: 0 <= i < 36 ==> prefix[i] == runId[i] && key[i] == keyRun[i];
    assert forall i :: 0 <= i < 36 ==> FoldCase(runId[i]) == runId[i] && FoldCase(keyRun[i]) == keyRun[i];
    assert key[36] == ':' == prefix[36];
    if Like(RunPattern(runId), key) {
      forall i | 0 <= i < 36 ensures runId[i] == keyRun[i] {
        assert FoldCase(prefix[i]) == FoldCase(key[i]);
      }
    }
  }

  predicate Counted(effect: SideEffect, runId: Option<string>, operation: Operation) {
    effect.operation == operation && (runId.None? || Like(RunPattern(runId.value), effect.operationKey))
  }

  function CountedBy(runId: Option<string>, operation: Operation): SideEffect -> bool {
    (effect: SideEffect) => Counted(effect, runId, operation)
  }

  function Summary(ledger: LedgerTables, runId: Option<string>): LedgerSummary {
    LedgerSummary(Count(ledger.effects, CountedBy(runId, Charge)), Count(ledger.effects, CountedBy(runId, Provision)),
                  Count(ledger.effects, CountedBy(runId, Notify)))
  }

  /** The effects of one operation, as positions in the table. */
  function EffectsOf(ledger: LedgerTables, operation: Operation): set<nat> {
    set k: nat | k < |ledger.effects| && ledger.effects[k].operation == operation
  }

  lemma CountedOf(ledger: LedgerTables, operation: Operation)
    ensures Count(ledger.effects, CountedBy(None, operation)) == |EffectsOf(ledger, operation)|
  {
    CountIsSize(ledger.effects, CountedBy(None, operation));
    assert EffectsOf(ledger, operation) == Positions(ledger.effects, CountedBy(None, operation));
  }

  /** Without a run the three counts are the numbers of effects of each operation, and together all effects. */
  lemma SummaryCountsAll(ledger: LedgerTables)
    ensures var summary := Summary(ledger, None);
            && summary.charges == |EffectsOf(ledger, Charge)| && summary.provisions == |EffectsOf(ledger, Provision)|
            && summary.notifications == |EffectsOf(ledger, Notify)|
            && summary.charges + summary.provisions + summary.notifications == |ledger.effects|
  {
    CountedOf(ledger, Charge);
    CountedOf(ledger, Provision);
    CountedOf(ledger, Notify);
    CountsAddUp(ledger.effects);
  }

  lemma {:induction false} CountsAddUp(effects: seq<SideEffect>)
    ensures Count(effects, CountedBy(None, Charge)) + Count(effects, CountedBy(None, Provision))
            + Count(effects, CountedBy(None, Notify)) == |effects|
  {
    if effects != [] {
      CountsAddUp(effects[..|effects| - 1]);
    }
  }
}
