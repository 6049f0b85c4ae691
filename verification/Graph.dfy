/** Dependency graphs of workflow definitions, and the two cycle checks that guard them:
    the worklist of `WorkflowDefinition.validate_graph` and the greedy scan of `_validate_definitions`. */
module Graph {
  import opened Models

  datatype Node = Node(id: string, dependsOn: seq<string>)

  datatype GraphError =
    | DuplicateStepIds
    | DuplicateDependencies(stepId: string)
    | SelfDependency(stepId: string)
    | UnknownDependencies(stepId: string)
    | CyclicDependencies

  ghost predicate NoDuplicates<T>(s: seq<T>) {
    forall i, j :: 0 <= i < j < |s| ==> s[i] != s[j]
  }

  predicate Known(nodes: seq<Node>, id: string) {
    exists i :: 0 <= i < |nodes| && nodes[i].id == id
  }

  ghost predicate UniqueIds(nodes: seq<Node>) {
    forall i, j :: 0 <= i < j < |nodes| ==> nodes[i].id != nodes[j].id
  }

  ghost predicate DependsOn(nodes: seq<Node>, id: string, dependency: string) {
    exists i :: 0 <= i < |nodes| && nodes[i].id == id && dependency in nodes[i].dependsOn
  }

  /** The first complaint about one step's declared dependencies, in the order the checks are made. */
  ghost function StepError(nodes: seq<Node>, node: Node): Option<GraphError> {
    if !NoDuplicates(node.dependsOn) then Some(DuplicateDependencies(node.id))
    else if node.id in node.dependsOn then Some(SelfDependency(node.id))
    else if exists d :: d in node.dependsOn && !Known(nodes, d) then Some(UnknownDependencies(node.id))
    else None
  }

  ghost predicate WellFormed(nodes: seq<Node>) {
    UniqueIds(nodes) && forall i :: 0 <= i < |nodes| ==> StepError(nodes, nodes[i]).None?
  }

  /** A closed walk: each step depends on the next one, and the last on the first. */
  ghost predicate IsCycle(nodes: seq<Node>, walk: seq<string>) {
    |walk| > 0
    && (forall i :: 0 <= i < |walk| - 1 ==> DependsOn(nodes, walk[i], walk[i + 1]))
    && DependsOn(nodes, walk[|walk| - 1], walk[0])
  }

  ghost predicate Acyclic(nodes: seq<Node>) {
    forall walk: seq<string> :: !IsCycle(nodes, walk)
  }

  /** Every dependency of an element stands before it. */
  ghost predicate DependenciesFirst(nodes: seq<Node>, order: seq<string>) {
    NoDuplicates(order)
    && (forall i :: 0 <= i < |order| ==> Known(nodes, order[i]))
    && (forall i, d :: 0 <= i < |order| && DependsOn(nodes, order[i], d) ==> d in order[..i])
  }

  ghost predicate Topological(nodes: seq<Node>, order: seq<string>) {
    DependenciesFirst(nodes, order) && forall i :: 0 <= i < |nodes| ==> nodes[i].id in order
  }

  // ----- counting distinct elements -----

  lemma {:induction false} NoDuplicatesSize<T>(s: seq<T>)
    ensures |set x | x in s| <= |s|
    ensures NoDuplicates(s) <==> |set x | x in s| == |s|
  {
    if s != [] {
      var init, last := s[..|s| - 1], s[|s| - 1];
      NoDuplicatesSize(init);
      var whole, part := set x | x in s, set x | x in init;
      assert s == init + [last];
      assert whole == part + {last};
      if last in init {
        assert whole == part;
        var i :| 0 <= i < |init| && init[i] == last;
        assert s[i] == s[|s| - 1];
      } else {
        assert |whole| == |part| + 1;
        if NoDuplicates(init) {
          assert NoDuplicates(s);
        } else {
          var i, j :| 0 <= i < j < |init| && init[i] == init[j];
          assert s[i] == s[j];
        }
      }
    }
  }

  lemma SubsetSize<T>(a: set<T>, b: set<T>)
    requires a <= b
    ensures |a| <= |b|
    ensures |a| == |b| ==> a == b
  {
    assert b == a + (b - a);
    assert |b| == |a| + |b - a|;
  }

  ghost function IdSet(nodes: seq<Node>): set<string> {
    set i | 0 <= i < |nodes| :: nodes[i].id
  }

  function IdList(nodes: seq<Node>): (ids: seq<string>)
    ensures |ids| == |nodes| && forall i :: 0 <= i < |ids| ==> ids[i] == nodes[i].id
  {
    seq(|nodes|, i requires 0 <= i < |nodes| => nodes[i].id)
  }

  lemma IdSetSize(nodes: seq<Node>)
    requires UniqueIds(nodes)
    ensures |IdSet(nodes)| == |nodes|
  {
    var ids := IdList(nodes);
    NoDuplicatesSize(ids);
    assert IdSet(nodes) == set x | x in ids;
  }

  /** A duplicate-free list of known IDs is complete exactly when it is as long as the node list. */
  lemma CompleteBySize(nodes: seq<Node>, order: seq<string>)
    requires UniqueIds(nodes) && NoDuplicates(order)
    requires forall i :: 0 <= i < |order| ==> Known(nodes, order[i])
    ensures |order| <= |nodes|
    ensures |order| == |nodes| <==> forall i :: 0 <= i < |nodes| ==> nodes[i].id in order
  {
    IdSetSize(nodes);
    NoDuplicatesSize(order);
    var listed := set x | x in order;
    SubsetSize(listed, IdSet(nodes));
    if forall i :: 0 <= i < |nodes| ==> nodes[i].id in order {
      assert listed == IdSet(nodes);
    }
    if |order| == |nodes| {
      assert listed == IdSet(nodes);
      forall i | 0 <= i < |nodes| ensures nodes[i].id in order {
        assert nodes[i].id in IdSet(nodes);
      }
    }
  }

  // ----- acyclicity is the existence of a topological order -----

  function Position(order: seq<string>, id: string): (i: nat)
    requires id in order
    ensures i < |order| && order[i] == id
  {
    if order[0] == id then 0 else 1 + Position(order[1..], id)
  }

  lemma EarlierPosition(nodes: seq<Node>, order: seq<string>, id: string, dependency: string)
    requires Topological(nodes, order) && DependsOn(nodes, id, dependency)
    ensures id in order && dependency in order
    ensures Position(order, dependency) < Position(order, id)
  {
    var p := Position(order, id);
    assert dependency in order[..p];
    var q :| 0 <= q < p && order[q] == dependency;
    assert Position(order, dependency) == q;
  }

  /** Along a walk the position in a topological order falls at every step. */
  lemma {:induction false} WalkDescends(nodes: seq<Node>, order: seq<string>, walk: seq<string>, n: nat)
    requires Topological(nodes, order)
    requires n < |walk| && walk[0] in order
    requires forall i :: 0 <= i < |walk| - 1 ==> DependsOn(nodes, walk[i], walk[i + 1])
    ensures walk[n] in order && Position(order, walk[n]) + n <= Position(order, walk[0])
  {
    if n > 0 {
      WalkDescends(nodes, order, walk, n - 1);
      EarlierPosition(nodes, order, walk[n - 1], walk[n]);
    }
  }

  lemma TopologicalImpliesAcyclic(nodes: seq<Node>, order: seq<string>)
    requires Topological(nodes, order)
    ensures Acyclic(nodes)
  {
    forall walk: seq<string> | IsCycle(nodes, walk) ensures false {
      var last := walk[|walk| - 1];
      EarlierPosition(nodes, order, last, walk[0]);
      WalkDescends(nodes, order, walk, |walk| - 1);
    }
  }

  ghost predicate HasDependencyIn(nodes: seq<Node>, id: string, others: set<string>) {
    exists d :: d in others && DependsOn(nodes, id, d)
  }

  /** No member of the set can be finished without finishing another member first. */
  ghost predicate Stuck(nodes: seq<Node>, stuck: set<string>) {
    forall u {:trigger HasDependencyIn(nodes, u, stuck)} :: u in stuck ==> HasDependencyIn(nodes, u, stuck)
  }

  /** A path inside a set that every member leaves by a dependency into the set runs into a cycle. */
  lemma {:induction false} StuckPathHasCycle(nodes: seq<Node>, stuck: set<string>,
                                             path: seq<string>) returns (cycle: seq<string>)
    requires |path| > 0 && NoDuplicates(path)
    requires forall i :: 0 <= i < |path| ==> path[i] in stuck
    requires forall i :: 0 <= i < |path| - 1 ==> DependsOn(nodes, path[i], path[i + 1])
    requires Stuck(nodes, stuck)
    ensures IsCycle(nodes, cycle)
    decreases stuck - set x | x in path
  {
    var last := path[|path| - 1];
    assert HasDependencyIn(nodes, last, stuck);
    var next :| next in stuck && DependsOn(nodes, last, next);
    if next in path {
      var k :| 0 <= k < |path| && path[k] == next;
      cycle := path[k..];
    } else {
      var longer := path + [next];
      ghost var before, after := stuck - (set x | x in path), stuck - (set x | x in longer);
      assert after <= before && next in before && next !in after;
      cycle := StuckPathHasCycle(nodes, stuck, longer);
    }
  }

  lemma StuckSetHasCycle(nodes: seq<Node>, stuck: set<string>)
    requires stuck != {}
    requires Stuck(nodes, stuck)
    ensures !Acyclic(nodes)
  {
    var start :| start in stuck;
    var cycle := StuckPathHasCycle(nodes, stuck, [start]);
    assert IsCycle(nodes, cycle);
  }

  // ----- models.py: the worklist -----

  method CheckStep(nodes: seq<Node>, node: Node) returns (error: Option<GraphError>)
    ensures error == StepError(nodes, node)
  {
    NoDuplicatesSize(node.dependsOn);
    if |set d | d in node.dependsOn| != |node.dependsOn| {
      return Some(DuplicateDependencies(node.id));
    }
    if node.id in node.dependsOn {
      return Some(SelfDependency(node.id));
    }
    var known := set i | 0 <= i < |nodes| :: nodes[i].id;
    var missing := (set d | d in node.dependsOn) - known;
    assert forall d :: d in node.dependsOn ==> (d in missing <==> !Known(nodes, d));
    if missing != {} {
      var d :| d in missing;
      assert d in node.dependsOn && !Known(nodes, d);
      return Some(UnknownDependencies(node.id));
    }
    return None;
  }

  /** What is still missing for a step when the steps in `done` have been visited. */
  ghost predicate Remaining(nodes: seq<Node>, id: string, done: seq<string>, remaining: set<string>) {
    forall d :: d in remaining <==> DependsOn(nodes, id, d) && d !in done
  }

  /** The visited and the queued steps are distinct, and they are the steps with nothing missing. */
  ghost predicate Listed(nodes: seq<Node>, listed: seq<string>, dependencies: map<string, set<string>>) {
    NoDuplicates(listed)
    && (forall k :: 0 <= k < |listed| ==> Known(nodes, listed[k]))
    && (forall i :: 0 <= i < |nodes| ==> nodes[i].id in dependencies)
    && (forall i :: 0 <= i < |nodes| ==> (nodes[i].id in listed <==> dependencies[nodes[i].id] == {}))
  }

  lemma RemainingNext(nodes: seq<Node>, id: string, visited: seq<string>, missing: set<string>)
    requires |visited| > 0 && Remaining(nodes, id, visited[..|visited| - 1], missing)
    ensures Remaining(nodes, id, visited, missing - {visited[|visited| - 1]})
    ensures visited[|visited| - 1] !in missing ==> Remaining(nodes, id, visited, missing)
  {
    assert visited == visited[..|visited| - 1] + [visited[|visited| - 1]];
  }

  /** Removes the step visited last from every dependency set and queues the steps this frees. */
  method VisitStep(nodes: seq<Node>, visited: seq<string>, dependencies: map<string, set<string>>, ready: seq<string>)
    returns (dependencies': map<string, set<string>>, ready': seq<string>)
    requires UniqueIds(nodes) && |visited| > 0
    requires Listed(nodes, visited + ready, dependencies)
    requires forall i :: 0 <= i < |nodes| ==>
               Remaining(nodes, nodes[i].id, visited[..|visited| - 1], dependencies[nodes[i].id])
    ensures Listed(nodes, visited + ready', dependencies')
    ensures forall i :: 0 <= i < |nodes| ==> Remaining(nodes, nodes[i].id, visited, dependencies'[nodes[i].id])
  {
    dependencies', ready' := dependencies, ready;
    var current := visited[|visited| - 1];
    var i := 0;
    while i < |nodes|
      invariant 0 <= i <= |nodes|
      invariant Listed(nodes, visited + ready', dependencies')
      invariant forall k :: 0 <= k < i ==> Remaining(nodes, nodes[k].id, visited, dependencies'[nodes[k].id])
      invariant forall k :: i <= k < |nodes| ==>
                  Remaining(nodes, nodes[k].id, visited[..|visited| - 1], dependencies'[nodes[k].id])
    {
      var candidate := nodes[i].id;
      var missing := dependencies'[candidate];
      RemainingNext(nodes, candidate, visited, missing);
      assert forall k :: 0 <= k < |nodes| && k != i ==> nodes[k].id != candidate;
      if current in missing {
        dependencies' := dependencies'[candidate := missing - {current}];
        if dependencies'[candidate] == {} && candidate !in visited && candidate !in ready' {
          assert visited + (ready' + [candidate]) == (visited + ready') + [candidate];
          ready' := ready' + [candidate];
        }
      }
      i := i + 1;
    }
  }

  /** The dependency sets before any visit, and the steps that start out ready. */
  method InitialQueue(nodes: seq<Node>) returns (dependencies: map<string, set<string>>, ready: seq<string>)
    requires UniqueIds(nodes)
    ensures Listed(nodes, ready, dependencies)
    ensures forall i :: 0 <= i < |nodes| ==> Remaining(nodes, nodes[i].id, [], dependencies[nodes[i].id])
  {
    dependencies := map[];
    var i := 0;
    while i < |nodes|
      invariant 0 <= i <= |nodes|
      invariant forall k :: 0 <= k < i ==> nodes[k].id in dependencies
                                           && dependencies[nodes[k].id] == set d | d in nodes[k].dependsOn
    {
      dependencies := dependencies[nodes[i].id := set d | d in nodes[i].dependsOn];
      i := i + 1;
    }
    ready := [];
    var n := 0;
    while n < |nodes|
      invariant 0 <= n <= |nodes| && NoDuplicates(ready)
      invariant forall k :: 0 <= k < n ==> (nodes[k].id in ready <==> dependencies[nodes[k].id] == {})
      invariant forall j :: 0 <= j < |ready| ==> exists k :: 0 <= k < n && nodes[k].id == ready[j]
    {
      if dependencies[nodes[n].id] == {} {
        ready := ready + [nodes[n].id];
      }
      n := n + 1;
    }
    forall i | 0 <= i < |nodes| ensures Remaining(nodes, nodes[i].id, [], dependencies[nodes[i].id]) {
    }
  }

  /** The worklist of `validate_graph`: it visits every step exactly when the graph has no cycle. */
  method WorklistOrder(nodes: seq<Node>) returns (visited: seq<string>)
    requires WellFormed(nodes)
    ensures DependenciesFirst(nodes, visited)
    ensures |visited| == |nodes| <==> Acyclic(nodes)
    ensures Acyclic(nodes) ==> Topological(nodes, visited)
  {
    var dependencies, ready := InitialQueue(nodes);
    visited := [];
    assert visited + ready == ready;
    while ready != []
      invariant Listed(nodes, visited + ready, dependencies)
      invariant forall i :: 0 <= i < |nodes| ==> Remaining(nodes, nodes[i].id, visited, dependencies[nodes[i].id])
      invariant DependenciesFirst(nodes, visited)
      invariant |visited| <= |nodes|
      decreases |nodes| - |visited|
    {
      var current := ready[0];
      NextVisit(nodes, visited, ready, dependencies);
      visited, ready := visited + [current], ready[1..];
      CompleteBySize(nodes, visited);
      dependencies, ready := VisitStep(nodes, visited, dependencies, ready);
    }
    assert visited + ready == visited;
    CompleteBySize(nodes, visited);
    if |visited| == |nodes| {
      TopologicalImpliesAcyclic(nodes, visited);
    } else {
      WorklistStuck(nodes, visited, dependencies);
    }
  }

  /** A step whose dependencies are all listed may come next. */
  lemma ReadyComesNext(nodes: seq<Node>, order: seq<string>, id: string)
    requires DependenciesFirst(nodes, order) && Known(nodes, id) && id !in order
    requires forall d :: DependsOn(nodes, id, d) ==> d in order
    ensures DependenciesFirst(nodes, order + [id])
  {
    var longer := order + [id];
    assert longer[..|order|] == order;
    forall i, d | 0 <= i < |longer| && DependsOn(nodes, longer[i], d) ensures d in longer[..i] {
      if i < |order| {
        assert longer[i] == order[i] && longer[..i] == order[..i];
      }
    }
  }

  /** Moving the head of the queue to the visited steps keeps every dependency first. */
  lemma NextVisit(nodes: seq<Node>, visited: seq<string>, ready: seq<string>, dependencies: map<string, set<string>>)
    requires Listed(nodes, visited + ready, dependencies) && ready != []
    requires forall i :: 0 <= i < |nodes| ==> Remaining(nodes, nodes[i].id, visited, dependencies[nodes[i].id])
    requires DependenciesFirst(nodes, visited)
    ensures visited + [ready[0]] + ready[1..] == visited + ready
    ensures (visited + [ready[0]])[..|visited|] == visited
    ensures DependenciesFirst(nodes, visited + [ready[0]])
  {
    var listed, order := visited + ready, visited + [ready[0]];
    assert order == listed[..|visited| + 1] && order[..|visited|] == visited;
    assert listed[|visited|] == ready[0];
    var k :| 0 <= k < |nodes| && nodes[k].id == ready[0];
    assert dependencies[nodes[k].id] == {};
    assert forall d :: DependsOn(nodes, ready[0], d) ==> d in visited || d in dependencies[nodes[k].id];
    assert forall j :: 0 <= j < |visited| ==> visited[j] == listed[j];
    ReadyComesNext(nodes, visited, ready[0]);
  }

  lemma WorklistStuck(nodes: seq<Node>, visited: seq<string>, dependencies: map<string, set<string>>)
    requires WellFormed(nodes) && Listed(nodes, visited, dependencies) && |visited| != |nodes|
    requires forall i :: 0 <= i < |nodes| ==> Remaining(nodes, nodes[i].id, visited, dependencies[nodes[i].id])
    ensures !Acyclic(nodes)
  {
    CompleteBySize(nodes, visited);
    if Acyclic(nodes) {
      var i := AcyclicHasReadyStep(nodes, set x | x in visited);
      var d :| d in dependencies[nodes[i].id];
    }
  }

  /** `validate_graph` on an extracted graph, with the order in which the worklist visited the steps. */
  method ValidateGraph(nodes: seq<Node>) returns (error: Option<GraphError>, visited: seq<string>)
    ensures error.None? <==> WellFormed(nodes) && Acyclic(nodes)
    ensures error.None? ==> Topological(nodes, visited)
    ensures error == Some(DuplicateStepIds) <==> !UniqueIds(nodes)
    ensures error == Some(CyclicDependencies) <==> WellFormed(nodes) && !Acyclic(nodes)
    ensures UniqueIds(nodes) && !WellFormed(nodes) ==>
              exists i :: 0 <= i < |nodes| && error == StepError(nodes, nodes[i]) && error.Some?
                          && forall j :: 0 <= j < i ==> StepError(nodes, nodes[j]).None?
  {
    visited := [];
    var ids := IdList(nodes);
    NoDuplicatesSize(ids);
    assert NoDuplicates(ids) <==> UniqueIds(nodes);
    if |set x | x in ids| != |ids| {
      return Some(DuplicateStepIds), visited;
    }
    var i := 0;
    while i < |nodes|
      invariant 0 <= i <= |nodes|
      invariant forall j :: 0 <= j < i ==> StepError(nodes, nodes[j]).None?
    {
      error := CheckStep(nodes, nodes[i]);
      if error.Some? {
        return;
      }
      i := i + 1;
    }
    visited := WorklistOrder(nodes);
    if |visited| != |nodes| {
      return Some(CyclicDependencies), visited;
    }
    error := None;
  }

  function StepNodes(steps: seq<WorkflowStep>): (nodes: seq<Node>)
    ensures |nodes| == |steps|
    ensures forall i :: 0 <= i < |nodes| ==> nodes[i] == Node(steps[i].id, steps[i].dependsOn)
  {
    seq(|steps|, i requires 0 <= i < |steps| => Node(steps[i].id, steps[i].dependsOn))
  }

  /** What a submitted definition has satisfied once it has been validated. */
  ghost predicate AcceptedDefinition(definition: WorkflowDefinition) {
    definition.steps != []
    && (forall i :: 0 <= i < |definition.steps| ==>
          IsStepId(definition.steps[i].id)
          && RequestMatches(definition.steps[i].operation, definition.steps[i].request))
    && WellFormed(StepNodes(definition.steps)) && Acyclic(StepNodes(definition.steps))
  }

  /** The length and value limits of the submitted fields. No theorem below needs them. */
  predicate WithinLimits(definition: WorkflowDefinition) {
    1 <= |definition.name| <= 128 && |definition.steps| <= 32
    && forall i :: 0 <= i < |definition.steps| ==>
         |definition.steps[i].dependsOn| <= 32 && RequestWithinLimits(definition.steps[i].request)
  }

  method ValidateDefinition(definition: WorkflowDefinition) returns (accepted: bool)
    ensures accepted <==> WithinLimits(definition) && AcceptedDefinition(definition)
  {
    if |definition.name| < 1 || |definition.name| > 128 || |definition.steps| < 1 || |definition.steps| > 32 {
      return false;
    }
    var i := 0;
    while i < |definition.steps|
      invariant 0 <= i <= |definition.steps|
      invariant forall j :: 0 <= j < i ==>
                  |definition.steps[j].dependsOn| <= 32 && RequestWithinLimits(definition.steps[j].request)
      invariant forall j :: 0 <= j < i ==> IsStepId(definition.steps[j].id)
      invariant forall j :: 0 <= j < i ==> RequestMatches(definition.steps[j].operation, definition.steps[j].request)
    {
      var step := definition.steps[i];
      if !IsStepId(step.id) || |step.dependsOn| > 32 || !RequestMatches(step.operation, step.request)
         || !RequestWithinLimits(step.request) {
        return false;
      }
      i := i + 1;
    }
    var error, visited := ValidateGraph(StepNodes(definition.steps));
    accepted := error.None?;
  }

  // ----- history.py: the greedy scan -----

  /** The scan of `_validate_definitions`: repeatedly visit the first step whose dependencies are visited. */
  method GreedyScan(nodes: seq<Node>) returns (acyclic: bool, order: seq<string>)
    requires WellFormed(nodes)
    ensures acyclic <==> Acyclic(nodes)
    ensures acyclic ==> Topological(nodes, order)
  {
    var visited: set<string> := {};
    order := [];
    while |visited| < |nodes|
      invariant DependenciesFirst(nodes, order)
      invariant visited == set x | x in order
      invariant |visited| == |order| <= |nodes|
      decreases |nodes| - |visited|
    {
      var ready: Option<string> := None;
      var i := 0;
      while i < |nodes| && ready.None?
        invariant 0 <= i <= |nodes|
        invariant ready.None? ==> forall j :: 0 <= j < i ==>
                    nodes[j].id in visited || exists d :: d in nodes[j].dependsOn && d !in visited
        invariant ready.Some? ==> ready.value !in visited
        invariant ready.Some? ==> exists j :: (0 <= j < |nodes| && nodes[j].id == ready.value
                                               && forall d :: d in nodes[j].dependsOn ==> d in visited)
      {
        if nodes[i].id !in visited && (set d | d in nodes[i].dependsOn) <= visited {
          ready := Some(nodes[i].id);
        }
        i := i + 1;
      }
      if ready.None? {
        GreedyScanStuck(nodes, visited);
        return false, order;
      }
      ReadyComesNext(nodes, order, ready.value);
      visited := visited + {ready.value};
      order := order + [ready.value];
      NoDuplicatesSize(order);
      CompleteBySize(nodes, order);
    }
    CompleteBySize(nodes, order);
    TopologicalImpliesAcyclic(nodes, order);
    acyclic := true;
  }

  lemma GreedyScanStuck(nodes: seq<Node>, visited: set<string>)
    requires WellFormed(nodes) && |visited| < |nodes|
    requires forall j :: 0 <= j < |nodes| ==>
               nodes[j].id in visited || exists d :: d in nodes[j].dependsOn && d !in visited
    ensures !Acyclic(nodes)
  {
    IdSetSize(nodes);
    if IdSet(nodes) <= visited {
      SubsetSize(IdSet(nodes), visited);
    }
    if Acyclic(nodes) {
      var i := AcyclicHasReadyStep(nodes, visited);
    }
  }

  /** In an acyclic graph, any proper set of finished steps leaves a step whose dependencies are finished. */
  lemma AcyclicHasReadyStep(nodes: seq<Node>, done: set<string>) returns (i: nat)
    requires WellFormed(nodes) && Acyclic(nodes)
    requires exists k :: 0 <= k < |nodes| && nodes[k].id !in done
    ensures i < |nodes| && nodes[i].id !in done && forall d :: d in nodes[i].dependsOn ==> d in done
  {
    if forall j :: 0 <= j < |nodes| && nodes[j].id !in done ==> exists d :: d in nodes[j].dependsOn && d !in done {
      NoneReadyHasCycle(nodes, done);
    }
    i :| 0 <= i < |nodes| && nodes[i].id !in done && forall d :: d in nodes[i].dependsOn ==> d in done;
  }

  lemma NoneReadyHasCycle(nodes: seq<Node>, done: set<string>)
    requires WellFormed(nodes)
    requires exists k :: 0 <= k < |nodes| && nodes[k].id !in done
    requires forall j :: 0 <= j < |nodes| && nodes[j].id !in done ==> exists d :: d in nodes[j].dependsOn && d !in done
    ensures !Acyclic(nodes)
  {
    var stuck := IdSet(nodes) - done;
    var k :| 0 <= k < |nodes| && nodes[k].id !in done;
    assert nodes[k].id in stuck;
    forall id | id in stuck ensures HasDependencyIn(nodes, id, stuck) {
      var j :| 0 <= j < |nodes| && nodes[j].id == id;
      var d :| d in nodes[j].dependsOn && d !in done;
      UnfinishedDependency(nodes, done, j, d);
    }
    StuckSetHasCycle(nodes, stuck);
  }

  lemma UnfinishedDependency(nodes: seq<Node>, done: set<string>, i: nat, d: string)
    requires WellFormed(nodes) && i < |nodes| && d in nodes[i].dependsOn && d !in done
    ensures HasDependencyIn(nodes, nodes[i].id, IdSet(nodes) - done)
  {
    assert StepError(nodes, nodes[i]).None?;
    assert Known(nodes, d);
    assert DependsOn(nodes, nodes[i].id, d);
  }
}
