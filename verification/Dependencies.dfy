/** Direct and remote dependencies, and what the reducer guarantees about the dependencies of attempted steps. */
module Dependencies {
  import opened Models
  import opened Graph
  import opened History
  import opened HistoryFacts
  import opened Refinement

  /** `path` follows dependencies, from a step to one of its dependencies and so on. */
  ghost predicate DependencyPath(nodes: seq<Node>, path: seq<string>) {
    forall m :: 0 <= m < |path| - 1 ==> DependsOn(nodes, path[m], path[m + 1])
  }

  ghost predicate PathBetween(nodes: seq<Node>, a: string, b: string, path: seq<string>) {
    |path| >= 2 && path[0] == a && path[|path| - 1] == b && DependencyPath(nodes, path)
  }

  /** Step `a` depends on step `b`, directly or through other steps. */
  ghost predicate Reaches(nodes: seq<Node>, a: string, b: string) {
    exists path :: PathBetween(nodes, a, b, path)
  }

  lemma ReachesDirectly(nodes: seq<Node>, a: string, b: string)
    requires DependsOn(nodes, a, b)
    ensures Reaches(nodes, a, b)
  {
    assert PathBetween(nodes, a, b, [a, b]);
  }

  lemma ReachesFurther(nodes: seq<Node>, a: string, b: string, c: string)
    requires Reaches(nodes, a, b) && DependsOn(nodes, b, c)
    ensures Reaches(nodes, a, c)
  {
    var path :| PathBetween(nodes, a, b, path);
    var longer := path + [c];
    forall m | 0 <= m < |longer| - 1 ensures DependsOn(nodes, longer[m], longer[m + 1]) {
      assert m < |path| - 1 ==> DependsOn(nodes, path[m], path[m + 1]);
    }
    assert PathBetween(nodes, a, c, longer);
  }

  /** In an acyclic graph no step depends on itself. */
  lemma NeverReachesItself(nodes: seq<Node>, a: string)
    requires Acyclic(nodes)
    ensures !Reaches(nodes, a, a)
  {
    if Reaches(nodes, a, a) {
      var path :| PathBetween(nodes, a, a, path);
      var walk := path[..|path| - 1];
      assert DependsOn(nodes, path[|path| - 2], path[|path| - 1]);
      forall i | 0 <= i < |walk| - 1 ensures DependsOn(nodes, walk[i], walk[i + 1]) {
        assert DependsOn(nodes, path[i], path[i + 1]);
      }
      assert IsCycle(nodes, walk);
    }
  }

  lemma PathTail(nodes: seq<Node>, path: seq<string>)
    requires |path| > 0 && DependencyPath(nodes, path)
    ensures DependencyPath(nodes, path[1..])
  {
    forall m | 0 <= m < |path| - 2 ensures DependsOn(nodes, path[1..][m], path[1..][m + 1]) {
      assert DependsOn(nodes, path[m + 1], path[m + 2]);
    }
  }

  // ----- attempted steps -----

  ghost predicate StepJustified(run: WorkflowRun, step: StepRecord) {
    step.attempts >= 0 && (!step.status.Pending? ==> step.attempts >= 1)
    && (step.attempts >= 1 ==> DependenciesDone(run, step))
  }

  /** Whatever has been attempted had its dependencies completed. */
  ghost predicate Justified(run: WorkflowRun) {
    forall i :: 0 <= i < |run.steps| ==> StepJustified(run, run.steps[i])
  }

  lemma SoundIsJustified(run: WorkflowRun)
    requires Sound(run)
    ensures Justified(run)
  {
    forall i | 0 <= i < |run.steps| ensures StepJustified(run, run.steps[i]) {
      assert StepSound(run, run.steps[i]);
    }
  }

  lemma ApplyJustified(runId: string, run: WorkflowRun, expected: int, event: Event, after: WorkflowRun)
    requires Justified(run) && ApplyEvent(runId, Some(run), expected, event) == Ok(after)
    ensures Justified(after)
  {
    ApplyExtends(runId, run, expected, event);
    CompletedIdsGrow(run, after);
    forall i | 0 <= i < |after.steps| ensures StepJustified(after, after.steps[i]) {
      assert StepJustified(run, run.steps[i]);
    }
  }

  lemma {:induction false} ReplayJustified(runId: string, events: seq<Event>)
    requires Replay(runId, events).Ok? && Replay(runId, events).value.Some?
    ensures Justified(Replay(runId, events).value.value)
  {
    var n := |events| - 1;
    if n == 0 {
      assert events[..0] == [];
    } else {
      PrefixAccepted(runId, events, n);
      ReplayJustified(runId, events[..n]);
      ApplyJustified(runId, Replay(runId, events[..n]).value.value, |events|, events[n],
                     Replay(runId, events).value.value);
    }
  }

  lemma DependencyDone(runId: string, run: WorkflowRun, i: nat, dependency: string) returns (j: nat)
    requires Shaped(runId, run) && Justified(run) && i < |run.steps| && run.steps[i].attempts >= 1
    requires DependsOn(RunNodes(run), run.steps[i].id, dependency)
    ensures j < |run.steps| && run.steps[j].id == dependency && run.steps[j].status.Completed?
            && run.steps[j].attempts >= 1
  {
    var n :| 0 <= n < |RunNodes(run)|
             && RunNodes(run)[n].id == run.steps[i].id && dependency in RunNodes(run)[n].dependsOn;
    assert RunNodes(run)[n].id == run.steps[n].id;
    StepIdsUnique(runId, run, n, i);
    assert StepJustified(run, run.steps[i]);
    assert dependency in (set d | d in run.steps[i].dependsOn);
    assert dependency in CompletedIds(run);
    j :| 0 <= j < |run.steps| && run.steps[j].status.Completed? && run.steps[j].id == dependency;
    assert StepJustified(run, run.steps[j]);
  }

  /** Everything that an attempted step depends on, however remotely, is completed. */
  lemma {:induction false} PathDone(runId: string, run: WorkflowRun, i: nat, path: seq<string>) returns (j: nat)
    requires Shaped(runId, run) && Justified(run) && i < |run.steps| && run.steps[i].attempts >= 1
    requires |path| >= 2 && path[0] == run.steps[i].id && DependencyPath(RunNodes(run), path)
    ensures j < |run.steps| && run.steps[j].id == path[|path| - 1] && run.steps[j].status.Completed?
    decreases |path|
  {
    j := DependencyDone(runId, run, i, path[1]);
    if |path| > 2 {
      PathTail(RunNodes(run), path);
      j := PathDone(runId, run, j, path[1..]);
    }
  }
}
