/** A stored canvas, compiled and run (app/multi_agent/service.py): acceptance by the depth-first
    search is what lets the scheduler make progress. */
module CanvasRun {
  import opened DependencyGraph
  import opened TaskSchedule
  import opened Wrappers
  import Canvas
  import opened Orchestrator

  lemma {:induction false} TaskMapMeaning(subtasks: seq<Canvas.Subtask>, id: string)
    ensures id in TaskMap(subtasks) <==> exists i :: 0 <= i < |subtasks| && subtasks[i].id == id
    ensures id in TaskMap(subtasks) ==> TaskMap(subtasks)[id] in subtasks && TaskMap(subtasks)[id].id == id
  {
    if subtasks != [] {
      var last := |subtasks| - 1;
      TaskMapMeaning(subtasks[..last], id);
      if i :| 0 <= i < |subtasks| && subtasks[i].id == id {
        assert i < last ==> subtasks[..last][i].id == id;
      }
    }
  }

  /** Of several subtasks with the same id the last one counts. */
  lemma {:induction false} LastOneCounts(subtasks: seq<Canvas.Subtask>, id: string) returns (i: nat)
    requires id in TaskMap(subtasks)
    ensures i < |subtasks| && subtasks[i] == TaskMap(subtasks)[id] && subtasks[i].id == id
    ensures forall j :: i < j < |subtasks| ==> subtasks[j].id != id
  {
    var last := |subtasks| - 1;
    if subtasks[last].id == id {
      i := last;
    } else {
      i := LastOneCounts(subtasks[..last], id);
    }
  }

  ghost predicate CompiledFrom(nodes: seq<Canvas.Node>, edges: seq<Canvas.Edge>, subtasks: seq<Canvas.Subtask>) {
    && |subtasks| == |nodes|
    && forall i :: 0 <= i < |subtasks| ==> Canvas.Compiles(nodes[i], edges, subtasks[i])
  }

  /** The tasks of a compiled canvas are its nodes, and they depend on each other as the edges say. */
  lemma {:induction false} GraphIsDrawn(nodes: seq<Canvas.Node>, edges: seq<Canvas.Edge>, subtasks: seq<Canvas.Subtask>)
    requires CompiledFrom(nodes, edges, subtasks)
    ensures var g := TaskGraph(subtasks);
            forall id :: && (id in g <==> Canvas.Text(id) in Canvas.NodeIds(nodes))
                         && (id in g ==>
                               forall d :: d in g[id] <==> Canvas.Edge(Canvas.Text(d), Canvas.Text(id)) in edges)
  {
    var g := TaskGraph(subtasks);
    forall id
      ensures id in g <==> Canvas.Text(id) in Canvas.NodeIds(nodes)
      ensures id in g ==> forall d :: d in g[id] <==> Canvas.Edge(Canvas.Text(d), Canvas.Text(id)) in edges
    {
      TaskMapMeaning(subtasks, id);
      if id in g {
        var i :| 0 <= i < |subtasks| && subtasks[i].id == id;
        assert nodes[i] in nodes && nodes[i].id.value == Canvas.Text(id);
        var t := TaskMap(subtasks)[id];
        var k :| 0 <= k < |subtasks| && subtasks[k] == t;
        assert g[id] == Elems(t.dependsOn);
      }
      if Canvas.Text(id) in Canvas.NodeIds(nodes) {
        var n :| n in nodes && n.id == Some(Canvas.Text(id));
        var k :| 0 <= k < |nodes| && nodes[k] == n;
        assert subtasks[k].id == id;
      }
    }
  }

  /** An accepted canvas gives the scheduler a graph without cycles and without unknown ids. */
  lemma {:induction false} AcceptedIsRunnable(
      nodes: seq<Canvas.Node>, edges: seq<Canvas.Edge>, subtasks: seq<Canvas.Subtask>)
    requires CompiledFrom(nodes, edges, subtasks)
    requires !HasCycle(Canvas.EdgeGraph(nodes, edges))
    requires forall e :: e in edges ==> e.source in Canvas.NodeIds(nodes)
    ensures !HasCycle(TaskGraph(subtasks)) && Known(TaskGraph(subtasks))
  {
    var g, drawn := TaskGraph(subtasks), Canvas.EdgeGraph(nodes, edges);
    GraphIsDrawn(nodes, edges, subtasks);
    forall p | IsCycle(g, p)
      ensures false
    {
      var q := seq(|p|, i requires 0 <= i < |p| => Canvas.Text(p[i]));
      forall i | 0 <= i < |q| - 1
        ensures q[i + 1] in Deps(drawn, q[i])
      {
        assert p[i + 1] in Deps(g, p[i]);
        var e := Canvas.Edge(q[i + 1], q[i]);
        assert e in edges && e.source in Canvas.Sources(edges, q[i]);
      }
      assert IsCycle(drawn, q);
    }
  }

  /** Every node of the canvas has a COMPLETED result. */
  ghost predicate EveryNodeCompleted(nodes: seq<Canvas.Node>, rs: seq<SubtaskResult>) {
    forall n :: n in nodes ==>
      && n.id.Some? && n.id.value.Text?
      && n.id.value.text in WithStatus(rs, TaskStatus.Completed)
  }

  lemma {:induction false} NodesComplete(
      nodes: seq<Canvas.Node>, edges: seq<Canvas.Edge>, subtasks: seq<Canvas.Subtask>, rs: seq<SubtaskResult>)
    requires CompiledFrom(nodes, edges, subtasks) && AllCompleted(TaskGraph(subtasks), rs)
    requires forall n :: n in nodes ==> Canvas.Nameable(n)
    ensures EveryNodeCompleted(nodes, rs)
  {
    GraphIsDrawn(nodes, edges, subtasks);
    forall n | n in nodes
      ensures n.id.value.text in WithStatus(rs, TaskStatus.Completed)
    {
      assert n.id.value in Canvas.NodeIds(nodes);
      assert n.id.value.text in TaskGraph(subtasks);
    }
  }

  /** Compiles a canvas and runs it. A run of an accepted canvas that is not cut off and in which no subtask
      failed completes every node; no run of one deadlocks unless a subtask failed. */
  method Run(dag: Canvas.Dag, config: Config, env: Env)
    returns (compiled: Result<seq<Canvas.Subtask>, Canvas.Refusal>, result: Option<OrchestrationResult>)
    ensures compiled.Success? <==> Canvas.Acceptable(dag)
    ensures compiled.Success? <==> result.Some?
    ensures result.Some? && config.maxConcurrency >= 1 && result.value.errorCode == Some("dependency_deadlock") ==>
              WithStatus(result.value.subtaskResults, TaskStatus.Failed) != {}
    ensures && result.Some? && config.maxConcurrency >= 1
            && Undisturbed(result.value.status, result.value.errorCode)
            && WithStatus(result.value.subtaskResults, TaskStatus.Failed) == {}
            ==> && Canvas.Acceptable(dag) && result.value.status.Completed?
                && EveryNodeCompleted(dag.nodes.value, result.value.subtaskResults)
    ensures result.Some? && config.maxConcurrency >= 1 && Calm(config, env) ==>
              && Canvas.Acceptable(dag)
              && (|| result.value.status.BudgetExceeded?
                  || (&& result.value.status.Completed?
                      && EveryNodeCompleted(dag.nodes.value, result.value.subtaskResults)))
  {
    compiled := Canvas.FromDag(dag);
    if compiled.Failure? {
      return compiled, None;
    }
    var subtasks := compiled.value;
    var report, trace, turns := Execute(subtasks, config, env);
    result := Some(report);
    if config.maxConcurrency >= 1 {
      RunFacts(dag, subtasks, config, env, trace, turns, report);
    }
  }

  lemma {:induction false} RunFacts(
      dag: Canvas.Dag, subtasks: seq<Canvas.Subtask>, config: Config, env: Env, trace: seq<Action>, turns: nat,
      r: OrchestrationResult)
    requires Canvas.Acceptable(dag) && CompiledFrom(dag.nodes.value, dag.edges.value, subtasks)
    requires var g, rules := TaskGraph(subtasks), RulesOf(config, env, subtasks);
             && Legal(g, rules, trace) && r.subtaskResults == After(g, trace).results
             && Ended(g, rules, config.totalTimeout, env, trace, turns, r.status, r.errorCode)
    requires config.maxConcurrency >= 1
    ensures r.errorCode == Some("dependency_deadlock") ==> WithStatus(r.subtaskResults, TaskStatus.Failed) != {}
    ensures Undisturbed(r.status, r.errorCode) && WithStatus(r.subtaskResults, TaskStatus.Failed) == {} ==>
              r.status.Completed? && EveryNodeCompleted(dag.nodes.value, r.subtaskResults)
    ensures Calm(config, env) && !r.status.BudgetExceeded? ==>
              r.status.Completed? && EveryNodeCompleted(dag.nodes.value, r.subtaskResults)
  {
    hide Legal, After, Ended, WithStatus, EveryNodeCompleted, AllCompleted, HasCycle;
    var nodes, edges := dag.nodes.value, dag.edges.value;
    var g, rules := TaskGraph(subtasks), RulesOf(config, env, subtasks);
    AcceptedIsRunnable(nodes, edges, subtasks);
    if r.errorCode == Some("dependency_deadlock") {
      AcyclicDeadlockNeedsFailure(g, rules, config.totalTimeout, env, trace, turns, r.status);
    }
    if Undisturbed(r.status, r.errorCode) && WithStatus(r.subtaskResults, TaskStatus.Failed) == {} {
      FailureFreeRunCompletes(g, rules, config.totalTimeout, env, trace, turns, r.status, r.errorCode);
      NodesComplete(nodes, edges, subtasks, r.subtaskResults);
    }
    if Calm(config, env) && !r.status.BudgetExceeded? {
      CalmRunCompletes(g, rules, config, env, trace, turns, r.status, r.errorCode);
      NodesComplete(nodes, edges, subtasks, r.subtaskResults);
    }
  }
}
