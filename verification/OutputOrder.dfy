/** Which output a completed multi-agent run reports (app/multi_agent/orchestrator.py): the source means the last
    task in topological order, and takes the last one listed. */
module OutputOrder {
  import opened DependencyGraph
  import opened TaskSchedule
  import opened Orchestrator
  import Canvas
  import CanvasRun

  /** The task can be the last one of the completed tasks in a topological order of them. */
  ghost predicate CanBeLast(g: Graph<string>, completed: set<string>, t: string) {
    t in completed && exists order :: TopoOrder(g, order + [t]) && Elems(order) == completed - {t}
  }

  /** No completed task depends on it. */
  ghost predicate Unneeded(g: Graph<string>, completed: set<string>, t: string) {
    forall n :: n in completed ==> t !in Deps(g, n)
  }

  ghost function Without(order: seq<string>, t: string): seq<string> {
    if order == [] then []
    else
      var last := order[|order| - 1];
      Without(order[..|order| - 1], t) + if last == t then [] else [last]
  }

  lemma {:induction false} WithoutKeepsOrder(g: Graph<string>, order: seq<string>, t: string)
    requires TopoOrder(g, order) && Unneeded(g, Elems(order), t)
    ensures TopoOrder(g, Without(order, t)) && Elems(Without(order, t)) == Elems(order) - {t}
  {
    if order != [] {
      var shorter, last := order[..|order| - 1], order[|order| - 1];
      assert order == shorter + [last];
      ElemsAppend(shorter, last);
      PrefixIsTopological(g, order, |order| - 1);
      WithoutKeepsOrder(g, shorter, t);
      if last != t {
        assert last in Elems(order);
        TopoAppend(g, Without(shorter, t), last);
        ElemsAppend(Without(shorter, t), last);
      } else {
        assert Without(order, t) == Without(shorter, t);
      }
    }
  }

  lemma {:induction false} PrefixIsTopological(g: Graph<string>, order: seq<string>, n: nat)
    requires TopoOrder(g, order) && n <= |order|
    ensures TopoOrder(g, order[..n])
  {
    forall i | 0 <= i < n
      ensures Deps(g, order[..n][i]) <= Elems(order[..n][..i])
    {
      assert order[..n][..i] == order[..i];
    }
  }

  /** A completed task can be the last one exactly if no completed task depends on it. */
  lemma {:induction false} LastIffUnneeded(g: Graph<string>, order: seq<string>, t: string)
    requires TopoOrder(g, order) && t in Elems(order)
    ensures CanBeLast(g, Elems(order), t) <==> Unneeded(g, Elems(order), t)
  {
    var completed := Elems(order);
    if CanBeLast(g, completed, t) {
      var before :| TopoOrder(g, before + [t]) && Elems(before) == completed - {t};
      forall n | n in completed
        ensures t !in Deps(g, n)
      {
        NeedsOnlyBefore(g, before, t, n);
      }
    }
    if Unneeded(g, completed, t) {
      WithoutKeepsOrder(g, order, t);
      var before := Without(order, t);
      var i :| 0 <= i < |order| && order[i] == t;
      assert Elems(order[..i]) <= completed;
      TopoAppend(g, before, t);
    }
  }

  lemma {:induction false} NeedsOnlyBefore(g: Graph<string>, before: seq<string>, t: string, n: string)
    requires TopoOrder(g, before + [t]) && t !in Elems(before) && n in Elems(before) + {t}
    ensures t !in Deps(g, n)
  {
    var order := before + [t];
    assert order[..|before|] == before;
    if n in Elems(before) {
      var i :| 0 <= i < |before| && before[i] == n;
      assert order[i] == n && order[..i] == before[..i];
      assert Elems(before[..i]) <= Elems(before);
    } else {
      assert order[|before|] == t;
    }
  }

  // ----- The reported output -----

  function Ids(subtasks: seq<Canvas.Subtask>): seq<string> {
    seq(|subtasks|, i requires 0 <= i < |subtasks| => subtasks[i].id)
  }

  ghost predicate DistinctIds(subtasks: seq<Canvas.Subtask>) {
    forall i, j :: 0 <= i < j < |subtasks| ==> subtasks[i].id != subtasks[j].id
  }

  ghost predicate DistinctOutputs(rs: seq<SubtaskResult>) {
    forall r, r' :: r in rs && r' in rs && r.output == r'.output ==> r == r'
  }

  /** The output is the one of a task that can be the last of the completed ones. */
  ghost predicate InOrder(g: Graph<string>, rs: seq<SubtaskResult>, output: string) {
    exists t :: CompletedWith(rs, t, output) && CanBeLast(g, WithStatus(rs, TaskStatus.Completed), t)
  }

  /** If the listing is itself topological, the reported output is in order, whatever completed. */
  lemma {:induction false} TopologicalListing(
      subtasks: seq<Canvas.Subtask>, rules: Rules, trace: seq<Action>, output: string)
    requires DistinctIds(subtasks) && TopoOrder(TaskGraph(subtasks), Ids(subtasks))
    requires Legal(TaskGraph(subtasks), rules, trace)
    requires var rs := After(TaskGraph(subtasks), trace).results;
             IsFinalOutput(subtasks, rs, output) && WithStatus(rs, TaskStatus.Completed) != {}
    ensures InOrder(TaskGraph(subtasks), After(TaskGraph(subtasks), trace).results, output)
  {
    var g, ids := TaskGraph(subtasks), Ids(subtasks);
    var b := After(g, trace);
    LegalIsSound(g, rules, trace);
    hide Legal, After, WithStatus, CompletionOrder, CompletedTokens, OnePerTask, CanBeLast, TaskGraph;
    var i := LastListed(subtasks, rules, trace, output);
    var t := subtasks[i].id;
    CompletedHasStatus(b.results, t, output);
    forall n | n in b.completed
      ensures t !in Deps(g, n)
    {
      var j := Listed(subtasks, rules, trace, n);
      assert ids[j] == n;
    }
    LastIffUnneeded(g, CompletionOrder(b.results), t);
  }

  lemma {:induction false} CompletedHasStatus(rs: seq<SubtaskResult>, t: string, output: string)
    requires CompletedWith(rs, t, output)
    ensures t in WithStatus(rs, TaskStatus.Completed)
  {
    WithStatusMeaning(rs, TaskStatus.Completed, t);
  }

  /** A completed task is a listed one. */
  lemma {:induction false} Listed(
      subtasks: seq<Canvas.Subtask>, rules: Rules, trace: seq<Action>, n: string) returns (j: nat)
    requires Legal(TaskGraph(subtasks), rules, trace)
    requires n in WithStatus(After(TaskGraph(subtasks), trace).results, TaskStatus.Completed)
    ensures j < |subtasks| && subtasks[j].id == n && n in TaskGraph(subtasks)
  {
    var b := After(TaskGraph(subtasks), trace);
    LegalIsSound(TaskGraph(subtasks), rules, trace);
    assert Places(b, n) == if n in TaskGraph(subtasks) then 1 else 0;
    CanvasRun.TaskMapMeaning(subtasks, n);
    j :| 0 <= j < |subtasks| && subtasks[j].id == n;
  }

  /** The subtask whose output is reported: no later one in the listing completed. */
  lemma {:induction false} LastListed(
      subtasks: seq<Canvas.Subtask>, rules: Rules, trace: seq<Action>, output: string) returns (i: nat)
    requires Legal(TaskGraph(subtasks), rules, trace)
    requires var rs := After(TaskGraph(subtasks), trace).results;
             IsFinalOutput(subtasks, rs, output) && WithStatus(rs, TaskStatus.Completed) != {}
    ensures i < |subtasks|
    ensures var rs := After(TaskGraph(subtasks), trace).results;
            && CompletedWith(rs, subtasks[i].id, output)
            && forall j :: i < j < |subtasks| ==> subtasks[j].id !in WithStatus(rs, TaskStatus.Completed)
  {
    hide Legal, After, WithStatus, TaskGraph;
    var rs := After(TaskGraph(subtasks), trace).results;
    var n :| n in WithStatus(rs, TaskStatus.Completed);
    var k := Listed(subtasks, rules, trace, n);
    i :| && 0 <= i < |subtasks| && CompletedWith(rs, subtasks[i].id, output)
         && forall j :: i < j < |subtasks| ==> subtasks[j].id !in WithStatus(rs, TaskStatus.Completed);
  }

  /** When every task completed, the reported output is in order exactly if no task depends on the last listed one. */
  lemma {:induction false} OutputInOrderIff(
      subtasks: seq<Canvas.Subtask>, rules: Rules, trace: seq<Action>, output: string)
    requires subtasks != [] && Legal(TaskGraph(subtasks), rules, trace)
    requires var rs := After(TaskGraph(subtasks), trace).results;
             && IsFinalOutput(subtasks, rs, output) && AllCompleted(TaskGraph(subtasks), rs) && DistinctOutputs(rs)
    ensures InOrder(TaskGraph(subtasks), After(TaskGraph(subtasks), trace).results, output) <==>
            forall n :: n in TaskGraph(subtasks) ==> subtasks[|subtasks| - 1].id !in TaskGraph(subtasks)[n]
  {
    var g := TaskGraph(subtasks);
    var b, last := After(g, trace), subtasks[|subtasks| - 1].id;
    LegalIsSound(g, rules, trace);
    CanvasRun.TaskMapMeaning(subtasks, last);
    assert last in g;
    AllAreCompleted(g, rules, b);
    hide Legal, After, WithStatus, CompletionOrder, CompletedTokens, OnePerTask, CanBeLast, TaskGraph;
    var i := LastListed(subtasks, rules, trace, output);
    assert i == |subtasks| - 1;
    LastIffUnneeded(g, CompletionOrder(b.results), last);
    forall t | CompletedWith(b.results, t, output)
      ensures t == last
    {
    }
  }

  lemma {:induction false} AllAreCompleted(g: Graph<string>, rules: Rules, b: Board)
    requires Sound(g, rules, b) && AllCompleted(g, b.results)
    ensures b.completed == g.Keys
  {
    forall t
      ensures t in b.completed <==> t in g
    {
      assert Places(b, t) == if t in g then 1 else 0;
    }
  }
}
