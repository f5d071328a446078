/** What a run of the scheduler may do, as a transition system over starts and finishes.

    `Legal` says which sequences of actions a run may show; everything below is proved about every
    legal sequence. Orchestrator.ExecuteDag is proved to produce only legal ones. */
module TaskSchedule {
  import opened DependencyGraph
  import opened Wrappers

  datatype TaskStatus = Completed | Failed | Cancelled | Skipped

  datatype SubtaskResult = SubtaskResult(taskId: string, status: TaskStatus, output: string, tokenUsage: nat)

  datatype FailurePolicy = FailFast | Skip | RetryOnce

  datatype Action = Start(id: string) | Finish(result: SubtaskResult)

  type ReturnedStatus = s: TaskStatus | s != Skipped witness Completed

  /** What awaiting a subtask gives. */
  datatype Outcome =
    | Returns(status: ReturnedStatus, output: string, tokenUsage: nat)
    | RaisesCancelled
    | RaisesError

  /** The rules of a run: its configuration, and what each subtask comes to when it is run. */
  datatype Rules = Rules(concurrency: nat, policy: FailurePolicy, budget: Option<int>, outcome: string -> Outcome)

  /** Where every task stands. `results` is in the order in which the tasks finished. */
  datatype Board = Board(
    pending: set<string>,
    running: set<string>,
    completed: set<string>,
    failed: set<string>,
    cancelled: set<string>,
    results: seq<SubtaskResult>,
    tokens: nat)

  function Initial(g: Graph<string>): Board {
    Board(g.Keys, {}, {}, {}, {}, [], 0)
  }

  predicate BudgetLeft(budget: Option<int>, tokens: nat) {
    budget.Some? ==> tokens < budget.value
  }

  predicate Enabled(g: Graph<string>, rules: Rules, b: Board, a: Action) {
    && b.cancelled == {}
    && (rules.policy == FailFast ==> b.failed == {})
    && match a
       case Start(id) =>
         && id in b.pending && Deps(g, id) <= b.completed
         && |b.running| < rules.concurrency && BudgetLeft(rules.budget, b.tokens)
       case Finish(r) =>
         && r.taskId in b.running && r.status != Skipped
         && rules.outcome(r.taskId) == Returns(r.status, r.output, r.tokenUsage)
  }

  function Step(b: Board, a: Action): Board {
    match a
    case Start(id) => b.(pending := b.pending - {id}, running := b.running + {id})
    case Finish(r) =>
      var b' := b.(running := b.running - {r.taskId}, results := b.results + [r]);
      match r.status
      case Completed => b'.(completed := b.completed + {r.taskId}, tokens := b.tokens + r.tokenUsage)
      case Failed => b'.(failed := b.failed + {r.taskId})
      case Cancelled => b'.(cancelled := b.cancelled + {r.taskId})
      case Skipped => b'
  }

  function After(g: Graph<string>, tr: seq<Action>): Board {
    if tr == [] then Initial(g) else Step(After(g, tr[..|tr| - 1]), tr[|tr| - 1])
  }

  predicate Legal(g: Graph<string>, rules: Rules, tr: seq<Action>) {
    tr == [] ||
    (Legal(g, rules, tr[..|tr| - 1]) && Enabled(g, rules, After(g, tr[..|tr| - 1]), tr[|tr| - 1]))
  }

  lemma {:induction false} LegalAppend(g: Graph<string>, rules: Rules, tr: seq<Action>, a: Action)
    requires Legal(g, rules, tr) && Enabled(g, rules, After(g, tr), a)
    ensures Legal(g, rules, tr + [a]) && After(g, tr + [a]) == Step(After(g, tr), a)
  {
    hide Step, Enabled;
    assert (tr + [a])[..|tr|] == tr;
  }

  lemma {:induction false} LegalPrefix(g: Graph<string>, rules: Rules, tr: seq<Action>, n: nat)
    requires Legal(g, rules, tr) && n <= |tr|
    ensures Legal(g, rules, tr[..n])
  {
    if n < |tr| {
      LegalPrefix(g, rules, tr[..|tr| - 1], n);
      assert tr[..|tr| - 1][..n] == tr[..n];
    } else {
      assert tr[..n] == tr;
    }
  }

  lemma {:induction false} LegalAt(g: Graph<string>, rules: Rules, tr: seq<Action>, i: nat)
    requires Legal(g, rules, tr) && i < |tr|
    ensures Enabled(g, rules, After(g, tr[..i]), tr[i])
  {
    if i < |tr| - 1 {
      LegalAt(g, rules, tr[..|tr| - 1], i);
      assert tr[..|tr| - 1][..i] == tr[..i];
    }
  }

  // ----- What holds after every legal sequence -----

  function CompletedTokens(rs: seq<SubtaskResult>): nat {
    if rs == [] then 0
    else
      var r := rs[|rs| - 1];
      CompletedTokens(rs[..|rs| - 1]) + if r.status == Completed then r.tokenUsage else 0
  }

  /** The tokens of completed results add up, and no others count. */
  lemma {:induction false} CompletedTokensRead(a: seq<SubtaskResult>, b: seq<SubtaskResult>, r: SubtaskResult)
    ensures CompletedTokens([r]) == if r.status == Completed then r.tokenUsage else 0
    ensures CompletedTokens(a + b) == CompletedTokens(a) + CompletedTokens(b)
  {
    assert [r][..0] == [];
    if b == [] {
      assert a + b == a;
    } else {
      assert (a + b)[..|a + b| - 1] == a + b[..|b| - 1];
      CompletedTokensRead(a, b[..|b| - 1], r);
    }
  }

  /** The tasks with a result of the given status. */
  function WithStatus(rs: seq<SubtaskResult>, s: TaskStatus): set<string> {
    if rs == [] then {}
    else
      var r := rs[|rs| - 1];
      WithStatus(rs[..|rs| - 1], s) + if r.status == s then {r.taskId} else {}
  }

  lemma {:induction false} WithStatusMeaning(rs: seq<SubtaskResult>, s: TaskStatus, t: string)
    ensures t in WithStatus(rs, s) <==> exists r :: r in rs && r.taskId == t && r.status == s
  {
    if rs != [] {
      WithStatusMeaning(rs[..|rs| - 1], s, t);
      assert rs == rs[..|rs| - 1] + [rs[|rs| - 1]];
    }
  }

  function ResultIds(rs: seq<SubtaskResult>): set<string> {
    set r | r in rs :: r.taskId
  }

  ghost predicate OnePerTask(rs: seq<SubtaskResult>) {
    forall i, j :: 0 <= i < j < |rs| ==> rs[i].taskId != rs[j].taskId
  }

  /** The completed tasks in the order in which they completed. */
  ghost function CompletionOrder(rs: seq<SubtaskResult>): seq<string> {
    if rs == [] then []
    else
      var r := rs[|rs| - 1];
      CompletionOrder(rs[..|rs| - 1]) + if r.status == Completed then [r.taskId] else []
  }

  /** In how many of the five sets a task is. */
  function Places(b: Board, t: string): nat {
    (if t in b.pending then 1 else 0) + (if t in b.running then 1 else 0) + (if t in b.completed then 1 else 0)
    + (if t in b.failed then 1 else 0) + (if t in b.cancelled then 1 else 0)
  }

  /** The five sets partition the tasks. */
  ghost predicate Partition(g: Graph<string>, b: Board) {
    forall t :: Places(b, t) == if t in g then 1 else 0
  }

  /** The results name exactly the tasks that came to an end, each once and under its status. */
  ghost predicate ResultsAgree(b: Board) {
    && OnePerTask(b.results)
    && WithStatus(b.results, Completed) == b.completed
    && WithStatus(b.results, Failed) == b.failed
    && WithStatus(b.results, Cancelled) == b.cancelled
    && WithStatus(b.results, Skipped) == {}
    && b.tokens == CompletedTokens(b.results)
  }

  /** A task that ever started has all its dependencies completed, and the completed tasks are
      topologically ordered by the time of their completion. */
  ghost predicate DependenciesFirst(g: Graph<string>, b: Board) {
    && (forall t :: t in b.running + b.failed + b.cancelled ==> Deps(g, t) <= b.completed)
    && TopoOrder(g, CompletionOrder(b.results))
    && Elems(CompletionOrder(b.results)) == b.completed
  }

  ghost predicate Sound(g: Graph<string>, rules: Rules, b: Board) {
    Partition(g, b) && ResultsAgree(b) && DependenciesFirst(g, b) && |b.running| <= rules.concurrency
  }

  lemma {:induction false} AppendResult(rs: seq<SubtaskResult>, r: SubtaskResult)
    ensures CompletedTokens(rs + [r]) == CompletedTokens(rs) + if r.status == Completed then r.tokenUsage else 0
    ensures CompletionOrder(rs + [r]) == CompletionOrder(rs) + if r.status == Completed then [r.taskId] else []
  {
    assert (rs + [r])[..|rs|] == rs;
  }

  lemma {:induction false} AppendStatus(rs: seq<SubtaskResult>, r: SubtaskResult, s: TaskStatus)
    ensures WithStatus(rs + [r], s) == WithStatus(rs, s) + if r.status == s then {r.taskId} else {}
  {
    assert (rs + [r])[..|rs|] == rs;
  }

  /** A step moves one task from one set to another. */
  lemma {:induction false} StepMoves(g: Graph<string>, rules: Rules, b: Board, a: Action, t: string)
    requires Enabled(g, rules, b, a) && Places(b, t) <= 1
    requires Places(b, if a.Start? then a.id else a.result.taskId) == 1
    ensures Places(Step(b, a), t) == Places(b, t)
  {
  }

  lemma {:induction false} StepPartition(g: Graph<string>, rules: Rules, b: Board, a: Action)
    requires Partition(g, b) && Enabled(g, rules, b, a)
    ensures Partition(g, Step(b, a))
  {
    var id := if a.Start? then a.id else a.result.taskId;
    assert Places(b, id) == if id in g then 1 else 0;
    hide Step;
    forall t
      ensures Places(Step(b, a), t) == if t in g then 1 else 0
    {
      assert Places(b, t) == if t in g then 1 else 0;
      StepMoves(g, rules, b, a, t);
    }
  }

  lemma {:induction false} StepKeepsCap(g: Graph<string>, rules: Rules, b: Board, a: Action)
    requires |b.running| <= rules.concurrency && Enabled(g, rules, b, a)
    ensures |Step(b, a).running| <= rules.concurrency
  {
  }

  lemma {:induction false} NoResultYet(g: Graph<string>, b: Board, t: string)
    requires Partition(g, b) && ResultsAgree(b) && t in b.pending + b.running
    ensures forall r :: r in b.results ==> r.taskId != t
  {
    assert Places(b, t) <= 1;
    forall r | r in b.results
      ensures r.taskId != t
    {
      WithStatusMeaning(b.results, r.status, t);
    }
  }

  lemma {:induction false} StepResults(g: Graph<string>, rules: Rules, b: Board, a: Action)
    requires Partition(g, b) && ResultsAgree(b) && Enabled(g, rules, b, a)
    ensures ResultsAgree(Step(b, a))
  {
    hide WithStatus, CompletedTokens, CompletionOrder, Partition;
    if a.Finish? {
      var r := a.result;
      AppendResult(b.results, r);
      AppendStatus(b.results, r, Completed);
      AppendStatus(b.results, r, Failed);
      AppendStatus(b.results, r, Cancelled);
      AppendStatus(b.results, r, Skipped);
      NoResultYet(g, b, r.taskId);
    }
  }

  lemma {:induction false} StepDependencies(g: Graph<string>, rules: Rules, b: Board, a: Action)
    requires DependenciesFirst(g, b) && Enabled(g, rules, b, a)
    ensures DependenciesFirst(g, Step(b, a))
  {
    if a.Finish? {
      var r, order := a.result, CompletionOrder(b.results);
      AppendResult(b.results, r);
      if r.status == Completed {
        TopoAppend(g, order, r.taskId);
        ElemsAppend(order, r.taskId);
      } else {
        assert order + [] == order;
      }
    }
  }

  /** Every legal run keeps the partition, the results, the dependency order and the concurrency cap. */
  lemma {:induction false} LegalIsSound(g: Graph<string>, rules: Rules, tr: seq<Action>)
    requires Legal(g, rules, tr)
    ensures Sound(g, rules, After(g, tr))
  {
    if tr == [] {
    } else {
      var shorter := tr[..|tr| - 1];
      LegalIsSound(g, rules, shorter);
      var b, a := After(g, shorter), tr[|tr| - 1];
      hide Legal, After, Enabled, Step, Partition, ResultsAgree, DependenciesFirst;
      StepPartition(g, rules, b, a);
      StepKeepsCap(g, rules, b, a);
      StepResults(g, rules, b, a);
      StepDependencies(g, rules, b, a);
    }
  }

  /** Every recorded result is what its subtask returned. */
  lemma {:induction false} ResultsAreReturned(g: Graph<string>, rules: Rules, tr: seq<Action>)
    requires Legal(g, rules, tr)
    ensures forall r :: r in After(g, tr).results ==>
              r.status != Skipped && rules.outcome(r.taskId) == Returns(r.status, r.output, r.tokenUsage)
  {
    if tr != [] {
      ResultsAreReturned(g, rules, tr[..|tr| - 1]);
    }
  }

  lemma {:induction false} LeavesPending(g: Graph<string>, tr: seq<Action>, i: nat, id: string)
    requires i < |tr| && tr[i] == Start(id)
    ensures id !in After(g, tr).pending
  {
    if i < |tr| - 1 {
      LeavesPending(g, tr[..|tr| - 1], i, id);
    }
  }

  lemma {:induction false} CompletedHasFinish(g: Graph<string>, tr: seq<Action>, d: string) returns (k: nat)
    requires d in After(g, tr).completed
    ensures k < |tr| && tr[k].Finish? && tr[k].result.taskId == d && tr[k].result.status == Completed
  {
    if d in After(g, tr[..|tr| - 1]).completed {
      k := CompletedHasFinish(g, tr[..|tr| - 1], d);
    } else {
      k := |tr| - 1;
    }
  }

  /** A task starts at most once, below the concurrency cap and the budget, and only after each of
      its dependencies finished with COMPLETED. */
  lemma {:induction false} StartsAreGuarded(g: Graph<string>, rules: Rules, tr: seq<Action>, i: nat)
    requires Legal(g, rules, tr) && i < |tr| && tr[i].Start?
    ensures forall j :: 0 <= j < |tr| && j != i ==> tr[j] != tr[i]
    ensures |After(g, tr[..i]).running| < rules.concurrency
    ensures BudgetLeft(rules.budget, After(g, tr[..i]).tokens)
    ensures forall d :: d in Deps(g, tr[i].id) ==>
              exists k :: 0 <= k < i && tr[k].Finish? && tr[k].result.taskId == d && tr[k].result.status == Completed
  {
    LegalAt(g, rules, tr, i);
    forall j | 0 <= j < |tr| && j != i
      ensures tr[j] != tr[i]
    {
      var lo, hi := if i < j then i else j, if i < j then j else i;
      if tr[lo] == tr[hi] {
        LegalAt(g, rules, tr, hi);
        LeavesPending(g, tr[..hi], lo, tr[i].id);
      }
    }
    forall d | d in Deps(g, tr[i].id)
      ensures exists k :: 0 <= k < i && tr[k].Finish? && tr[k].result.taskId == d && tr[k].result.status == Completed
    {
      var k := CompletedHasFinish(g, tr[..i], d);
      assert tr[..i][k] == tr[k];
    }
  }

  // ----- Token budget -----

  ghost predicate UsageAtMost(rs: seq<SubtaskResult>, max: nat) {
    forall r :: r in rs ==> r.tokenUsage <= max
  }

  lemma {:induction false} StartBound(tokens: nat, running: nat, cap: nat, max: nat, budget: int)
    requires tokens < budget && running <= cap
    ensures tokens + running * max <= budget - 1 + cap * max
  {
    assert running * max + (cap - running) * max == cap * max;
  }

  lemma {:induction false} NonNegative(running: nat, max: nat)
    ensures running * max >= 0
  {
  }

  lemma {:induction false} FinishBound(tokens: nat, usage: nat, running: nat, max: nat, bound: int)
    requires tokens + running * max <= bound && usage <= max && running >= 1
    ensures tokens + usage + (running - 1) * max <= bound
  {
    assert (running - 1) * max + max == running * max;
  }

  lemma {:induction false} FinishStep(b: Board, r: SubtaskResult, max: nat)
    requires r.taskId in b.running
    ensures var b' := Step(b, Finish(r));
            b'.tokens + |b'.running| * max <= b.tokens + r.tokenUsage + (|b.running| - 1) * max
  {
  }

  /** What the running tasks can still add keeps the total below the budget plus one cap's worth of tasks. */
  lemma {:induction false} TokensPlusRunning(g: Graph<string>, rules: Rules, tr: seq<Action>, max: nat)
    requires Legal(g, rules, tr) && UsageAtMost(After(g, tr).results, max)
    requires rules.budget.Some? && rules.budget.value > 0
    ensures var b := After(g, tr);
            b.tokens + |b.running| * max <= rules.budget.value - 1 + rules.concurrency * max
  {
    if tr == [] {
      assert rules.concurrency * max >= 0;
    } else {
      var shorter, a := tr[..|tr| - 1], tr[|tr| - 1];
      var b := After(g, shorter);
      assert |After(g, tr).running| <= rules.concurrency by {
        LegalIsSound(g, rules, tr);
      }
      if a.Start? {
        StartBound(After(g, tr).tokens, |After(g, tr).running|, rules.concurrency, max, rules.budget.value);
      } else {
        var r := a.result;
        assert After(g, tr).results == b.results + [r];
        TokensPlusRunning(g, rules, shorter, max);
        FinishBound(b.tokens, r.tokenUsage, |b.running|, max, rules.budget.value - 1 + rules.concurrency * max);
        FinishStep(b, r, max);
      }
    }
  }

  /** The total never exceeds B - 1 by more than one task per concurrency slot. */
  lemma {:induction false} BudgetOvershoot(g: Graph<string>, rules: Rules, tr: seq<Action>, max: nat)
    requires Legal(g, rules, tr) && UsageAtMost(After(g, tr).results, max)
    requires rules.budget.Some? && rules.budget.value > 0
    ensures After(g, tr).tokens <= rules.budget.value - 1 + rules.concurrency * max
  {
    TokensPlusRunning(g, rules, tr, max);
    NonNegative(|After(g, tr).running|, max);
  }

  // ----- Deadlock -----

  /** Following dependencies from `t` leads to a failed task, to an unknown id or into a cycle. */
  ghost predicate Blocked(g: Graph<string>, failed: set<string>, t: string) {
    exists p :: BlockingPath(g, failed, t, p)
  }

  ghost predicate BlockingPath(g: Graph<string>, failed: set<string>, t: string, p: seq<string>) {
    && |p| >= 2 && p[0] == t && IsPath(g, p)
    && (p[|p| - 1] in failed || p[|p| - 1] !in g || HasRepeat(p))
  }

  /** Nothing runs and no pending task has all its dependencies completed. */
  ghost predicate Stuck(g: Graph<string>, b: Board) {
    b.running == {} && b.cancelled == {} && forall t :: t in b.pending ==> !(Deps(g, t) <= b.completed)
  }

  /** Walking along unsatisfied dependencies from a stuck task ends at a blocker. */
  lemma {:induction false} StuckIsBlocked(g: Graph<string>, b: Board, p: seq<string>)
    requires Partition(g, b) && Stuck(g, b)
    requires |p| >= 1 && IsPath(g, p) && Elems(p) <= b.pending
    ensures Blocked(g, b.failed, p[0])
    decreases |b.pending| + 1 - |p|
  {
    var last := p[|p| - 1];
    assert last in Elems(p);
    var d :| d in Deps(g, last) && d !in b.completed;
    var q := p + [d];
    assert Places(b, d) <= 1;
    if |p| > |b.pending| {
      Pigeonhole(p, b.pending);
      var i, j :| 0 <= i < j < |p| && p[i] == p[j];
      assert q[i] == q[j];
      assert BlockingPath(g, b.failed, p[0], q);
    } else if d in b.pending {
      ElemsAppend(p, d);
      StuckIsBlocked(g, b, q);
    } else {
      assert BlockingPath(g, b.failed, p[0], q);
    }
  }

  /** A task whose dependencies all completed is not blocked. */
  lemma {:induction false} StartableIsNotBlocked(g: Graph<string>, rules: Rules, b: Board, t: string)
    requires Sound(g, rules, b) && Deps(g, t) <= b.completed
    ensures !Blocked(g, b.failed, t)
  {
    var order := CompletionOrder(b.results);
    forall p | |p| >= 2 && p[0] == t && IsPath(g, p)
      ensures !BlockingPath(g, b.failed, t, p)
    {
      var longer := order + [t];
      TopoAppend(g, order, t);
      OrderForbidsRepeat(g, longer, p);
      PathDescends(g, longer, p, |order|, |p| - 1);
      assert longer[..|order|] == order;
      assert p[|p| - 1] in Elems(order);
    }
  }

  lemma {:induction false} CompletedDependencies(g: Graph<string>, b: Board, t: string)
    requires DependenciesFirst(g, b) && t in b.completed
    ensures Deps(g, t) <= b.completed
  {
    var order := CompletionOrder(b.results);
    hide CompletionOrder;
    assert t in Elems(order);
    var i :| 0 <= i < |order| && order[i] == t;
    assert Elems(order[..i]) <= Elems(order);
  }

  /** The tasks a stuck run leaves behind are exactly the blocked ones. */
  lemma {:induction false} DeadlockIsExact(g: Graph<string>, rules: Rules, b: Board)
    requires Sound(g, rules, b) && Stuck(g, b)
    ensures forall t :: t in g ==> (t in b.pending <==> Blocked(g, b.failed, t))
  {
    forall t | t in g
      ensures t in b.pending <==> Blocked(g, b.failed, t)
    {
      assert Places(b, t) == 1;
      if t in b.pending {
        StuckIsBlocked(g, b, [t]);
      } else if t in b.completed {
        CompletedDependencies(g, b, t);
        StartableIsNotBlocked(g, rules, b, t);
      } else {
        StartableIsNotBlocked(g, rules, b, t);
      }
    }
  }

  /** Without a cycle, an unknown id and a failure nothing is blocked. */
  lemma {:induction false} AcyclicIsNeverBlocked(g: Graph<string>, t: string)
    requires !HasCycle(g) && forall n, d :: n in g && d in g[n] ==> d in g
    ensures !Blocked(g, {}, t)
  {
    forall p | |p| >= 2 && IsPath(g, p)
      ensures !BlockingPath(g, {}, t, p)
    {
      if HasRepeat(p) {
        RepeatGivesCycle(g, p);
      }
      assert p[(|p| - 2) + 1] in Deps(g, p[|p| - 2]);
    }
  }
}
