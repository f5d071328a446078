/** The scheduler of a multi-agent run (app/multi_agent/orchestrator.py).

    Everything asynchronous is an oracle: the cancel flag and the clock as they read on each turn of
    the loop, an interruption of the wait, and what each subtask comes to. Which of the running
    subtasks are found done, and in which order sets are iterated, is left open. */
module Orchestrator {
  import opened DependencyGraph
  import opened TaskSchedule
  import opened Wrappers
  import Canvas

  datatype OrchestrationStatus = Running | Completed | Failed | Cancelled | TimedOut | BudgetExceeded

  datatype Config = Config(
    maxConcurrency: nat,
    failurePolicy: FailurePolicy,
    totalTimeout: Option<int>,
    totalTokenBudget: Option<int>)

  /** `cancelSet(k)`, `elapsed(k)` and `interrupted(k)` are read on the k-th turn of the loop. */
  datatype Env = Env(
    cancelSet: nat -> bool,
    elapsed: nat -> int,
    interrupted: nat -> bool,
    outcome: string -> Outcome)

  datatype Raised = Nothing | CancelledError | OtherError

  /** How a pass over the finished subtasks ends: the loop goes on, returns, or raises. */
  datatype Verdict = GoOn | Return | Raise(raised: Raised)

  datatype OrchestrationResult = OrchestrationResult(
    status: OrchestrationStatus,
    finalOutput: string,
    subtaskResults: seq<SubtaskResult>,
    totalTokenUsage: nat,
    errorCode: Option<string>)

  /** A later subtask with the same id replaces an earlier one. */
  function TaskMap(subtasks: seq<Canvas.Subtask>): map<string, Canvas.Subtask> {
    if subtasks == [] then map[]
    else
      var t := subtasks[|subtasks| - 1];
      TaskMap(subtasks[..|subtasks| - 1])[t.id := t]
  }

  function TaskGraph(subtasks: seq<Canvas.Subtask>): Graph<string> {
    var m := TaskMap(subtasks);
    map id | id in m :: Elems(m[id].dependsOn)
  }

  function RulesOf(config: Config, env: Env, subtasks: seq<Canvas.Subtask>): Rules {
    Rules(if config.maxConcurrency < |subtasks| then config.maxConcurrency else |subtasks|,
          config.failurePolicy, config.totalTokenBudget, env.outcome)
  }

  /** Assignment into the insertion-ordered dictionary of results. */
  function Put(rs: seq<SubtaskResult>, r: SubtaskResult): seq<SubtaskResult> {
    if rs == [] then [r]
    else if rs[0].taskId == r.taskId then [r] + rs[1..]
    else [rs[0]] + Put(rs[1..], r)
  }

  lemma {:induction false} PutFresh(rs: seq<SubtaskResult>, r: SubtaskResult)
    requires forall x :: x in rs ==> x.taskId != r.taskId
    ensures Put(rs, r) == rs + [r]
  {
    if rs != [] {
      PutFresh(rs[1..], r);
    }
  }

  lemma {:induction false} FinishOne(g: Graph<string>, rules: Rules, tr: seq<Action>, r: SubtaskResult)
    requires Legal(g, rules, tr) && Enabled(g, rules, After(g, tr), Finish(r))
    ensures Legal(g, rules, tr + [Finish(r)]) && After(g, tr + [Finish(r)]) == Step(After(g, tr), Finish(r))
    ensures Put(After(g, tr).results, r) == After(g, tr).results + [r]
  {
    LegalIsSound(g, rules, tr);
    NoResultYet(g, After(g, tr), r.taskId);
    PutFresh(After(g, tr).results, r);
    LegalAppend(g, rules, tr, Finish(r));
  }

  lemma {:induction false} Disjoint(g: Graph<string>, rules: Rules, tr: seq<Action>)
    requires Legal(g, rules, tr)
    ensures After(g, tr).completed !! After(g, tr).failed
    ensures After(g, tr).pending <= g.Keys
    ensures After(g, tr).pending !! After(g, tr).running
  {
    LegalIsSound(g, rules, tr);
    assert forall t :: Places(After(g, tr), t) == if t in g then 1 else 0;
    forall t
      ensures !(t in After(g, tr).completed && t in After(g, tr).failed)
      ensures t in After(g, tr).pending ==> t in g && t !in After(g, tr).running
    {
      assert Places(After(g, tr), t) == if t in g then 1 else 0;
    }
  }

  /** Why and where the loop returned in its turn number `turn`. */
  ghost predicate Exit(g: Graph<string>, rules: Rules, totalTimeout: Option<int>, env: Env, b: Board, turn: nat,
                       status: OrchestrationStatus, code: Option<string>)
  {
    && (rules.policy == FailFast && b.failed != {} ==> status.Failed? && code == Some("subtask_failed"))
    && match status
    case Running => false
    case Completed =>
      && code == None && b.pending == {} && b.running == {} && b.cancelled == {}
      && (b.failed == {} || rules.policy == Skip)
    case Failed =>
      || (&& code == Some("dependency_deadlock") && b.pending != {} && b.running == {} && b.cancelled == {}
          && (rules.concurrency >= 1 ==> Stuck(g, b)))
      || (&& code == Some("subtask_failed") && b.failed != {} && rules.policy != Skip
          && (rules.policy == RetryOnce ==> b.pending == {} && b.running == {} && b.cancelled == {}))
    case Cancelled =>
      code == Some("cancelled") && (env.cancelSet(turn) || b.cancelled != {})
    case TimedOut =>
      code == Some("timeout") && totalTimeout.Some? && env.elapsed(turn) >= totalTimeout.value
    case BudgetExceeded =>
      code == Some("budget_exceeded") && !BudgetLeft(rules.budget, b.tokens)
  }

  /** An exception comes out of the loop only if the wait was interrupted or a running subtask raised it. */
  ghost predicate Provoked(rules: Rules, env: Env, b: Board, turn: nat, raised: Raised) {
    && (rules.policy == FailFast ==> b.failed == {})
    && match raised
    case Nothing => false
    case CancelledError => env.interrupted(turn) || exists id :: id in b.running && env.outcome(id) == RaisesCancelled
    case OtherError => exists id :: id in b.running && env.outcome(id) == RaisesError
  }

  /** Every slot is taken, or no pending task has all its dependencies completed. */
  ghost predicate Full(g: Graph<string>, slots: nat, b: Board) {
    |b.running| >= slots || forall t :: t in b.pending ==> !(Deps(g, t) <= b.completed)
  }

  /** Whenever starts gave way to a finish, no further start was possible. */
  ghost predicate EagerSoFar(g: Graph<string>, slots: nat, trace: seq<Action>) {
    forall i :: 0 <= i < |trace| - 1 && trace[i].Start? && trace[i + 1].Finish? ==>
      Full(g, slots, After(g, trace[..i + 1]))
  }

  /** The same for starts at the end. */
  ghost predicate EagerAtEnd(g: Graph<string>, slots: nat, trace: seq<Action>) {
    trace != [] && trace[|trace| - 1].Start? ==> Full(g, slots, After(g, trace))
  }

  lemma {:induction false} EagerAppend(g: Graph<string>, slots: nat, trace: seq<Action>, a: Action)
    requires EagerSoFar(g, slots, trace) && (a.Finish? ==> EagerAtEnd(g, slots, trace))
    ensures EagerSoFar(g, slots, trace + [a]) && (a.Finish? ==> EagerAtEnd(g, slots, trace + [a]))
  {
    hide Full, After;
    var longer := trace + [a];
    forall i | 0 <= i < |longer| - 1 && longer[i].Start? && longer[i + 1].Finish?
      ensures Full(g, slots, After(g, longer[..i + 1]))
    {
      assert longer[..i + 1] == trace[..i + 1];
      if i == |trace| - 1 {
        assert trace[..i + 1] == trace;
      } else {
        assert trace[i].Start? && trace[i + 1].Finish?;
      }
    }
  }

  /** The orchestration state together with the sets that the scheduling loop updates. `trace`
      records the starts and finishes, as the lifecycle events announce them. */
  class Scheduler {
    const g: Graph<string>
    const rules: Rules
    const totalTimeout: Option<int>
    const env: Env

    var status: OrchestrationStatus
    var results: seq<SubtaskResult>
    var totalTokenUsage: nat
    var errorCode: Option<string>
    var pending: set<string>
    var inProgress: set<string>
    var completed: set<string>
    var failed: set<string>
    var trace: seq<Action>
    var turn: nat

    constructor (subtasks: seq<Canvas.Subtask>, config: Config, env: Env)
      ensures g == TaskGraph(subtasks) && rules == RulesOf(config, env, subtasks)
      ensures totalTimeout == config.totalTimeout && this.env == env
      ensures Valid() && Fed() && status == Running && errorCode == None && turn == 0
    {
      g, rules := TaskGraph(subtasks), RulesOf(config, env, subtasks);
      totalTimeout, this.env := config.totalTimeout, env;
      status, results, totalTokenUsage, errorCode := Running, [], 0, None;
      pending, inProgress, completed, failed, trace, turn := TaskMap(subtasks).Keys, {}, {}, {}, [], 0;
    }

    /** Every slot is taken, or no pending task has all its dependencies completed. */
    ghost predicate Saturated()
      reads this
    {
      |inProgress| >= rules.concurrency || forall t :: t in pending ==> !(Deps(g, t) <= completed)
    }

    /** If the last thing done was a start, no further start was possible. */
    ghost predicate Fed()
      reads this
    {
      EagerAtEnd(g, rules.concurrency, trace)
    }

    /** Turn k found neither a cancellation nor a timeout. */
    ghost predicate Unstopped(k: nat) {
      !env.cancelSet(k) && !(totalTimeout.Some? && env.elapsed(k) >= totalTimeout.value)
    }

    /** The trace is legal and accounts for the recorded results and tokens. */
    ghost predicate Recorded()
      reads this
    {
      && Legal(g, rules, trace) && EagerSoFar(g, rules.concurrency, trace)
      && results == After(g, trace).results
      && totalTokenUsage == After(g, trace).tokens
    }

    ghost predicate Valid()
      reads this
    {
      && Legal(g, rules, trace) && EagerSoFar(g, rules.concurrency, trace)
      && After(g, trace) == Board(pending, inProgress, completed, failed, {}, results, totalTokenUsage)
      && (rules.policy == FailFast ==> failed == {})
      && rules.outcome == env.outcome
    }

    method StartOne(id: string)
      requires Valid() && Enabled(g, rules, After(g, trace), Start(id))
      modifies this`pending, this`inProgress, this`trace
      ensures Valid() && pending == old(pending) - {id} && inProgress == old(inProgress) + {id}
    {
      hide Legal, After, EagerSoFar;
      LegalAppend(g, rules, trace, Start(id));
      EagerAppend(g, rules.concurrency, trace, Start(id));
      pending, inProgress, trace := pending - {id}, inProgress + {id}, trace + [Start(id)];
    }

    /** Starts ready tasks while there is room: afterwards every slot is taken or every ready task runs. */
    method StartReady(ready: seq<string>)
      requires Valid() && BudgetLeft(rules.budget, totalTokenUsage)
      requires forall t :: t in ready ==> t in pending && Deps(g, t) <= completed
      requires forall i, j :: 0 <= i < j < |ready| ==> ready[i] != ready[j]
      modifies this`pending, this`inProgress, this`trace
      ensures Valid()
      ensures pending + inProgress == old(pending + inProgress) && pending <= old(pending)
      ensures inProgress == {} ==> pending == old(pending) && (ready == [] || rules.concurrency == 0)
      ensures |inProgress| >= rules.concurrency || forall t :: t in ready ==> t in inProgress
    {
      hide Legal, After, EagerSoFar;
      for i := 0 to |ready|
        invariant Valid() && pending + inProgress == old(pending + inProgress) && pending <= old(pending)
        invariant inProgress == {} ==> i == 0 && pending == old(pending)
        invariant forall k :: i <= k < |ready| ==> ready[k] in pending && Deps(g, ready[k]) <= completed
        invariant forall k :: 0 <= k < i ==> ready[k] in inProgress
      {
        if |inProgress| >= rules.concurrency {
          break;
        }
        StartOne(ready[i]);
      }
    }

    /** Takes over the result of one finished subtask; returns false where the loop returns. */
    method Record(r: SubtaskResult) returns (goOn: bool)
      requires Valid() && Fed() && status == Running && errorCode == None
      requires Enabled(g, rules, After(g, trace), Finish(r))
      modifies this`status, this`errorCode, this`results, this`totalTokenUsage
      modifies this`inProgress, this`completed, this`failed, this`trace
      ensures Recorded() && Fed()
      ensures goOn ==> Valid() && status == Running && errorCode == None && inProgress == old(inProgress) - {r.taskId}
      ensures !goOn ==> Exit(g, rules, totalTimeout, env, After(g, trace), turn, status, errorCode)
    {
      hide Legal, After, Put, EagerSoFar, EagerAtEnd;
      FinishOne(g, rules, trace, r);
      EagerAppend(g, rules.concurrency, trace, Finish(r));
      results, trace := Put(results, r), trace + [Finish(r)];
      match r.status {
        case Completed =>
          completed, totalTokenUsage := completed + {r.taskId}, totalTokenUsage + r.tokenUsage;
        case Cancelled =>
          status, errorCode := OrchestrationStatus.Cancelled, Some("cancelled");
          return false;
        case Failed =>
          failed := failed + {r.taskId};
          if rules.policy == FailFast {
            status, errorCode := OrchestrationStatus.Failed, Some("subtask_failed");
            return false;
          }
      }
      inProgress := inProgress - {r.taskId};
      return true;
    }

    /** Awaits one finished subtask. */
    method SettleOne(id: string) returns (v: Verdict)
      requires Valid() && Fed() && id in inProgress && status == Running && errorCode == None
      modifies this`status, this`errorCode, this`results, this`totalTokenUsage
      modifies this`inProgress, this`completed, this`failed, this`trace
      ensures Recorded() && Fed()
      ensures v.Raise? ==> Provoked(rules, env, After(g, trace), turn, v.raised)
      ensures v.GoOn? ==> Valid() && status == Running && errorCode == None && inProgress == old(inProgress) - {id}
      ensures v.Return? ==> Exit(g, rules, totalTimeout, env, After(g, trace), turn, status, errorCode)
    {
      hide Legal, After;
      match rules.outcome(id)
      case RaisesCancelled => return Raise(CancelledError);
      case RaisesError => return Raise(OtherError);
      case Returns(taskStatus, output, tokenUsage) =>
        var goOn := Record(SubtaskResult(id, taskStatus, output, tokenUsage));
        return if goOn then GoOn else Return;
    }

    /** Takes over the results of the subtasks that are found done. */
    method Settle(done: set<string>) returns (v: Verdict)
      requires Valid() && Fed() && done <= inProgress && status == Running && errorCode == None
      modifies this`status, this`errorCode, this`results, this`totalTokenUsage
      modifies this`inProgress, this`completed, this`failed, this`trace
      ensures Recorded() && Fed()
      ensures v.Raise? ==> Provoked(rules, env, After(g, trace), turn, v.raised)
      ensures v.GoOn? ==> Valid() && status == Running && errorCode == None && inProgress == old(inProgress) - done
      ensures v.Return? ==> Exit(g, rules, totalTimeout, env, After(g, trace), turn, status, errorCode)
    {
      hide Legal, After, Exit, EagerSoFar, EagerAtEnd;
      var rest := done;
      while rest != {}
        invariant rest <= done && rest <= inProgress && inProgress == old(inProgress) - (done - rest)
        invariant Valid() && Fed() && status == Running && errorCode == None
      {
        var id :| id in rest;
        rest := rest - {id};
        v := SettleOne(id);
        if v != GoOn {
          return v;
        }
      }
      return GoOn;
    }

    /** The checks at the head of a turn: cancellation, then the clock, then the token budget. */
    method CheckStop() returns (stop: bool)
      requires Valid() && status == Running && errorCode == None
      modifies this`status, this`errorCode
      ensures var late := totalTimeout.Some? && env.elapsed(turn) >= totalTimeout.value;
              && (stop <==> env.cancelSet(turn) || late || !BudgetLeft(rules.budget, totalTokenUsage))
              && status == (if !stop then Running
                            else if env.cancelSet(turn) then OrchestrationStatus.Cancelled
                            else if late then TimedOut
                            else BudgetExceeded)
      ensures !stop ==> errorCode == None
      ensures stop ==> Exit(g, rules, totalTimeout, env, After(g, trace), turn, status, errorCode)
    {
      hide Legal, After;
      if env.cancelSet(turn) {
        status, errorCode := OrchestrationStatus.Cancelled, Some("cancelled");
        return true;
      }
      if totalTimeout.Some? && env.elapsed(turn) >= totalTimeout.value {
        status, errorCode := TimedOut, Some("timeout");
        return true;
      }
      if rules.budget.Some? && totalTokenUsage >= rules.budget.value {
        status, errorCode := BudgetExceeded, Some("budget_exceeded");
        return true;
      }
      return false;
    }

    method ReportDeadlock()
      requires Valid() && pending != {} && inProgress == {}
      requires rules.concurrency >= 1 ==> forall t :: t in pending ==> !(Deps(g, t) <= completed)
      modifies this`status, this`errorCode
      ensures Exit(g, rules, totalTimeout, env, After(g, trace), turn, status, errorCode)
    {
      status, errorCode := OrchestrationStatus.Failed, Some("dependency_deadlock");
    }

    /** Starts what can be started: afterwards every slot is taken or no pending task could start. */
    method Launch()
      requires Valid() && BudgetLeft(rules.budget, totalTokenUsage) && pending + inProgress != {}
      modifies this`pending, this`inProgress, this`trace, this`results
      ensures Valid() && pending + inProgress == old(pending + inProgress)
      ensures inProgress == {} ==> pending != {}
      ensures Saturated() && Fed()
      ensures inProgress == {} && rules.concurrency >= 1 ==> forall t :: t in pending ==> !(Deps(g, t) <= completed)
    {
      Disjoint(g, rules, trace);
      hide Legal, After;
      var ready;
      ready, pending, results := CollectReady(g, pending, completed, failed, rules.policy, results);
      ghost var before := pending;
      StartReady(ready);
      Disjoint(g, rules, trace);
      if |inProgress| < rules.concurrency {
        forall t | t in pending
          ensures !(Deps(g, t) <= completed)
        {
          assert t in before && t !in inProgress;
        }
      }
    }

    /** One turn of the scheduling loop. Going on means that some subtask came to its end. */
    method Turn() returns (v: Verdict)
      requires Valid() && Fed() && status == Running && errorCode == None && pending + inProgress != {}
      modifies this`status, this`errorCode, this`results, this`totalTokenUsage
      modifies this`pending, this`inProgress, this`completed, this`failed, this`trace
      ensures Recorded() && Fed()
      ensures v.GoOn? ==> Valid() && status == Running && errorCode == None
      ensures v.GoOn? ==> pending + inProgress < old(pending + inProgress)
      ensures v.GoOn? ==> Unstopped(turn)
      ensures v.Return? ==> Exit(g, rules, totalTimeout, env, After(g, trace), turn, status, errorCode)
      ensures v.Raise? ==> Provoked(rules, env, After(g, trace), turn, v.raised)
    {
      hide Legal, After, Exit, Saturated;
      var stop := CheckStop();
      if stop {
        return Return;
      }
      Launch();
      if inProgress == {} {
        // Nothing was skipped, so something is still pending.
        ReportDeadlock();
        return Return;
      }
      if env.interrupted(turn) {
        return Raise(CancelledError);
      }
      var done :| done <= inProgress && done != {};
      Disjoint(g, rules, trace);
      v := Settle(done);
    }

    /** The loop that runs every subtask after the ones it depends on. */
    method ExecuteDag() returns (raised: Raised)
      requires Valid() && Fed() && status == Running && errorCode == None && turn == 0
      modifies this
      ensures Recorded() && Fed()
      ensures raised == Nothing ==> Exit(g, rules, totalTimeout, env, After(g, trace), turn, status, errorCode)
      ensures raised != Nothing ==> Provoked(rules, env, After(g, trace), turn, raised)
      ensures forall k :: 0 <= k < turn ==> Unstopped(k)
    {
      hide Legal, After;
      while pending + inProgress != {}
        invariant Valid() && Fed() && status == Running && errorCode == None
        invariant forall k :: 0 <= k < turn ==> Unstopped(k)
        decreases pending + inProgress
      {
        var v := Turn();
        match v {
          case GoOn =>
          case Return => return Nothing;
          case Raise(e) => return e;
        }
        turn := turn + 1;
      }
      if failed == {} || rules.policy == Skip {
        status := OrchestrationStatus.Completed;
      } else {
        status, errorCode := OrchestrationStatus.Failed, Some("subtask_failed");
      }
      return Nothing;
    }
  }

  ghost predicate Skippable(
      g: Graph<string>, completed: set<string>, failed: set<string>, policy: FailurePolicy, t: string)
  {
    Deps(g, t) <= completed && Deps(g, t) * failed != {} && policy == FailFast
  }

  /** Finds the pending tasks whose dependencies all completed, and under FAIL_FAST skips those that
      depend on a failed one. As no task is both completed and failed, none is ever skipped. */
  method CollectReady(g: Graph<string>,
                      pending: set<string>, completed: set<string>, failed: set<string>,
                      policy: FailurePolicy, results: seq<SubtaskResult>)
    returns (ready: seq<string>, pending': set<string>, results': seq<SubtaskResult>)
    requires pending <= g.Keys
    ensures forall t :: t in ready <==> t in pending' && Deps(g, t) <= completed
    ensures forall i, j :: 0 <= i < j < |ready| ==> ready[i] != ready[j]
    ensures forall t :: t in pending' <==> t in pending && !Skippable(g, completed, failed, policy, t)
    ensures completed !! failed ==> pending' == pending && results' == results
  {
    ready, pending', results' := [], pending, results;
    var todo := pending;
    while todo != {}
      invariant todo <= pending' <= pending
      invariant forall t :: t in ready <==> t in pending' - todo && Deps(g, t) <= completed
      invariant forall i, j :: 0 <= i < j < |ready| ==> ready[i] != ready[j]
      invariant forall t ::
                  t in pending' <==> t in pending && (t in todo || !Skippable(g, completed, failed, policy, t))
      invariant completed !! failed ==> pending' == pending && results' == results
    {
      var id :| id in todo;
      todo := todo - {id};
      assert id !in ready;
      var deps := g[id];
      if deps <= completed {
        if deps * failed != {} && policy == FailFast {
          results' := Put(results', SubtaskResult(id, TaskStatus.Skipped, "", 0));
          pending' := pending' - {id};
          continue;
        }
        ready := ready + [id];
      }
    }
  }

  // ----- The whole run -----

  function Get(rs: seq<SubtaskResult>, id: string): Option<SubtaskResult> {
    if rs == [] then None
    else if rs[0].taskId == id then Some(rs[0])
    else Get(rs[1..], id)
  }

  ghost predicate CompletedWith(rs: seq<SubtaskResult>, id: string, output: string) {
    exists r :: r in rs && r.taskId == id && r.status == TaskStatus.Completed && r.output == output
  }

  /** The output of the last listed subtask that completed, or nothing when none did. */
  ghost predicate IsFinalOutput(subtasks: seq<Canvas.Subtask>, rs: seq<SubtaskResult>, output: string) {
    || (exists i :: && 0 <= i < |subtasks| && CompletedWith(rs, subtasks[i].id, output)
                    && forall j :: i < j < |subtasks| ==> subtasks[j].id !in WithStatus(rs, TaskStatus.Completed))
    || (output == "" && forall j :: 0 <= j < |subtasks| ==> subtasks[j].id !in WithStatus(rs, TaskStatus.Completed))
  }

  lemma {:induction false} GetMeaning(rs: seq<SubtaskResult>, id: string)
    requires OnePerTask(rs)
    ensures match Get(rs, id)
            case None => forall r :: r in rs ==> r.taskId != id
            case Some(r) => r in rs && r.taskId == id && forall x :: x in rs && x.taskId == id ==> x == r
  {
    if rs != [] {
      assert OnePerTask(rs[1..]);
      GetMeaning(rs[1..], id);
      assert rs == [rs[0]] + rs[1..];
      if rs[0].taskId == id {
        forall x | x in rs && x.taskId == id
          ensures x == rs[0]
        {
          var k :| 0 <= k < |rs| && rs[k] == x;
        }
      }
    }
  }

  method FinalOutput(subtasks: seq<Canvas.Subtask>, rs: seq<SubtaskResult>) returns (output: string)
    requires OnePerTask(rs)
    ensures IsFinalOutput(subtasks, rs, output)
  {
    for i := |subtasks| downto 0
      invariant forall j :: i <= j < |subtasks| ==> subtasks[j].id !in WithStatus(rs, TaskStatus.Completed)
    {
      var r := Get(rs, subtasks[i].id);
      GetMeaning(rs, subtasks[i].id);
      if r.Some? && r.value.status == TaskStatus.Completed {
        return r.value.output;
      }
      WithStatusMeaning(rs, TaskStatus.Completed, subtasks[i].id);
    }
    return "";
  }

  ghost predicate Known(g: Graph<string>) {
    forall n, d :: n in g && d in g[n] ==> d in g
  }

  /** Nothing cancels, times out or interrupts the run, and every subtask that is run completes or fails. */
  ghost predicate Quiet(config: Config, env: Env) {
    && (forall k :: !env.cancelSet(k) && !env.interrupted(k))
    && (config.totalTimeout.Some? ==> forall k :: env.elapsed(k) < config.totalTimeout.value)
    && (forall id :: env.outcome(id).Returns? && env.outcome(id).status != TaskStatus.Cancelled)
  }

  ghost predicate Calm(config: Config, env: Env) {
    Quiet(config, env) && forall id :: env.outcome(id).Returns? && env.outcome(id).status == TaskStatus.Completed
  }

  ghost predicate AllCompleted(g: Graph<string>, rs: seq<SubtaskResult>) {
    forall t :: t in g ==> t in WithStatus(rs, TaskStatus.Completed)
  }

  /** How a run can end: the loop returned, or an exception came out of it. */
  ghost predicate Ended(
      g: Graph<string>, rules: Rules, totalTimeout: Option<int>, env: Env, trace: seq<Action>, turn: nat,
      status: OrchestrationStatus, code: Option<string>)
  {
    || Exit(g, rules, totalTimeout, env, After(g, trace), turn, status, code)
    || (status.Cancelled? && code == Some("cancelled") && Provoked(rules, env, After(g, trace), turn, CancelledError))
    || (status.Failed? && code == Some("internal_error") && Provoked(rules, env, After(g, trace), turn, OtherError))
  }

  lemma {:induction false} EveryTaskHasItsPlace(g: Graph<string>, rules: Rules, trace: seq<Action>, t: string)
    requires Legal(g, rules, trace) && t in g
    ensures var b := After(g, trace);
            && (t in b.pending + b.running || t in ResultIds(b.results))
            && (t in ResultIds(b.results) <==> t in b.completed + b.failed + b.cancelled)
            && b.completed == WithStatus(b.results, TaskStatus.Completed)
            && b.failed == WithStatus(b.results, TaskStatus.Failed)
  {
    LegalIsSound(g, rules, trace);
    hide Legal, After, WithStatus, OnePerTask, CompletedTokens, DependenciesFirst;
    var b := After(g, trace);
    assert Places(b, t) == 1;
    ResultIdsMeaning(b.results, t);
  }

  lemma {:induction false} ResultIdsMeaning(rs: seq<SubtaskResult>, t: string)
    ensures t in ResultIds(rs) <==>
            || t in WithStatus(rs, TaskStatus.Completed) || t in WithStatus(rs, TaskStatus.Failed)
            || t in WithStatus(rs, TaskStatus.Cancelled) || t in WithStatus(rs, TaskStatus.Skipped)
  {
    hide WithStatus;
    WithStatusMeaning(rs, TaskStatus.Completed, t);
    WithStatusMeaning(rs, TaskStatus.Failed, t);
    WithStatusMeaning(rs, TaskStatus.Cancelled, t);
    WithStatusMeaning(rs, TaskStatus.Skipped, t);
    if r :| r in rs && r.taskId == t {
      assert t in ResultIds(rs);
    }
  }

  /** COMPLETED means that every task completed or, under SKIP alone, failed. */
  lemma {:induction false} CompletedMeansFinished(
      g: Graph<string>, rules: Rules, totalTimeout: Option<int>, env: Env, trace: seq<Action>, turn: nat,
      code: Option<string>)
    requires Legal(g, rules, trace)
    requires Ended(g, rules, totalTimeout, env, trace, turn, OrchestrationStatus.Completed, code)
    ensures var rs := After(g, trace).results;
            forall t :: t in g ==>
              || t in WithStatus(rs, TaskStatus.Completed)
              || (rules.policy == Skip && t in WithStatus(rs, TaskStatus.Failed))
  {
    forall t | t in g {
      EveryTaskHasItsPlace(g, rules, trace, t);
    }
  }

  /** After a reported deadlock the tasks without a result are exactly the blocked ones. */
  lemma {:induction false} DeadlockReport(
      g: Graph<string>, rules: Rules, totalTimeout: Option<int>, env: Env, trace: seq<Action>, turn: nat,
      status: OrchestrationStatus)
    requires Legal(g, rules, trace)
    requires Ended(g, rules, totalTimeout, env, trace, turn, status, Some("dependency_deadlock"))
    requires rules.concurrency >= 1
    ensures var rs := After(g, trace).results;
            && (exists t :: t in g && t !in ResultIds(rs))
            && forall t :: t in g ==> (t !in ResultIds(rs) <==> Blocked(g, WithStatus(rs, TaskStatus.Failed), t))
  {
    var b := After(g, trace);
    LegalIsSound(g, rules, trace);
    DeadlockIsExact(g, rules, b);
    forall t | t in g
      ensures t !in ResultIds(b.results) <==> t in b.pending
    {
      EveryTaskHasItsPlace(g, rules, trace, t);
      assert Places(b, t) == 1;
    }
    var t :| t in b.pending;
    assert Places(b, t) == 1;
  }

  /** Without cycles and unknown ids, only a failed subtask can deadlock a run. */
  lemma {:induction false} AcyclicDeadlockNeedsFailure(
      g: Graph<string>, rules: Rules, totalTimeout: Option<int>, env: Env, trace: seq<Action>, turn: nat,
      status: OrchestrationStatus)
    requires Legal(g, rules, trace)
    requires Ended(g, rules, totalTimeout, env, trace, turn, status, Some("dependency_deadlock"))
    requires rules.concurrency >= 1 && !HasCycle(g) && Known(g)
    ensures WithStatus(After(g, trace).results, TaskStatus.Failed) != {}
  {
    DeadlockReport(g, rules, totalTimeout, env, trace, turn, status);
    var t :| t in g && t !in ResultIds(After(g, trace).results);
    AcyclicIsNeverBlocked(g, t);
  }

  /** The run was not cut off by a cancellation, a timeout, the budget or an exception. */
  predicate Undisturbed(status: OrchestrationStatus, code: Option<string>) {
    !status.Cancelled? && !status.TimedOut? && !status.BudgetExceeded? && code != Some("internal_error")
  }

  /** On an acyclic graph of known ids, a run that was not cut off and in which nothing failed completes every task. */
  lemma {:induction false} FailureFreeRunCompletes(
      g: Graph<string>, rules: Rules, totalTimeout: Option<int>, env: Env, trace: seq<Action>, turn: nat,
      status: OrchestrationStatus, code: Option<string>)
    requires Legal(g, rules, trace) && Ended(g, rules, totalTimeout, env, trace, turn, status, code)
    requires (g != map[] ==> rules.concurrency >= 1) && !HasCycle(g) && Known(g)
    requires Undisturbed(status, code) && WithStatus(After(g, trace).results, TaskStatus.Failed) == {}
    ensures status.Completed? && AllCompleted(g, After(g, trace).results)
  {
    var b := After(g, trace);
    LegalIsSound(g, rules, trace);
    if code == Some("dependency_deadlock") {
      var t :| t in b.pending;
      assert Places(b, t) == if t in g then 1 else 0;
      AcyclicDeadlockNeedsFailure(g, rules, totalTimeout, env, trace, turn, status);
    }
    assert status.Completed?;
    CompletedMeansFinished(g, rules, totalTimeout, env, trace, turn, code);
  }

  /** Only the budget cuts off a run that nothing disturbs. */
  lemma {:induction false} QuietIsUndisturbed(
      g: Graph<string>, rules: Rules, config: Config, env: Env, trace: seq<Action>, turn: nat,
      status: OrchestrationStatus, code: Option<string>)
    requires Legal(g, rules, trace) && Ended(g, rules, config.totalTimeout, env, trace, turn, status, code)
    requires rules.outcome == env.outcome && Quiet(config, env)
    ensures Undisturbed(status, code) || (status.BudgetExceeded? && rules.budget.Some?)
  {
    hide Legal, After;
    NoneCancelled(g, rules, trace);
  }

  lemma {:induction false} NoneCancelled(g: Graph<string>, rules: Rules, trace: seq<Action>)
    requires Legal(g, rules, trace)
    requires forall id :: rules.outcome(id).Returns? ==> rules.outcome(id).status != TaskStatus.Cancelled
    ensures After(g, trace).cancelled == {}
  {
    hide Legal, After, WithStatus, Partition, OnePerTask, DependenciesFirst, CompletedTokens;
    var b := After(g, trace);
    LegalIsSound(g, rules, trace);
    ResultsAreReturned(g, rules, trace);
    forall t
      ensures t !in WithStatus(b.results, TaskStatus.Cancelled)
    {
      WithStatusMeaning(b.results, TaskStatus.Cancelled, t);
    }
  }

  /** The same, told by the environment: if nothing cancels, interrupts or delays the run and every subtask
      completes, then the run completes every task unless the budget stops it. */
  lemma {:induction false} CalmRunCompletes(
      g: Graph<string>, rules: Rules, config: Config, env: Env, trace: seq<Action>, turn: nat,
      status: OrchestrationStatus, code: Option<string>)
    requires Legal(g, rules, trace) && Ended(g, rules, config.totalTimeout, env, trace, turn, status, code)
    requires (g != map[] ==> rules.concurrency >= 1) && !HasCycle(g) && Known(g)
    requires rules.outcome == env.outcome && Calm(config, env)
    ensures status.BudgetExceeded? || (status.Completed? && AllCompleted(g, After(g, trace).results))
  {
    QuietIsUndisturbed(g, rules, config, env, trace, turn, status, code);
    var b := After(g, trace);
    LegalIsSound(g, rules, trace);
    forall t
      ensures t !in b.failed
    {
      if t in b.failed {
        FailedWasReturned(g, rules, trace, t);
      }
    }
    if !status.BudgetExceeded? {
      FailureFreeRunCompletes(g, rules, config.totalTimeout, env, trace, turn, status, code);
    }
  }

  /** Some task depends on a subtask that fails whenever it is run. */
  ghost predicate DependsOnFailure(g: Graph<string>, env: Env) {
    exists t, d :: t in g && d in g[t] && env.outcome(d).Returns? && env.outcome(d).status == TaskStatus.Failed
  }

  lemma {:induction false} CompletedWasReturned(g: Graph<string>, rules: Rules, trace: seq<Action>, d: string)
    requires Legal(g, rules, trace) && d in WithStatus(After(g, trace).results, TaskStatus.Completed)
    ensures rules.outcome(d).Returns? && rules.outcome(d).status == TaskStatus.Completed
  {
    ResultsAreReturned(g, rules, trace);
    hide Legal, After, WithStatus;
    WithStatusMeaning(After(g, trace).results, TaskStatus.Completed, d);
  }

  lemma {:induction false} StartedHasGoodDependencies(
      g: Graph<string>, rules: Rules, trace: seq<Action>, t: string, d: string)
    requires Legal(g, rules, trace) && t in g && d in g[t]
    requires t in After(g, trace).completed + After(g, trace).failed
    ensures rules.outcome(d).Returns? && rules.outcome(d).status == TaskStatus.Completed
  {
    LegalIsSound(g, rules, trace);
    hide Legal, After, WithStatus, CompletionOrder, CompletedTokens, Partition, TopoOrder, OnePerTask;
    var b := After(g, trace);
    if t in b.completed {
      CompletedDependencies(g, b, t);
    }
    assert d in Deps(g, t);
    CompletedWasReturned(g, rules, trace, d);
  }

  /** What keeps a scheduler that does not stop at the first failure from running every task: no slot at all,
      a cycle, an unknown id, or a task that depends on a failing one. */
  ghost predicate CannotFinish(g: Graph<string>, concurrency: nat, env: Env) {
    (g != map[] && concurrency == 0) || HasCycle(g) || !Known(g) || DependsOnFailure(g, env)
  }

  lemma {:induction false} NoSlotNoStart(g: Graph<string>, rules: Rules, trace: seq<Action>)
    requires Legal(g, rules, trace) && rules.concurrency == 0
    ensures trace == []
  {
    if trace != [] {
      NoSlotNoStart(g, rules, trace[..|trace| - 1]);
    }
  }

  lemma {:induction false} NoSlotNoEnd(g: Graph<string>, rules: Rules, trace: seq<Action>)
    requires Legal(g, rules, trace) && rules.concurrency == 0 && AllEnded(After(g, trace))
    ensures g == map[]
  {
    NoSlotNoStart(g, rules, trace);
    assert g.Keys == {};
  }

  ghost predicate AllEnded(b: Board) {
    b.pending == {} && b.running == {} && b.cancelled == {}
  }

  lemma {:induction false} EndedIsNotBlocked(g: Graph<string>, rules: Rules, b: Board, t: string)
    requires Sound(g, rules, b) && AllEnded(b) && t in g
    ensures Deps(g, t) <= b.completed && !Blocked(g, b.failed, t)
  {
    assert Places(b, t) == 1;
    hide Partition, ResultsAgree, TopoOrder, CompletionOrder, Blocked;
    if t in b.completed {
      CompletedDependencies(g, b, t);
    }
    StartableIsNotBlocked(g, rules, b, t);
  }

  lemma {:induction false} EndedHasNoCycle(g: Graph<string>, rules: Rules, b: Board)
    requires Sound(g, rules, b) && AllEnded(b)
    ensures !HasCycle(g)
  {
    hide Sound, AllEnded;
    forall p | IsCycle(g, p)
      ensures false
    {
      assert p[0 + 1] in Deps(g, p[0]);
      assert BlockingPath(g, b.failed, p[0], p);
      EndedIsNotBlocked(g, rules, b, p[0]);
    }
  }

  lemma {:induction false} EndedDependsOnGoodTasks(
      g: Graph<string>, rules: Rules, env: Env, trace: seq<Action>, t: string, d: string)
    requires Legal(g, rules, trace) && rules.outcome == env.outcome && AllEnded(After(g, trace))
    requires t in g && d in g[t]
    ensures d in g && !(env.outcome(d).Returns? && env.outcome(d).status == TaskStatus.Failed)
  {
    var b := After(g, trace);
    LegalIsSound(g, rules, trace);
    EndedIsNotBlocked(g, rules, b, t);
    assert Places(b, t) == 1 && Places(b, d) == if d in g then 1 else 0;
    hide Legal, After, Sound;
    assert d in Deps(g, t);
    StartedHasGoodDependencies(g, rules, trace, t, d);
  }

  /** A run in which every task came to its end had a slot, no cycle, no unknown id and no task that depends on a
      failing one. */
  lemma {:induction false} FinishedCanFinish(g: Graph<string>, rules: Rules, env: Env, trace: seq<Action>)
    requires Legal(g, rules, trace) && rules.outcome == env.outcome && AllEnded(After(g, trace))
    ensures !CannotFinish(g, rules.concurrency, env)
  {
    hide Legal, After, Sound, AllEnded, HasCycle;
    LegalIsSound(g, rules, trace);
    EndedHasNoCycle(g, rules, After(g, trace));
    if rules.concurrency == 0 {
      NoSlotNoEnd(g, rules, trace);
    }
    forall t, d | t in g && d in g[t]
      ensures d in g && !(env.outcome(d).Returns? && env.outcome(d).status == TaskStatus.Failed)
    {
      EndedDependsOnGoodTasks(g, rules, env, trace, t, d);
    }
  }

  /** A deadlocked run had no slot, a cycle, an unknown id or a task that depends on a failing one. */
  lemma {:induction false} DeadlockedCannotFinish(g: Graph<string>, rules: Rules, env: Env, trace: seq<Action>)
    requires Legal(g, rules, trace) && rules.outcome == env.outcome && After(g, trace).pending != {}
    requires rules.concurrency >= 1 ==> Stuck(g, After(g, trace))
    ensures CannotFinish(g, rules.concurrency, env)
  {
    var b := After(g, trace);
    LegalIsSound(g, rules, trace);
    var t :| t in b.pending;
    assert Places(b, t) == if t in g then 1 else 0;
    if rules.concurrency >= 1 && !HasCycle(g) && Known(g) {
      DeadlockIsExact(g, rules, b);
      BlockedByFailure(g, b.failed, t);
      var n, d :| n in g && d in g[n] && d in b.failed;
      FailedWasReturned(g, rules, trace, d);
    }
  }

  lemma {:induction false} FailedWasReturned(g: Graph<string>, rules: Rules, trace: seq<Action>, d: string)
    requires Legal(g, rules, trace) && d in After(g, trace).failed
    ensures rules.outcome(d).Returns? && rules.outcome(d).status == TaskStatus.Failed
  {
    LegalIsSound(g, rules, trace);
    ResultsAreReturned(g, rules, trace);
    hide Legal, After, WithStatus, Partition, DependenciesFirst, OnePerTask, CompletedTokens;
    WithStatusMeaning(After(g, trace).results, TaskStatus.Failed, d);
  }

  /** Without FAIL_FAST, a run that is not cut off deadlocks exactly when the scheduler cannot finish; SKIP
      completes exactly the other runs. This holds for every graph. */
  lemma {:induction false} ContinuingRunDeadlocksIff(
      g: Graph<string>, rules: Rules, totalTimeout: Option<int>, env: Env, trace: seq<Action>, turn: nat,
      status: OrchestrationStatus, code: Option<string>)
    requires Legal(g, rules, trace) && Ended(g, rules, totalTimeout, env, trace, turn, status, code)
    requires rules.outcome == env.outcome && rules.policy != FailFast && Undisturbed(status, code)
    ensures code == Some("dependency_deadlock") <==> CannotFinish(g, rules.concurrency, env)
    ensures rules.policy == Skip ==> (status.Completed? <==> !CannotFinish(g, rules.concurrency, env))
  {
    if code == Some("dependency_deadlock") {
      DeadlockedCannotFinish(g, rules, env, trace);
    } else {
      FinishedCanFinish(g, rules, env, trace);
    }
  }

  /** Without cycles and unknown ids, a blocked task leads to a task that depends on a failed one. */
  lemma {:induction false} BlockedByFailure(g: Graph<string>, failed: set<string>, t: string)
    requires Blocked(g, failed, t) && !HasCycle(g) && Known(g)
    ensures exists n, d :: n in g && d in g[n] && d in failed
  {
    var p :| BlockingPath(g, failed, t, p);
    if HasRepeat(p) {
      RepeatGivesCycle(g, p);
    }
    var n, d := p[|p| - 2], p[|p| - 1];
    assert p[(|p| - 2) + 1] in Deps(g, n);
    assert n in g && d in g[n];
  }

  lemma {:induction false} EndFacts(
      g: Graph<string>, rules: Rules, totalTimeout: Option<int>, env: Env, trace: seq<Action>, turn: nat,
      status: OrchestrationStatus, code: Option<string>)
    requires Legal(g, rules, trace) && Ended(g, rules, totalTimeout, env, trace, turn, status, code)
    ensures !status.Running? && (code == None <==> status.Completed?)
    ensures OnePerTask(After(g, trace).results) && After(g, trace).tokens == CompletedTokens(After(g, trace).results)
  {
    LegalIsSound(g, rules, trace);
  }

  // ----- The configuration is kept -----

  /** At no time do more tasks run than configured, and nothing starts when the configured budget is used up. */
  ghost predicate WithinLimits(g: Graph<string>, config: Config, trace: seq<Action>) {
    && (forall n :: 0 <= n <= |trace| ==> |After(g, trace[..n]).running| <= config.maxConcurrency)
    && (config.totalTokenBudget.Some? ==>
          forall i :: 0 <= i < |trace| && trace[i].Start? ==>
            After(g, trace[..i]).tokens < config.totalTokenBudget.value)
  }

  lemma {:induction false} LimitsAreKept(
      g: Graph<string>, rules: Rules, subtasks: seq<Canvas.Subtask>, config: Config, env: Env, trace: seq<Action>)
    requires rules == RulesOf(config, env, subtasks) && Legal(g, rules, trace)
    ensures WithinLimits(g, config, trace)
  {
    hide Legal, After;
    forall n | 0 <= n <= |trace|
      ensures |After(g, trace[..n]).running| <= config.maxConcurrency
    {
      LegalPrefix(g, rules, trace, n);
      LegalIsSound(g, rules, trace[..n]);
    }
    forall i | 0 <= i < |trace| && trace[i].Start?
      ensures config.totalTokenBudget.Some? ==> After(g, trace[..i]).tokens < config.totalTokenBudget.value
    {
      LegalAt(g, rules, trace, i);
    }
  }

  /** With at most `max` tokens per task the total exceeds the configured budget by less than what the configured
      number of tasks can use. */
  lemma {:induction false} ConfiguredOvershoot(
      g: Graph<string>, rules: Rules, subtasks: seq<Canvas.Subtask>, config: Config, env: Env, trace: seq<Action>,
      max: nat)
    requires rules == RulesOf(config, env, subtasks) && Legal(g, rules, trace)
    requires config.totalTokenBudget.Some? && config.totalTokenBudget.value > 0
    requires forall r :: r in After(g, trace).results ==> r.tokenUsage <= max
    ensures After(g, trace).tokens <= config.totalTokenBudget.value - 1 + config.maxConcurrency * max
  {
    BudgetOvershoot(g, rules, trace, max);
    TimesAtMost(rules.concurrency, config.maxConcurrency, max);
  }

  lemma {:induction false} TimesAtMost(a: nat, b: nat, c: nat)
    requires a <= b
    ensures a * c <= b * c
  {
    assert b * c == a * c + (b - a) * c;
  }

  /** How the configuration shows in the end of a run. */
  ghost predicate EndsAsConfigured(
      g: Graph<string>, config: Config, b: Board, status: OrchestrationStatus, code: Option<string>)
  {
    && (status.BudgetExceeded? ==> config.totalTokenBudget.Some? && b.tokens >= config.totalTokenBudget.value)
    && (config.failurePolicy == FailFast && WithStatus(b.results, TaskStatus.Failed) != {} ==>
          status.Failed? && code == Some("subtask_failed"))
    && (status.Completed? && config.failurePolicy != Skip ==> WithStatus(b.results, TaskStatus.Failed) == {})
    && (code == Some("subtask_failed") ==>
          config.failurePolicy != Skip && WithStatus(b.results, TaskStatus.Failed) != {})
    && (code == Some("dependency_deadlock") && config.maxConcurrency >= 1 ==> Stuck(g, b))
  }

  lemma {:induction false} EndIsConfigured(
      subtasks: seq<Canvas.Subtask>, rules: Rules, config: Config, env: Env, trace: seq<Action>, turn: nat,
      status: OrchestrationStatus, code: Option<string>)
    requires rules == RulesOf(config, env, subtasks) && Legal(TaskGraph(subtasks), rules, trace)
    requires Ended(TaskGraph(subtasks), rules, config.totalTimeout, env, trace, turn, status, code)
    ensures EndsAsConfigured(TaskGraph(subtasks), config, After(TaskGraph(subtasks), trace), status, code)
  {
    var g := TaskGraph(subtasks);
    var b := After(g, trace);
    LegalIsSound(g, rules, trace);
    if code == Some("dependency_deadlock") {
      SomeSubtask(subtasks, rules, b);
    }
    hide Legal, After, WithStatus, TaskGraph, Partition, DependenciesFirst, OnePerTask, CompletedTokens, Blocked;
  }

  lemma {:induction false} SomeSubtask(subtasks: seq<Canvas.Subtask>, rules: Rules, b: Board)
    requires Sound(TaskGraph(subtasks), rules, b)
    ensures b.pending != {} ==> |subtasks| >= 1
  {
    if t :| t in b.pending {
      assert Places(b, t) == if t in TaskGraph(subtasks) then 1 else 0;
    }
  }

  /** Runs the subtasks and reports. */
  method Execute(subtasks: seq<Canvas.Subtask>, config: Config, env: Env)
    returns (result: OrchestrationResult, trace: seq<Action>, turns: nat)
    ensures Legal(TaskGraph(subtasks), RulesOf(config, env, subtasks), trace)
    ensures result.subtaskResults == After(TaskGraph(subtasks), trace).results
    ensures Ended(TaskGraph(subtasks), RulesOf(config, env, subtasks), config.totalTimeout, env, trace, turns,
                  result.status, result.errorCode)
    ensures forall k :: 0 <= k < turns ==>
              !env.cancelSet(k) && (config.totalTimeout.Some? ==> env.elapsed(k) < config.totalTimeout.value)
    ensures result.totalTokenUsage == CompletedTokens(result.subtaskResults)
    ensures !result.status.Running? && (result.errorCode == None <==> result.status.Completed?)
    ensures forall r :: r in result.subtaskResults ==>
              r.status != Skipped && env.outcome(r.taskId) == Returns(r.status, r.output, r.tokenUsage)
    ensures WithinLimits(TaskGraph(subtasks), config, trace)
    ensures var slots := if config.maxConcurrency <= |subtasks| then config.maxConcurrency else |subtasks|;
            EagerSoFar(TaskGraph(subtasks), slots, trace) && EagerAtEnd(TaskGraph(subtasks), slots, trace)
    ensures EndsAsConfigured(TaskGraph(subtasks), config, After(TaskGraph(subtasks), trace),
                             result.status, result.errorCode)
    ensures config.totalTokenBudget.Some? && config.totalTokenBudget.value > 0 ==>
              forall max: nat :: UsageAtMost(result.subtaskResults, max) ==>
                result.totalTokenUsage <= config.totalTokenBudget.value - 1 + config.maxConcurrency * max
    ensures if result.status.Completed? then IsFinalOutput(subtasks, result.subtaskResults, result.finalOutput)
            else result.finalOutput == ""
  {
    hide Legal, After, Exit, OnePerTask, CompletedTokens, WithinLimits, EndsAsConfigured, EagerSoFar, EagerAtEnd;
    var s := new Scheduler(subtasks, config, env);
    var raised := s.ExecuteDag();
    trace, turns := s.trace, s.turn;
    forall k | 0 <= k < turns
      ensures !env.cancelSet(k) && (config.totalTimeout.Some? ==> env.elapsed(k) < config.totalTimeout.value)
    {
      assert s.Unstopped(k);
    }
    match raised {
      case Nothing =>
      case CancelledError => s.status, s.errorCode := OrchestrationStatus.Cancelled, Some("cancelled");
      case OtherError => s.status, s.errorCode := OrchestrationStatus.Failed, Some("internal_error");
    }
    EndFacts(s.g, s.rules, config.totalTimeout, env, trace, s.turn, s.status, s.errorCode);
    ResultsAreReturned(s.g, s.rules, trace);
    LimitsAreKept(s.g, s.rules, subtasks, config, env, trace);
    EndIsConfigured(subtasks, s.rules, config, env, trace, s.turn, s.status, s.errorCode);
    if config.totalTokenBudget.Some? && config.totalTokenBudget.value > 0 {
      forall max: nat | UsageAtMost(s.results, max)
        ensures s.totalTokenUsage <= config.totalTokenBudget.value - 1 + config.maxConcurrency * max
      {
        ConfiguredOvershoot(s.g, s.rules, subtasks, config, env, trace, max);
      }
    }
    var finalOutput := "";
    if s.status.Completed? {
      finalOutput := FinalOutput(subtasks, s.results);
    }
    result := OrchestrationResult(s.status, finalOutput, s.results, s.totalTokenUsage, s.errorCode);
  }
}
