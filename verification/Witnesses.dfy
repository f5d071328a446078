/** Concrete runs that show where the platform does something else than its documentation or its users expect. */
module Witnesses {
  import opened DependencyGraph
  import opened TaskSchedule
  import opened Orchestrator
  import opened Wrappers
  import Canvas
  import Text = ShortTermContext
  import Mcp = McpManager
  import opened PyText
  import Trace = AgentTrace
  import Agent = AgentRuntime
  import Theorems = AgentTheorems

  // ----- The scheduler -----

  function Task(id: string, dependsOn: seq<string>): Canvas.Subtask {
    Canvas.Subtask(id, "", Canvas.Custom, dependsOn)
  }

  /** Nothing disturbs the run; subtask a fails and all others complete. */
  function FailingA(): Env {
    Env((k: nat) => false, (k: nat) => 0, (k: nat) => false,
        (id: string) => if id == "a" then Returns(TaskStatus.Failed, "", 0) else Returns(TaskStatus.Completed, "", 0))
  }

  lemma {:induction false} OneTask(s: Canvas.Subtask)
    ensures TaskMap([s]) == map[s.id := s] && TaskGraph([s]) == map[s.id := Elems(s.dependsOn)]
  {
    assert [s][..0] == [];
  }

  lemma {:induction false} TwoTasks(s: Canvas.Subtask, t: Canvas.Subtask)
    requires s.id != t.id
    ensures TaskGraph([s, t]) == map[s.id := Elems(s.dependsOn), t.id := Elems(t.dependsOn)]
  {
    OneTask(s);
    assert [s, t][..1] == [s];
  }

  lemma {:induction false} BDependsOnFailingA(subtasks: seq<Canvas.Subtask>)
    requires subtasks == [Task("a", []), Task("b", ["a"])]
    ensures DependsOnFailure(TaskGraph(subtasks), FailingA())
  {
    TwoTasks(subtasks[0], subtasks[1]);
    assert "a" in ["a"];
    var g, env := TaskGraph(subtasks), FailingA();
    assert "b" in g && "a" in g["b"] && env.outcome("a") == Returns(TaskStatus.Failed, "", 0);
  }

  /** Under SKIP a task that depends on a failed one is not skipped: the run ends in a deadlock. */
  method SkipDeadlocks() returns (result: OrchestrationResult)
    ensures result.status.Failed? && result.errorCode == Some("dependency_deadlock")
  {
    hide Legal, After, Ended, TaskGraph, DependsOnFailure, CompletedTokens, IsFinalOutput, HasCycle, Known;
    var subtasks := [Task("a", []), Task("b", ["a"])];
    var config, env := Config(2, Skip, None, None), FailingA();
    var trace, turns;
    result, trace, turns := Execute(subtasks, config, env);
    ghost var g, rules := TaskGraph(subtasks), RulesOf(config, env, subtasks);
    BDependsOnFailingA(subtasks);
    QuietIsUndisturbed(g, rules, config, env, trace, turns, result.status, result.errorCode);
    ContinuingRunDeadlocksIff(g, rules, None, env, trace, turns, result.status, result.errorCode);
    DeadlockMeansFailed(g, rules, env, trace, turns, result.status);
  }

  lemma {:induction false} DeadlockMeansFailed(
      g: Graph<string>, rules: Rules, env: Env, trace: seq<Action>, turn: nat, status: OrchestrationStatus)
    requires Ended(g, rules, None, env, trace, turn, status, Some("dependency_deadlock"))
    ensures status.Failed?
  {
  }

  /** Under RETRY_ONCE the only task, which fails, is started once, and the run fails. */
  method RetryOnceDoesNotRetry() returns (result: OrchestrationResult, trace: seq<Action>)
    ensures trace == [Start("a"), Finish(SubtaskResult("a", TaskStatus.Failed, "", 0))]
    ensures result.status.Failed? && result.errorCode == Some("subtask_failed")
  {
    hide Legal, After, Ended, TaskGraph, CompletedTokens, IsFinalOutput, CannotFinish;
    var subtasks := [Task("a", [])];
    var config, env := Config(2, RetryOnce, None, None), FailingA();
    var turns;
    result, trace, turns := Execute(subtasks, config, env);
    OneTask(subtasks[0]);
    ghost var g, rules := TaskGraph(subtasks), RulesOf(config, env, subtasks);
    assert Elems(subtasks[0].dependsOn) == {};
    QuietIsUndisturbed(g, rules, config, env, trace, turns, result.status, result.errorCode);
    LoneTaskCanFinish(env);
    ContinuingRunDeadlocksIff(g, rules, None, env, trace, turns, result.status, result.errorCode);
    LoneRunFails(g, rules, env, trace, turns, result.status, result.errorCode);
  }

  lemma {:induction false} LoneRunFails(
      g: Graph<string>, rules: Rules, env: Env, trace: seq<Action>, turn: nat,
      status: OrchestrationStatus, code: Option<string>)
    requires g == map["a" := {}] && rules.policy == RetryOnce && rules.outcome == env.outcome == FailingA().outcome
    requires Legal(g, rules, trace) && Ended(g, rules, None, env, trace, turn, status, code)
    requires Undisturbed(status, code) && code != Some("dependency_deadlock")
    ensures trace == [Start("a"), Finish(SubtaskResult("a", TaskStatus.Failed, "", 0))]
    ensures status.Failed? && code == Some("subtask_failed")
  {
    LoneRun(g, rules, trace);
    hide Legal, After;
  }

  lemma {:induction false} LoneTaskCanFinish(env: Env)
    ensures !CannotFinish(map["a" := {}], 1, env)
  {
    var g: Graph<string> := map["a" := {}];
    assert "a" in ["a"];
    OrderForbidsCycle(g, ["a"]);
  }

  function LoneFailure(): seq<Action> {
    [Start("a"), Finish(SubtaskResult("a", TaskStatus.Failed, "", 0))]
  }

  /** The board of a single failing task: before its start, while it runs, and after its failure. */
  function LoneBoard(n: nat): Board {
    if n == 0 then Board({"a"}, {}, {}, {}, {}, [], 0)
    else if n == 1 then Board({}, {"a"}, {}, {}, {}, [], 0)
    else Board({}, {}, {}, {"a"}, {}, [SubtaskResult("a", TaskStatus.Failed, "", 0)], 0)
  }

  lemma {:induction false} LoneStep(g: Graph<string>, rules: Rules, n: nat, a: Action)
    requires n <= 2 && rules.outcome == FailingA().outcome && Enabled(g, rules, LoneBoard(n), a)
    ensures n < 2 && a == LoneFailure()[n] && Step(LoneBoard(n), a) == LoneBoard(n + 1)
  {
  }

  /** The run of a single failing task can only be a prefix of its start and its failure. */
  lemma {:induction false} LoneRun(g: Graph<string>, rules: Rules, trace: seq<Action>)
    requires g == map["a" := {}] && rules.outcome == FailingA().outcome && Legal(g, rules, trace)
    ensures trace <= LoneFailure() && After(g, trace) == LoneBoard(|trace|)
  {
    hide LoneBoard, Step, Enabled;
    if trace == [] {
      NothingRunYet(g);
    } else {
      var before := trace[..|trace| - 1];
      LoneRun(g, rules, before);
      LoneStep(g, rules, |before|, trace[|before|]);
    }
  }

  lemma {:induction false} NothingRunYet(g: Graph<string>)
    requires g == map["a" := {}]
    ensures After(g, []) == LoneBoard(0)
  {
  }

  /** Nothing disturbs the run; every subtask completes and gives its id as its output. */
  function Naming(): Env {
    Env((k: nat) => false, (k: nat) => 0, (k: nat) => false, (id: string) => Returns(TaskStatus.Completed, id, 0))
  }

  /** If b depends on a and is listed first, the run reports the output of a, on which b was built. */
  method IntermediateOutput() returns (result: OrchestrationResult)
    ensures result.status.Completed? && result.finalOutput == "a"
  {
    hide Legal, After, Ended, TaskGraph, CompletedTokens, HasCycle, Known, WithStatus;
    var subtasks := [Task("b", ["a"]), Task("a", [])];
    var config, env := Config(2, FailFast, None, None), Naming();
    var trace, turns;
    result, trace, turns := Execute(subtasks, config, env);
    ghost var g, rules := TaskGraph(subtasks), RulesOf(config, env, subtasks);
    BBeforeA(subtasks);
    QuietIsUndisturbed(g, rules, config, env, trace, turns, result.status, result.errorCode);
    CalmRunCompletes(g, rules, config, env, trace, turns, result.status, result.errorCode);
    OutputOfLast(g, rules, trace, subtasks, result.finalOutput);
  }

  lemma {:induction false} BBeforeA(subtasks: seq<Canvas.Subtask>)
    requires subtasks == [Task("b", ["a"]), Task("a", [])]
    ensures var g := TaskGraph(subtasks); "a" in g && !HasCycle(g) && Known(g)
  {
    TwoTasks(subtasks[0], subtasks[1]);
    var g, order := TaskGraph(subtasks), ["a", "b"];
    assert order[..1] == ["a"] && "a" in ["a"] && order[0] in order && order[1] in order;
    OrderForbidsCycle(g, order);
  }

  lemma {:induction false} OutputOfLast(
      g: Graph<string>, rules: Rules, trace: seq<Action>, subtasks: seq<Canvas.Subtask>, output: string)
    requires Legal(g, rules, trace) && rules.outcome == Naming().outcome && AllCompleted(g, After(g, trace).results)
    requires IsFinalOutput(subtasks, After(g, trace).results, output)
    requires subtasks == [Task("b", ["a"]), Task("a", [])] && "a" in g
    ensures output == "a"
  {
    hide Legal, After, WithStatus;
    ResultsAreReturned(g, rules, trace);
    assert subtasks[1].id in WithStatus(After(g, trace).results, TaskStatus.Completed);
  }

  // ----- The summary -----

  lemma {:induction false} Utf8Bounds(s: string)
    ensures |s| <= Utf8Length(s) <= 4 * |s|
  {
    if s != "" {
      Utf8Bounds(s[..|s| - 1]);
    }
  }

  lemma {:induction false} AtLeastItsLast(ms: seq<Text.Message>)
    requires ms != []
    ensures Text.PromptTokens(ms) >= |ms[|ms| - 1].content|
  {
    Utf8Bounds(ms[|ms| - 1].content);
  }

  /** Of two messages that are too long for the token budget, both are dropped, and the summary is made of the
      later one followed by the earlier one. */
  method LatestFirst(a: string, b: string) returns (ctx: Text.Context)
    requires |a| > 4000 && |b| > 4000
    ensures var h := [Text.Message("user", a), Text.Message("assistant", b)];
            ctx == Text.Context([], Text.SummaryOf(Text.MakeSettings(20, 4000, 900), [h[1], h[0]]))
  {
    var c, h := Text.MakeSettings(20, 4000, 900), [Text.Message("user", a), Text.Message("assistant", b)];
    ghost var cut;
    ctx, cut := Text.BuildShortTermContext(c, h, None);
    DroppedReversed(c, h);
    LongMessageNeverFits(c, h, 0);
    LongMessageNeverFits(c, h, 1);
    assert cut == 2;
    SummaryFits(c, h);
  }

  lemma {:induction false} DroppedReversed(c: Text.Settings, h: seq<Text.Message>)
    requires |h| == 2 && c.limit >= 2
    ensures Text.Overflow(c, 2) == 0 && Text.DroppedAt(c, h, 2) == [h[1], h[0]]
  {
    Text.DropNoMore(c, h);
    Text.DropOneMore(c, h, 0);
    Text.DropOneMore(c, h, 1);
  }

  lemma {:induction false} LongMessageNeverFits(c: Text.Settings, h: seq<Text.Message>, p: nat)
    requires Text.Overflow(c, |h|) <= p < |h| && |h[|h| - 1].content| > c.maxTokens
    ensures !Text.FitsFrom(c, None, h, p)
  {
    var prompt := Text.MergePrompt(None, Text.SummaryOf(c, Text.DroppedAt(c, h, p)));
    AtLeastItsLast(Text.PromptMessages(prompt, h[p..]));
  }

  lemma {:induction false} SummaryFits(c: Text.Settings, h: seq<Text.Message>)
    requires Text.Overflow(c, |h|) <= |h| && h != [] && 4 * c.summaryMaxChars + 30 <= c.maxTokens
    ensures Text.FitsFrom(c, None, h, |h|)
  {
    var dropped := Text.DroppedAt(c, h, |h|);
    var s := Text.SummaryOf(c, dropped);
    assert h[|h|..] == [];
    if s.Some? {
      Text.CutIsBounded(Join("\n", [Text.Header(|dropped|)] + Text.SummaryLines(dropped)), c.summaryMaxChars);
      Utf8Bounds(s.value);
      Text.CostOfPrompt(c, s);
      Utf8Bounds("system");
    }
  }

  // ----- The tool servers -----

  function Server(name: string): Mcp.ServerConfig {
    Mcp.ServerConfig(name, {}, Mcp.High)
  }

  function CancelledAtSecond(): nat -> Mcp.Attempt {
    (i: nat) => if i == 0 then Mcp.Lists([], false) else Mcp.ClientCancelled
  }

  lemma {:induction false} ReachesTheSecond(cs: seq<Mcp.ServerConfig>, n: nat, clients: set<string>)
    requires cs == [Server("x"), Server("y")] && Mcp.Reached(cs, {}, CancelledAtSecond(), n, clients)
    ensures clients == {"x"} && !Mcp.Smooth(cs, {}, CancelledAtSecond(), 2)
  {
    var attempt := CancelledAtSecond();
    assert Mcp.Raising(attempt(1)) && Mcp.Serves(attempt(0)) && !Mcp.Raising(attempt(0));
    assert Mcp.Served(cs, attempt, 0) == {};
    assert Mcp.Served(cs, attempt, 1) == {cs[0].name};
  }

  /** A discovery that is cancelled at the second server leaves the first one ready, and no further discovery
      succeeds, whatever the servers do then. */
  method InterruptedForGood(attempt: nat -> Mcp.Attempt) returns (first: bool, second: bool, held: set<string>)
    ensures !first && !second && held == {"x"}
  {
    hide Mcp.Reached, Mcp.Smooth, Mcp.Raising, Mcp.DistinctServers;
    var configs := [Server("x"), Server("y")];
    var manager := new Mcp.ToolManager(configs);
    var r := manager.Discover(CancelledAtSecond());
    first, held := r.Success?, manager.clients;
    ghost var n :| Mcp.Reached(configs, {}, CancelledAtSecond(), n, manager.clients);
    ReachesTheSecond(configs, n, held);
    r := manager.Discover(attempt);
    second := r.Success?;
  }

  // ----- The events of a result -----

  function StreamedX(): Trace.Env {
    Trace.Env((i: nat) => None, (i: nat) => 0,
              (k: nat) => Trace.Decides(Trace.Decision(Some("x"), [], None, true)),
              (i: nat) => Trace.Gives("", true, None, false), Trace.Stream(["x"], None))
  }

  /** A run that streams its answer has deltas among the events of its result. */
  method DeltaInResult() returns (result: Agent.RunResult)
    ensures Trace.HasDelta(result.events)
  {
    hide Trace.Proper, Trace.PhaseOf, Trace.HasDelta, Agent.Selects, Agent.Mirrors, Agent.Covers;
    var env := StreamedX();
    var o, events := Agent.Run("hello", 1, None, true, env);
    ghost var rules := Trace.Rules("hello", None, 1, true, env);
    assert !Blank("hello") by {
      assert !IsSpace("hello"[0]);
    }
    result := o.result;
    ghost var idx :| Agent.Selects(events, result.events, idx);
    Theorems.FirstDecisionIsMade(rules, events);
    assert Trace.Joined(["x"]) == "x" by {
      assert ["x"][..0] == [];
    }
    assert !Blank("x") by {
      assert !IsSpace("x"[0]);
    }
    assert Theorems.Streams(rules, events, 2);
    Theorems.DeltasAreShownIff(rules, events, result.events, idx);
  }
}
