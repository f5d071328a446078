/** A multi-agent run that reports its events to the bridge (app/multi_agent/service.py, app/api/multi_agent.py):
    when the consumer is told how the run ended. */
module MultiAgentStreaming {
  import opened Wrappers
  import opened EventStream
  import Orchestrator
  import TaskSchedule
  import DependencyGraph
  import Canvas

  /** How a run comes by its subtasks: planning raises, the stored canvas cannot be loaded, or there is a plan. */
  datatype Planning = PlanRaises | NoConfig | Planned

  /** The events that the service itself emits; the terminal one by the status of the orchestration. */
  function OwnKinds(p: Planning, status: Orchestrator.OrchestrationStatus): seq<Kind> {
    if p.Planned? then [Started, Progress] + (if status.Running? then [] else [Terminal]) else [Started]
  }

  /** How many of its own events the service emitted. */
  function Own(kinds: seq<Kind>, actions: seq<Action>): nat {
    if actions == [] then 0
    else
      var m, a := Own(kinds, actions[..|actions| - 1]), actions[|actions| - 1];
      if a.Emit? && m < |kinds| && a.event.kind == kinds[m] then m + 1 else m
  }

  /** The service emits its own events in order, and the subtasks report progress from the plan on, even when the
      service has ended; all events are numbered by one counter. The service returns after its last event; it
      may raise or be cancelled anywhere. The consumer may do what it likes. */
  predicate Served(p: Planning, kinds: seq<Kind>, actions: seq<Action>) {
    actions == [] ||
    var before, a := actions[..|actions| - 1], actions[|actions| - 1];
    var s, m := After(MultiAgent, before), Own(kinds, before);
    && Served(p, kinds, before)
    && match a
       case Emit(e) =>
         && e.sequence == s.counter
         && ((s.ended.None? && m < |kinds| && e.kind == kinds[m]) || (e.kind.Progress? && m >= 2))
       case End(how) => s.ended.None? && (how.Returned? ==> m == |kinds| && !p.PlanRaises?)
       case Receive => !s.over && s.bridge.queue != []
       case Disconnect => !s.over
  }

  /** The terminal event is the third of the service's own events, and the only one. */
  ghost predicate Told(kinds: seq<Kind>, m: nat, s: System) {
    && m <= |kinds|
    && (s.ended.None? ==> (s.bridge.terminalObserved <==> m == 3))
    && (s.ended == Some(Returned) ==> m == |kinds| && (s.bridge.terminalObserved <==> |kinds| == 3))
  }

  lemma {:induction false} ServedStep(p: Planning, status: Orchestrator.OrchestrationStatus, actions: seq<Action>)
    requires actions != [] && Served(p, OwnKinds(p, status), actions)
    requires var before := actions[..|actions| - 1];
             Told(OwnKinds(p, status), Own(OwnKinds(p, status), before), After(MultiAgent, before))
    ensures Enabled(MultiAgent, After(MultiAgent, actions[..|actions| - 1]), actions[|actions| - 1])
    ensures Told(OwnKinds(p, status), Own(OwnKinds(p, status), actions), After(MultiAgent, actions))
  {
  }

  lemma {:induction false} ServedIsTold(p: Planning, status: Orchestrator.OrchestrationStatus, actions: seq<Action>)
    requires Served(p, OwnKinds(p, status), actions)
    ensures Possible(MultiAgent, actions)
    ensures Told(OwnKinds(p, status), Own(OwnKinds(p, status), actions), After(MultiAgent, actions))
  {
    if actions != [] {
      hide Told, After, Own, OwnKinds;
      ServedIsTold(p, status, actions[..|actions| - 1]);
      ServedStep(p, status, actions);
    } else {
      NothingTold(p, status);
    }
  }

  lemma {:induction false} NothingTold(p: Planning, status: Orchestrator.OrchestrationStatus)
    ensures Told(OwnKinds(p, status), Own(OwnKinds(p, status), []), After(MultiAgent, []))
  {
  }

  /** Every interleaving is one the bridge is made for. A consumer that was not disconnected gets a terminal frame
      last, whatever the orchestration came to, if the service returned; except if the stored canvas could not be
      loaded, and then it never does. */
  lemma {:induction false} ConsumerIsTold(
      p: Planning, actions: seq<Action>, g: DependencyGraph.Graph<string>, rules: TaskSchedule.Rules,
      timeout: Option<int>, env: Orchestrator.Env, trace: seq<TaskSchedule.Action>, turn: nat,
      status: Orchestrator.OrchestrationStatus, code: Option<string>)
    requires p.Planned? ==>
               && TaskSchedule.Legal(g, rules, trace)
               && Orchestrator.Ended(g, rules, timeout, env, trace, turn, status, code)
    requires Served(p, OwnKinds(p, status), actions)
    ensures Possible(MultiAgent, actions)
    ensures var s := After(MultiAgent, actions);
            s.over && !s.disconnected && s.ended == Some(Returned) ==>
              && s.consumed != []
              && var last := s.consumed[|s.consumed| - 1];
                 if p.NoConfig? then last.Closed? else last.Frame? && last.event.kind.Terminal?
  {
    if p.Planned? {
      Orchestrator.EndFacts(g, rules, timeout, env, trace, turn, status, code);
    }
    ServedIsTold(p, status, actions);
    hide After, Possible, Own, Served, TaskSchedule.Legal, TaskSchedule.After, Orchestrator.Ended;
    var s := After(MultiAgent, actions);
    if s.over && !s.disconnected && s.ended == Some(Returned) {
      EndsWithTerminal(MultiAgent, actions);
      if p.PlanRaises? {
        RaisedPlanNeverReturns(p, status, actions);
      }
    }
  }

  lemma {:induction false} RaisedPlanNeverReturns(
      p: Planning, status: Orchestrator.OrchestrationStatus, actions: seq<Action>)
    requires p.PlanRaises? && Served(p, OwnKinds(p, status), actions)
    ensures After(MultiAgent, actions).ended != Some(Returned)
  {
    if actions != [] {
      RaisedPlanNeverReturns(p, status, actions[..|actions| - 1]);
    }
  }

  // ----- A run that is served -----

  function Numbered(kinds: seq<Kind>): seq<RunEvent> {
    seq(|kinds|, i requires 0 <= i < |kinds| => RunEvent(kinds[i], i))
  }

  lemma {:induction false} ObservedIs(b: Bridge, events: seq<RunEvent>)
    ensures ObserveAll(MultiAgent, b, events).queue ==
            b.queue + seq(|events|, i requires 0 <= i < |events| => Frame(events[i]))
    ensures ObserveAll(MultiAgent, b, events).terminalObserved <==>
            b.terminalObserved || exists i :: 0 <= i < |events| && events[i].kind.Terminal?
  {
    if events != [] {
      ObservedIs(b, events[..|events| - 1]);
    }
  }

  /** Runs a plan with the bridge as its observer; None: the stored canvas cannot be loaded. `chatter` is the number
      of events the subtasks report, `later` what happens to the producer while it stores the outcome. */
  method Serve(plan: Option<seq<Canvas.Subtask>>, config: Orchestrator.Config, env: Orchestrator.Env,
               chatter: nat, later: How)
    returns (stream: MultiAgentEventStream)
    ensures plan.Some? && later.Returned? ==>
              && |stream.queue| == chatter + 3
              && stream.queue[chatter + 2] == Frame(RunEvent(Terminal, chatter + 2))
    ensures plan.None? && later.Returned? ==> stream.queue == [Frame(RunEvent(Started, 0)), Closed]
  {
    stream := new MultiAgentEventStream();
    var kinds := [Started];
    if plan.Some? {
      var result, trace, turns := Orchestrator.Execute(plan.value, config, env);
      kinds := [Started, Progress] + seq(chatter, i => Progress);
      if !result.status.Running? {
        kinds := kinds + [Terminal];
      }
    }
    ghost var initial := stream.View();
    stream.Produce(Numbered(kinds), later);
    ObservedIs(initial, Numbered(kinds));
    assert plan.Some? ==> Numbered(kinds)[chatter + 2].kind.Terminal?;
  }
}
