/** An agent run that emits its events into the bridge, while the consumer takes them out (app/api/agent.py):
    what the consumer gets to see of the trace of the run. */
module AgentStreaming {
  import opened Wrappers
  import opened AgentTrace
  import opened AgentTheorems
  import AgentRuntime
  import opened EventStream

  function ToRunEvent(e: AgentTrace.Event): RunEvent {
    RunEvent(if e.what.RunStarted? then Started else if e.what.RunStopped? then Terminal else Progress, e.sequence)
  }

  function Frames(es: seq<AgentTrace.Event>): seq<Item> {
    seq(|es|, i requires 0 <= i < |es| => Frame(ToRunEvent(es[i])))
  }

  /** How many events were emitted, and how the producer ended. */
  function Emitted(actions: seq<Action>): nat {
    if actions == [] then 0
    else Emitted(actions[..|actions| - 1]) + if actions[|actions| - 1].Emit? then 1 else 0
  }

  function EndOf(actions: seq<Action>): Option<How> {
    if actions == [] then None
    else if actions[|actions| - 1].End? then Some(actions[|actions| - 1].how)
    else EndOf(actions[..|actions| - 1])
  }

  /** The producer emits the trace event by event and ends after the last one; the consumer takes items
      out of the queue and may disconnect, in any interleaving with the producer. */
  predicate Woven(es: seq<AgentTrace.Event>, actions: seq<Action>) {
    actions == [] ||
    var before, a := actions[..|actions| - 1], actions[|actions| - 1];
    && Woven(es, before)
    && match a
       case Emit(e) => EndOf(before).None? && Emitted(before) < |es| && e == ToRunEvent(es[Emitted(before)])
       case End(how) => EndOf(before).None? && Emitted(before) == |es|
       case Receive => !After(Agent, before).over && After(Agent, before).bridge.queue != []
       case Disconnect => !After(Agent, before).over
  }

  /** What the end of the producer puts behind the events of the run. A run that did not come to its RUN_STOPPED
      raised: the bridge then closes the trace with a terminal event of its own. */
  function Tail(es: seq<AgentTrace.Event>, how: How): seq<Item> {
    if PhaseOf(es).Ended? then (if how.Raised? then [Closed] else [])
    else if !how.Raised? then [Closed]
    else if es == [] then [SetupError, Closed, Closed]
    else [Frame(RunEvent(Terminal, |es| + 1)), Closed]
  }

  /** The state of the bridge after m emitted events. */
  ghost predicate Carries(es: seq<AgentTrace.Event>, m: nat, end: Option<How>, s: System) {
    && m <= |es| && s.counter == m + 1 && s.ended == end
    && if end.None? then
         && Log(s) == Frames(es[..m]) && s.bridge.started == (m > 0)
         && s.bridge.terminalObserved == PhaseOf(es[..m]).Ended?
         && s.bridge.lastSequence == (if m == 0 then None else Some(m))
       else m == |es| && Log(s) == Frames(es) + Tail(es, end.value)
  }

  lemma {:induction false} FramesAppend(es: seq<AgentTrace.Event>, m: nat)
    requires m < |es|
    ensures Frames(es[..m + 1]) == Frames(es[..m]) + [Frame(ToRunEvent(es[m]))]
  {
  }

  /** A proper trace starts with its only RUN_STARTED and stops at the first RUN_STOPPED. */
  lemma {:induction false} KindAt(rules: Rules, es: seq<AgentTrace.Event>, m: nat)
    requires Proper(rules, es) && m < |es|
    ensures !PhaseOf(es[..m]).Ended? && es[m].sequence == m + 1
    ensures es[m].what.RunStarted? <==> m == 0
    ensures es[m].what.RunStopped? <==> PhaseOf(es[..m + 1]).Ended?
  {
    hide Proper, PhaseOf, Spent, Uses, HasAnswer, HasDelta, AnswerText, Explained;
    EventAt(rules, es, m);
    PhaseNever(rules, es, m);
  }

  lemma {:induction false} EmitCarries(rules: Rules, es: seq<AgentTrace.Event>, m: nat, s: System)
    requires Proper(rules, es) && m < |es| && Carries(es, m, None, s)
    ensures Enabled(Agent, s, Emit(ToRunEvent(es[m])))
    ensures Carries(es, m + 1, None, Step(Agent, s, Emit(ToRunEvent(es[m]))))
  {
    hide Proper, PhaseOf;
    KindAt(rules, es, m);
    FramesAppend(es, m);
    assert Log(Step(Agent, s, Emit(ToRunEvent(es[m])))) == Log(s) + [Frame(ToRunEvent(es[m]))];
  }

  lemma {:induction false} EndCarries(es: seq<AgentTrace.Event>, s: System, how: How)
    requires Carries(es, |es|, None, s)
    ensures Carries(es, |es|, Some(how), Step(Agent, s, End(how)))
  {
    hide PhaseOf;
    assert es[..|es|] == es;
    var b := EventStream.Ending(Agent, s.bridge, how);
    assert b.queue == s.bridge.queue + Tail(es, how);
  }

  /** Whatever the consumer does meanwhile, the queue carries the events emitted so far. */
  lemma {:induction false} WovenCarries(rules: Rules, es: seq<AgentTrace.Event>, actions: seq<Action>)
    requires Proper(rules, es) && Woven(es, actions)
    ensures Possible(Agent, actions) && Carries(es, Emitted(actions), EndOf(actions), After(Agent, actions))
  {
    hide Proper, PhaseOf, Carries, Step;
    if actions == [] {
      EmptyCarries(es);
    } else {
      var before, a := actions[..|actions| - 1], actions[|actions| - 1];
      WovenCarries(rules, es, before);
      var s := After(Agent, before);
      match a {
        case Emit(e) => EmitCarries(rules, es, Emitted(before), s);
        case End(how) => NotEndedYet(es, Emitted(before), s); EndCarries(es, s, how);
        case _ => ConsumerKeeps(es, Emitted(before), EndOf(before), s, a);
      }
    }
  }

  lemma {:induction false} NotEndedYet(es: seq<AgentTrace.Event>, m: nat, s: System)
    requires Carries(es, m, None, s)
    ensures s.ended.None?
  {
  }

  lemma {:induction false} EmptyCarries(es: seq<AgentTrace.Event>)
    ensures Carries(es, 0, None, Start(Agent))
  {
    assert es[..0] == [];
  }

  lemma {:induction false} ConsumerKeeps(es: seq<AgentTrace.Event>, m: nat, end: Option<How>, s: System, a: Action)
    requires Carries(es, m, end, s) && (a.Receive? || a.Disconnect?) && Enabled(Agent, s, a)
    ensures Carries(es, m, end, Step(Agent, s, a))
  {
    hide PhaseOf, Frames, Tail;
    assert Log(Step(Agent, s, a)) == Log(s);
  }

  lemma {:induction false} FramesBarrier(rules: Rules, es: seq<AgentTrace.Event>, i: nat)
    requires Proper(rules, es) && i < |es|
    ensures Barrier(Frames(es)[i]) <==> PhaseOf(es).Ended? && i == |es| - 1
  {
    hide Proper, PhaseOf;
    KindAt(rules, es, i);
    if i + 1 < |es| {
      KindAt(rules, es, i + 1);
    }
    assert es[..|es|] == es;
  }

  /** The item the consumer stops at: the RUN_STOPPED of the run, or what its end put behind its events. */
  lemma {:induction false} LogShape(rules: Rules, es: seq<AgentTrace.Event>, m: nat, end: Option<How>, s: System)
    requires Proper(rules, es) && es != [] && Carries(es, m, end, s)
    ensures var items, k := Log(s), FirstBarrier(Log(s));
            && k <= |es| && items[..k] <= Frames(es)
            && (k < |items| && PhaseOf(es).Ended? ==> k == |es| - 1 && items[..k + 1] == Frames(es))
            && (k < |items| && !PhaseOf(es).Ended? ==> && end.Some? && k == |es|
                                                        && items[..k + 1] == Frames(es) + Tail(es, end.value)[..1])
  {
    hide Proper, PhaseOf, Frames, Tail, Log, FirstBarrier, Barrier;
    var items := Log(s);
    LogItems(es, m, end, s);
    forall i | 0 <= i < m
      ensures Barrier(items[i]) <==> PhaseOf(es).Ended? && i == |es| - 1
    {
      FramesBarrier(rules, es, i);
    }
    if end.Some? && !PhaseOf(es).Ended? {
      TailBars(es, end.value);
    }
    BarrierIsAt(items, if PhaseOf(es).Ended? then |es| - 1 else |es|);
  }

  lemma {:induction false} LogItems(es: seq<AgentTrace.Event>, m: nat, end: Option<How>, s: System)
    requires Carries(es, m, end, s)
    ensures |Frames(es)| == |es| && m <= |Log(s)| && Log(s)[..m] == Frames(es)[..m]
    ensures forall i :: 0 <= i < m ==> Log(s)[i] == Frames(es)[i]
    ensures if end.None? then |Log(s)| == m else m == |es| && Log(s) == Frames(es) + Tail(es, end.value)
  {
    hide Tail, PhaseOf;
  }

  lemma {:induction false} TailBars(es: seq<AgentTrace.Event>, how: How)
    requires !PhaseOf(es).Ended?
    ensures Tail(es, how) != [] && Barrier(Tail(es, how)[0])
  {
  }

  /** The only barrier up to position `last` is there, if the items reach that far. */
  lemma {:induction false} BarrierIsAt(items: seq<Item>, last: nat)
    requires forall i :: 0 <= i < |items| && i <= last ==> (Barrier(items[i]) <==> i == last)
    ensures FirstBarrier(items) == if last < |items| then last else |items|
  {
    var k := FirstBarrier(items);
    if last < |items| {
      assert Barrier(items[last]);
    }
  }

  /** Every interleaving of a run with its consumer is one the bridge is made for, and the consumer takes the
      events of the run in their order. One that was not disconnected leaves its loop only when it has got the
      whole trace, RUN_STOPPED last; if the run raised before that, a terminal event with the next number follows. */
  lemma {:induction false} ConsumerGetsTheRun(rules: Rules, es: seq<AgentTrace.Event>, actions: seq<Action>)
    requires Proper(rules, es) && es != [] && Woven(es, actions)
    ensures Possible(Agent, actions)
    ensures var s := After(Agent, actions);
            && (!s.over || s.disconnected ==> s.consumed <= Frames(es))
            && (s.over && !s.disconnected && PhaseOf(es).Ended? ==> s.consumed == Frames(es))
            && (s.over && !s.disconnected && !PhaseOf(es).Ended? ==>
                  && s.ended.Some?
                  && s.consumed == Frames(es) + [if s.ended.value.Raised? then Frame(RunEvent(Terminal, |es| + 1))
                                                 else Closed])
            && (s.ended.Some? && !s.over ==> s.bridge.queue != [])
  {
    WovenCarries(rules, es, actions);
    EveryInterleaving(Agent, actions);
    hide Proper, PhaseOf, After, Possible, Woven, Ordered;
    var s := After(Agent, actions);
    LogShape(rules, es, Emitted(actions), EndOf(actions), s);
    assert s.consumed == Log(s)[..|s.consumed|];
  }

  // ----- A run that is served -----

  function RunEvents(es: seq<AgentTrace.Event>): seq<RunEvent> {
    seq(|es|, i requires 0 <= i < |es| => ToRunEvent(es[i]))
  }

  lemma {:induction false} EmissionsAreWoven(es: seq<AgentTrace.Event>, n: nat)
    requires n <= |es|
    ensures var actions := seq(n, i requires 0 <= i < n => Emit(ToRunEvent(es[i])));
            Woven(es, actions) && Emitted(actions) == n && EndOf(actions).None?
  {
    var actions := seq(n, i requires 0 <= i < n => Emit(ToRunEvent(es[i])));
    if n > 0 {
      EmissionsAreWoven(es, n - 1);
      assert actions[..n - 1] == seq(n - 1, i requires 0 <= i < n - 1 => Emit(ToRunEvent(es[i])));
    }
  }

  /** A producer that nobody consumes from leaves the whole trace and its tail in the queue. */
  lemma {:induction false} ProductionLeaves(rules: Rules, es: seq<AgentTrace.Event>, how: How)
    requires Proper(rules, es)
    ensures var b := ObserveAll(Agent, Start(Agent).bridge, RunEvents(es));
            EventStream.Ending(Agent, b, how).queue == Frames(es) + Tail(es, how)
  {
    hide Proper, PhaseOf, Tail;
    var events, actions := RunEvents(es), Production(RunEvents(es), how);
    var emissions := actions[..|actions| - 1];
    assert emissions == seq(|es|, i requires 0 <= i < |es| => Emit(ToRunEvent(es[i])));
    assert emissions == seq(|events|, i requires 0 <= i < |events| => Emit(events[i]));
    EmissionsAreWoven(es, |es|);
    WovenCarries(rules, es, actions);
    EmissionsAre(Agent, events);
    ProductionIs(Agent, events, how);
    assert After(Agent, actions).consumed == [];
  }

  /** Runs the agent with the bridge as its observer. `later` is what happens to a producer whose run returned,
      while it stores the outcome. */
  method Serve(userInput: string, maxSteps: int, tokenBudget: Option<int>, streamAnswer: bool, env: Env, later: How)
    returns (o: AgentRuntime.RunOutcome, events: seq<AgentTrace.Event>, stream: AgentEventStream)
    ensures stream.queue == Frames(events) + Tail(events, if o.Raises? then Raised else later)
    ensures o.Ends? ==> PhaseOf(events).Ended? && events != []
  {
    o, events := AgentRuntime.Run(userInput, maxSteps, tokenBudget, streamAnswer, env);
    stream := new AgentEventStream();
    var how := if o.Raises? then Raised else later;
    stream.Produce(RunEvents(events), how);
    if AgentRuntime.GoodArguments(userInput, maxSteps, tokenBudget) {
      ProductionLeaves(Rules(userInput, tokenBudget, maxSteps, streamAnswer, env), events, how);
    } else {
      ProductionLeaves(Rules(userInput, None, 1, streamAnswer, env), events, how);
    }
  }
}
