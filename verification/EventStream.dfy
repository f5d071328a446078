/** The bridge from run events to one server-sent-events consumer (app/agents/stream.py,
    app/api/multi_agent.py): a producer and a consumer that share a queue, in any interleaving. */
module EventStream {
  import opened Wrappers

  /** The two bridges differ in how they notice that a run started and in what a synthesized
      terminal event leaves behind. */
  datatype Flavour = Agent | MultiAgent

  datatype Kind = Started | Progress | Terminal

  datatype RunEvent = RunEvent(kind: Kind, sequence: int)

  datatype Item = Frame(event: RunEvent) | SetupError | Closed

  datatype Bridge = Bridge(queue: seq<Item>, started: bool, terminalObserved: bool, lastSequence: Option<int>)

  function Put(b: Bridge, item: Item): Bridge {
    b.(queue := b.queue + [item])
  }

  function Later(last: Option<int>, sequence: int): int {
    if last.Some? && last.value > sequence then last.value else sequence
  }

  function Observe(f: Flavour, b: Bridge, e: RunEvent): Bridge {
    Put(b.(started := b.started || f.MultiAgent? || e.kind.Started?,
           terminalObserved := b.terminalObserved || e.kind.Terminal?,
           lastSequence := Some(Later(b.lastSequence, e.sequence))), Frame(e))
  }

  function Close(b: Bridge): Bridge {
    Put(b, Closed)
  }

  function FailSetup(b: Bridge): Bridge {
    Close(if b.terminalObserved then b else Put(b, SetupError))
  }

  function FailUnexpected(f: Flavour, b: Bridge): Bridge {
    if b.terminalObserved then Close(b)
    else if !b.started then FailSetup(b)
    else
      var stop := RunEvent(Terminal, if b.lastSequence.None? then 1 else b.lastSequence.value + 1);
      if f.Agent? then Close(Observe(f, b, stop))
      else Close(Put(b.(terminalObserved := true), Frame(stop)))
  }

  datatype How = Returned | Raised | WasCancelled

  /** The end of the producer: an exception is turned into a terminal item, and a stream on which no
      terminal event was observed is closed. */
  function Ending(f: Flavour, b: Bridge, how: How): Bridge {
    var b' := if how.Raised? then FailUnexpected(f, b) else b;
    if b'.terminalObserved then b' else Close(b')
  }

  /** The bridge after a sequence of events. */
  function ObserveAll(f: Flavour, b: Bridge, events: seq<RunEvent>): Bridge {
    if events == [] then b
    else Observe(f, ObserveAll(f, b, events[..|events| - 1]), events[|events| - 1])
  }

  class AgentEventStream {
    var queue: seq<Item>
    var runStartedObserved: bool
    var terminalObserved: bool
    var lastSequence: Option<int>

    function View(): Bridge
      reads this
    {
      Bridge(queue, runStartedObserved, terminalObserved, lastSequence)
    }

    constructor ()
      ensures View() == Bridge([], false, false, None)
    {
      queue, runStartedObserved, terminalObserved, lastSequence := [], false, false, None;
    }

    method ObserveEvent(e: RunEvent)
      modifies this
      ensures View() == Observe(Agent, old(View()), e)
      ensures lastSequence == Some(e.sequence) || lastSequence == old(lastSequence)
      ensures lastSequence.Some? && lastSequence.value >= e.sequence
      ensures old(lastSequence).Some? ==> lastSequence.value >= old(lastSequence).value
    {
      if e.kind == Started {
        runStartedObserved := true;
      } else if e.kind == Terminal {
        terminalObserved := true;
      }
      lastSequence := Some(if lastSequence.None? || lastSequence.value < e.sequence then e.sequence
                           else lastSequence.value);
      queue := queue + [Frame(e)];
    }

    method CloseStream()
      modifies this`queue
      ensures View() == Close(old(View()))
    {
      queue := queue + [Closed];
    }

    method FailSetupPhase()
      modifies this`queue
      ensures View() == FailSetup(old(View()))
    {
      if !terminalObserved {
        queue := queue + [SetupError];
      }
      CloseStream();
    }

    method Fail()
      modifies this
      ensures View() == FailUnexpected(Agent, old(View()))
    {
      if terminalObserved {
        CloseStream();
        return;
      }
      if !runStartedObserved {
        FailSetupPhase();
        return;
      }
      ObserveEvent(RunEvent(Terminal, if lastSequence.None? then 1 else lastSequence.value + 1));
      CloseStream();
    }

    /** The producer: the run reports its events, then returns, raises or is cancelled. */
    method Produce(events: seq<RunEvent>, how: How)
      modifies this
      ensures View() == Ending(Agent, ObserveAll(Agent, old(View()), events), how)
    {
      for i := 0 to |events|
        invariant View() == ObserveAll(Agent, old(View()), events[..i])
      {
        assert events[..i + 1][..i] == events[..i];
        ObserveEvent(events[i]);
      }
      assert events[..|events|] == events;
      if how.Raised? {
        Fail();
      }
      if !terminalObserved {
        CloseStream();
      }
    }
  }

  class MultiAgentEventStream {
    var queue: seq<Item>
    var runKnown: bool
    var terminalObserved: bool
    var lastSequence: Option<int>

    function View(): Bridge
      reads this
    {
      Bridge(queue, runKnown, terminalObserved, lastSequence)
    }

    constructor ()
      ensures View() == Bridge([], false, false, None)
    {
      queue, runKnown, terminalObserved, lastSequence := [], false, false, None;
    }

    method OnEvent(e: RunEvent)
      modifies this
      ensures View() == Observe(MultiAgent, old(View()), e)
      ensures lastSequence == Some(e.sequence) || lastSequence == old(lastSequence)
      ensures lastSequence.Some? && lastSequence.value >= e.sequence
      ensures old(lastSequence).Some? ==> lastSequence.value >= old(lastSequence).value
    {
      if e.kind == Terminal {
        terminalObserved := true;
      }
      runKnown := true;
      lastSequence := Some(if lastSequence.None? || lastSequence.value < e.sequence then e.sequence
                           else lastSequence.value);
      queue := queue + [Frame(e)];
    }

    method Fail()
      modifies this
      ensures View() == FailUnexpected(MultiAgent, old(View()))
    {
      if terminalObserved {
        queue := queue + [Closed];
        return;
      }
      if !runKnown {
        queue := queue + [SetupError] + [Closed];
        return;
      }
      terminalObserved := true;
      queue := queue + [Frame(RunEvent(Terminal, if lastSequence.None? then 1 else lastSequence.value + 1))] + [Closed];
    }

    /** The producer: the run reports its events, then returns, raises or is cancelled. */
    method Produce(events: seq<RunEvent>, how: How)
      modifies this
      ensures View() == Ending(MultiAgent, ObserveAll(MultiAgent, old(View()), events), how)
    {
      for i := 0 to |events|
        invariant View() == ObserveAll(MultiAgent, old(View()), events[..i])
      {
        assert events[..i + 1][..i] == events[..i];
        OnEvent(events[i]);
      }
      assert events[..|events|] == events;
      if how.Raised? {
        Fail();
      }
      if !terminalObserved {
        queue := queue + [Closed];
      }
    }
  }

  // ----- Producer and consumer -----

  datatype Action = Emit(event: RunEvent) | End(how: How) | Receive | Disconnect

  /** `consumed` is what the consumer took from the queue; `over` says that it left its loop. */
  datatype System = System(
    bridge: Bridge, counter: int, ended: Option<How>,
    consumed: seq<Item>, over: bool, disconnected: bool)

  function Start(f: Flavour): System {
    System(Bridge([], false, false, None), if f.Agent? then 1 else 0, None, [], false, false)
  }

  /** The items after which the consumer leaves its loop. */
  predicate Barrier(item: Item) {
    item.Frame? ==> item.event.kind.Terminal?
  }

  /** Events carry the numbers of their counter. An agent run starts with its only start event and emits
      nothing after its terminal one; subtasks of a multi-agent run that were not awaited may still emit
      progress after the terminal event and even after the producer ended. */
  predicate Enabled(f: Flavour, s: System, a: Action) {
    match a
    case Emit(e) =>
      && e.sequence == s.counter
      && (f.Agent? ==> s.ended.None? && !s.bridge.terminalObserved && (e.kind.Started? <==> s.counter == 1))
      && (f.MultiAgent? ==> e.kind.Terminal? ==> s.ended.None? && !s.bridge.terminalObserved)
    case End(how) => s.ended.None?
    case Receive => !s.over && s.bridge.queue != []
    case Disconnect => !s.over
  }

  function Step(f: Flavour, s: System, a: Action): System {
    match a
    case Emit(e) => s.(bridge := Observe(f, s.bridge, e), counter := s.counter + 1)
    case End(how) => s.(bridge := Ending(f, s.bridge, how), ended := Some(how))
    case Receive =>
      if s.bridge.queue == [] then s
      else
        var item := s.bridge.queue[0];
        s.(bridge := s.bridge.(queue := s.bridge.queue[1..]), consumed := s.consumed + [item], over := Barrier(item))
    case Disconnect => s.(over := true, disconnected := true)
  }

  /** The state after an interleaving of producer and consumer. */
  function After(f: Flavour, actions: seq<Action>): System {
    if actions == [] then Start(f) else Step(f, After(f, actions[..|actions| - 1]), actions[|actions| - 1])
  }

  predicate Possible(f: Flavour, actions: seq<Action>) {
    actions == [] ||
    (Possible(f, actions[..|actions| - 1]) && Enabled(f, After(f, actions[..|actions| - 1]), actions[|actions| - 1]))
  }

  /** The events of a producer with nobody consuming, and its end. */
  function Production(events: seq<RunEvent>, how: How): seq<Action> {
    seq(|events|, i requires 0 <= i < |events| => Emit(events[i])) + [End(how)]
  }

  lemma {:induction false} EmissionsAre(f: Flavour, events: seq<RunEvent>)
    ensures After(f, seq(|events|, i requires 0 <= i < |events| => Emit(events[i]))) ==
            Start(f).(bridge := ObserveAll(f, Start(f).bridge, events), counter := Start(f).counter + |events|)
  {
    if events != [] {
      var shorter := events[..|events| - 1];
      EmissionsAre(f, shorter);
      var actions := seq(|events|, i requires 0 <= i < |events| => Emit(events[i]));
      assert actions[..|actions| - 1] == seq(|shorter|, i requires 0 <= i < |shorter| => Emit(shorter[i]));
    }
  }

  /** What a producer leaves in a fresh bridge is what its actions lead to. */
  lemma {:induction false} ProductionIs(f: Flavour, events: seq<RunEvent>, how: How)
    ensures After(f, Production(events, how)).bridge == Ending(f, ObserveAll(f, Start(f).bridge, events), how)
  {
    EmissionsAre(f, events);
    var actions := Production(events, how);
    assert actions[..|actions| - 1] == seq(|events|, i requires 0 <= i < |events| => Emit(events[i]));
  }

  // ----- What holds in every interleaving -----

  /** Everything that was ever put into the queue. */
  function Log(s: System): seq<Item> {
    s.consumed + s.bridge.queue
  }

  /** The position of the first barrier, or the length if there is none. */
  function FirstBarrier(items: seq<Item>): (k: nat)
    ensures k <= |items| && (k < |items| ==> Barrier(items[k]))
    ensures forall i :: 0 <= i < k ==> !Barrier(items[i])
  {
    if items == [] || Barrier(items[0]) then 0 else 1 + FirstBarrier(items[1..])
  }

  /** Up to the first barrier the frames are numbered upwards. */
  ghost predicate Ordered(items: seq<Item>) {
    forall i, j :: 0 <= i < j < |items| && j <= FirstBarrier(items) && items[i].Frame? && items[j].Frame? ==>
      items[i].event.sequence < items[j].event.sequence
  }

  /** Before the first barrier: only frames, numbered below the counter, and nothing ended. */
  ghost predicate Running(f: Flavour, s: System, items: seq<Item>) {
    && (forall i :: 0 <= i < |items| ==> items[i].Frame? && items[i].event.sequence < s.counter)
    && s.bridge.lastSequence == (if items == [] then None else Some(s.counter - 1))
    && (items == [] ==> s.counter == Start(f).counter)
    && s.bridge.started == (items != [])
    && !s.bridge.terminalObserved && s.ended.None? && s.counter >= Start(f).counter
  }

  /** The first barrier tells how the stream came to its end. */
  ghost predicate Barred(s: System, barrier: Item) {
    && s.bridge.terminalObserved == barrier.Frame?
    && (s.ended.None? ==> barrier.Frame?)
    && (s.ended == Some(Raised) ==> !barrier.Closed?)
    && (barrier.SetupError? ==> s.ended == Some(Raised))
  }

  ghost predicate StreamInv(f: Flavour, s: System) {
    var items := Log(s);
    var k := FirstBarrier(items);
    && Ordered(items)
    && (if k == |items| then Running(f, s, items) else Barred(s, items[k]))
    && (if s.over && !s.disconnected then k < |items| && |s.consumed| == k + 1 else |s.consumed| <= k)
    && (s.disconnected ==> s.over)
    && (k < |items| && items[k].SetupError? ==> k == 0)
  }

  lemma {:induction false} BarrierAppend(items: seq<Item>, x: Item)
    ensures FirstBarrier(items + [x]) ==
            if FirstBarrier(items) < |items| then FirstBarrier(items)
            else if Barrier(x) then |items| else |items| + 1
  {
    if items != [] && !Barrier(items[0]) {
      assert (items + [x])[1..] == items[1..] + [x];
      BarrierAppend(items[1..], x);
    }
  }

  /** Behind a barrier anything may be put. */
  lemma {:induction false} AppendBehind(items: seq<Item>, x: Item)
    requires Ordered(items) && FirstBarrier(items) < |items|
    ensures Ordered(items + [x]) && FirstBarrier(items + [x]) == FirstBarrier(items)
  {
    BarrierAppend(items, x);
  }

  lemma {:induction false} AppendFront(items: seq<Item>, x: Item)
    requires Ordered(items) && FirstBarrier(items) == |items|
    requires x.Frame? ==> forall i :: 0 <= i < |items| && items[i].Frame? ==> items[i].event.sequence < x.event.sequence
    ensures Ordered(items + [x]) && FirstBarrier(items + [x]) == if Barrier(x) then |items| else |items| + 1
  {
    BarrierAppend(items, x);
  }

  lemma {:induction false} EmitKeeps(f: Flavour, s: System, e: RunEvent)
    requires StreamInv(f, s) && Enabled(f, s, Emit(e))
    ensures StreamInv(f, Step(f, s, Emit(e)))
  {
    hide Ordered, FirstBarrier;
    var s' := Step(f, s, Emit(e));
    assert Log(s') == Log(s) + [Frame(e)];
    if FirstBarrier(Log(s)) < |Log(s)| {
      AppendBehind(Log(s), Frame(e));
    } else {
      AppendFront(Log(s), Frame(e));
    }
  }

  /** A producer that ends without a terminal event and without an exception closes the stream. */
  lemma {:induction false} QuietEndKeeps(f: Flavour, s: System, how: How)
    requires StreamInv(f, s) && Enabled(f, s, End(how)) && !how.Raised?
    ensures StreamInv(f, Step(f, s, End(how)))
  {
    hide Ordered, FirstBarrier;
    var s' := Step(f, s, End(how));
    if FirstBarrier(Log(s)) == |Log(s)| {
      assert Log(s') == Log(s) + [Closed];
      AppendFront(Log(s), Closed);
    }
  }

  /** The failure of a run that emitted nothing. */
  lemma {:induction false} SetupFailureKeeps(f: Flavour, s: System)
    requires StreamInv(f, s) && Enabled(f, s, End(Raised)) && Log(s) == []
    ensures StreamInv(f, Step(f, s, End(Raised)))
  {
    SetupFailurePuts(f, s);
    hide Step;
    assert Barrier(SetupError);
    assert FirstBarrier([SetupError, Closed, Closed]) == 0;
  }

  lemma {:induction false} SetupFailurePuts(f: Flavour, s: System)
    requires StreamInv(f, s) && Enabled(f, s, End(Raised)) && Log(s) == []
    ensures var s' := Step(f, s, End(Raised));
            && s' == s.(bridge := s.bridge.(queue := [SetupError, Closed, Closed]), ended := Some(Raised))
            && Log(s') == [SetupError, Closed, Closed]
            && s.consumed == [] && !s.bridge.terminalObserved && s.over == s.disconnected
  {
    assert |s.consumed| + |s.bridge.queue| == 0;
    hide Ordered;
  }

  /** The failure of a run that emitted events, but no terminal one: the synthesized terminal event takes
      the number after the last. */
  lemma {:induction false} FailureIsNumberedNext(f: Flavour, s: System)
    requires StreamInv(f, s) && Enabled(f, s, End(Raised)) && Log(s) != [] && !s.bridge.terminalObserved
    ensures Log(Step(f, s, End(Raised))) == Log(s) + [Frame(RunEvent(Terminal, s.counter))] + [Closed]
    ensures StreamInv(f, Step(f, s, End(Raised)))
  {
    hide Ordered, FirstBarrier;
    var items, stop := Log(s), Frame(RunEvent(Terminal, s.counter));
    assert FirstBarrier(items) == |items|;
    assert Log(Step(f, s, End(Raised))) == items + [stop] + [Closed];
    AppendFront(items, stop);
    AppendBehind(items + [stop], Closed);
  }

  /** The failure of a run whose terminal event was already observed. */
  lemma {:induction false} LateFailureKeeps(f: Flavour, s: System)
    requires StreamInv(f, s) && Enabled(f, s, End(Raised)) && s.bridge.terminalObserved
    ensures StreamInv(f, Step(f, s, End(Raised)))
  {
    hide Ordered, FirstBarrier;
    assert Log(Step(f, s, End(Raised))) == Log(s) + [Closed];
    AppendBehind(Log(s), Closed);
  }

  lemma {:induction false} ReceiveKeeps(f: Flavour, s: System)
    requires StreamInv(f, s) && Enabled(f, s, Receive)
    ensures StreamInv(f, Step(f, s, Receive))
  {
    var s' := Step(f, s, Receive);
    assert Log(s') == Log(s);
    assert s.bridge.queue[0] == Log(s)[|s.consumed|];
  }

  lemma {:induction false} StepKeeps(f: Flavour, s: System, a: Action)
    requires StreamInv(f, s) && Enabled(f, s, a)
    ensures StreamInv(f, Step(f, s, a))
  {
    hide StreamInv, Step, Log;
    match a
    case Emit(e) => EmitKeeps(f, s, e);
    case End(how) =>
      if !how.Raised? {
        QuietEndKeeps(f, s, how);
      } else if s.bridge.terminalObserved {
        LateFailureKeeps(f, s);
      } else if Log(s) == [] {
        SetupFailureKeeps(f, s);
      } else {
        FailureIsNumberedNext(f, s);
      }
    case Receive => ReceiveKeeps(f, s);
    case Disconnect => DisconnectKeeps(f, s);
  }

  lemma {:induction false} DisconnectKeeps(f: Flavour, s: System)
    requires StreamInv(f, s) && Enabled(f, s, Disconnect)
    ensures StreamInv(f, Step(f, s, Disconnect))
  {
    assert Log(Step(f, s, Disconnect)) == Log(s);
  }

  lemma {:induction false} EveryInterleaving(f: Flavour, actions: seq<Action>)
    requires Possible(f, actions)
    ensures StreamInv(f, After(f, actions))
  {
    if actions != [] {
      hide StreamInv, Step, Enabled;
      var before := actions[..|actions| - 1];
      EveryInterleaving(f, before);
      StepKeeps(f, After(f, before), actions[|actions| - 1]);
    } else {
      assert Log(Start(f)) == [];
    }
  }

  /** The frames the consumer passes on are numbered strictly upwards, and only the last item it takes
      can be a terminal frame, a setup error or the closing mark. */
  lemma {:induction false} DeliveredInOrder(f: Flavour, actions: seq<Action>, i: nat, j: nat)
    requires Possible(f, actions) && i < j < |After(f, actions).consumed|
    ensures var items := After(f, actions).consumed;
            && !Barrier(items[i])
            && (items[j].Frame? ==> items[i].event.sequence < items[j].event.sequence)
  {
    EveryInterleaving(f, actions);
    var s := After(f, actions);
    assert Log(s)[i] == s.consumed[i] && Log(s)[j] == s.consumed[j];
  }

  /** Once the producer has ended, a consumer that is still in its loop never waits in vain. */
  lemma {:induction false} ConsumerNeverHangs(f: Flavour, actions: seq<Action>)
    requires Possible(f, actions) && After(f, actions).ended.Some? && !After(f, actions).over
    ensures After(f, actions).bridge.queue != []
  {
    EveryInterleaving(f, actions);
  }

  /** A consumer that was not disconnected ends on a terminal frame or a setup error, unless the producer
      returned or was cancelled without any terminal event. A setup error means that no event was emitted. */
  lemma {:induction false} EndsWithTerminal(f: Flavour, actions: seq<Action>)
    requires Possible(f, actions) && After(f, actions).over && !After(f, actions).disconnected
    ensures var s := After(f, actions);
            && s.consumed != []
            && (var last := s.consumed[|s.consumed| - 1];
                && Barrier(last)
                && (s.bridge.terminalObserved <==> last.Frame?)
                && (s.ended == Some(Raised) ==> !last.Closed?)
                && (s.ended.None? ==> last.Frame?)
                && (last.SetupError? ==> s.ended == Some(Raised) && |s.consumed| == 1))
  {
    EveryInterleaving(f, actions);
    var s := After(f, actions);
    assert Log(s)[|s.consumed| - 1] == s.consumed[|s.consumed| - 1];
  }
}
