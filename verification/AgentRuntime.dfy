/** The bounded model-tool loop (app/agents/runtime.py).

    The model, the tools, the clock and cancellation are the oracles of AgentTrace.Env. */
module AgentRuntime {
  import opened Wrappers
  import opened PyText
  import opened AgentTrace

  datatype Step = Step(index: nat, decision: Decision, toolResults: seq<ToolResult>)

  datatype RunResult = RunResult(
    status: RunStatus, reason: StopReason, answer: Option<string>, error: Option<string>,
    steps: seq<Step>, tokenUsage: nat, events: seq<Event>)

  // ----- The tool cache -----

  function StepUses(s: Step): seq<Use> {
    seq(if |s.decision.toolCalls| < |s.toolResults| then |s.decision.toolCalls| else |s.toolResults|,
        i requires 0 <= i < |s.decision.toolCalls| && i < |s.toolResults| =>
          Use(s.index, s.decision.toolCalls[i], s.toolResults[i]))
  }

  function StepsUses(steps: seq<Step>): seq<Use> {
    if steps == [] then [] else StepsUses(steps[..|steps| - 1]) + StepUses(steps[|steps| - 1])
  }

  predicate Hit(u: Use, call: ToolCall) {
    u.result.succeeded && SameFingerprint(u.call, call)
  }

  ghost predicate FirstHit(uses: seq<Use>, call: ToolCall, u: Use) {
    exists i :: 0 <= i < |uses| && uses[i] == u && Hit(u, call) && forall j :: 0 <= j < i ==> !Hit(uses[j], call)
  }

  /** The result of the first earlier success of the same call. */
  method FindCached(steps: seq<Step>, call: ToolCall) returns (r: Option<ToolResult>, ghost from: Use)
    ensures r.Some? ==> FirstHit(StepsUses(steps), call, from) && from.result == r.value
    ensures r.None? ==> forall u :: u in StepsUses(steps) ==> !Hit(u, call)
    ensures r.Some? <==>
            exists u :: && u in StepsUses(steps) && u.result.succeeded
                        && u.call.name == call.name && u.call.arguments == call.arguments
    ensures r.Some? ==> && from in StepsUses(steps) && r.value.succeeded
                        && from.call.name == call.name && from.call.arguments == call.arguments
  {
    from := *;
    for i := 0 to |steps|
      invariant forall u :: u in StepsUses(steps[..i]) ==> !Hit(u, call)
    {
      var uses := StepUses(steps[i]);
      assert steps[..i + 1][..i] == steps[..i];
      ghost var before := StepsUses(steps[..i]);
      for j := 0 to |uses|
        invariant forall m :: 0 <= m < j ==> !Hit(uses[m], call)
      {
        if Hit(uses[j], call) {
          from := uses[j];
          HitInPrefix(steps, i, call, StepsUses(steps[..i + 1]), |before| + j);
          return Some(uses[j].result), from;
        }
      }
    }
    assert steps[..|steps|] == steps;
    return None, from;
  }

  /** A first hit among the uses of a prefix of the steps is the first hit among all. */
  lemma {:induction false} HitInPrefix(steps: seq<Step>, i: nat, call: ToolCall, uses: seq<Use>, p: nat)
    requires i < |steps| && uses == StepsUses(steps[..i + 1]) && p < |uses|
    requires Hit(uses[p], call) && forall j :: 0 <= j < p ==> !Hit(uses[j], call)
    ensures FirstHit(StepsUses(steps), call, uses[p])
    decreases |steps| - i
  {
    if i + 1 == |steps| {
      assert steps[..i + 1] == steps;
    } else {
      assert steps[..i + 2][..i + 1] == steps[..i + 1];
      HitInPrefix(steps, i + 1, call, StepsUses(steps[..i + 2]), p);
    }
  }

  /** Every finished tool call of a proper trace obeys the cache rule against the calls before it. */
  lemma {:induction false} UsesObey(rules: Rules, es: seq<Event>, i: nat)
    requires Proper(rules, es) && i < |Uses(es)|
    ensures var u := Uses(es)[i]; CacheRule(Uses(es)[..i], u.step, u.call, u.result)
  {
    var before := es[..|es| - 1];
    if i < |Uses(before)| {
      UsesObey(rules, before, i);
      assert Uses(es)[..i] == Uses(before)[..i];
    } else {
      assert Uses(es)[..i] == Uses(before);
    }
  }

  /** The first success of a call was really executed. */
  lemma {:induction false} FirstHitIsExecuted(rules: Rules, es: seq<Event>, call: ToolCall, u: Use)
    requires Proper(rules, es) && FirstHit(Uses(es), call, u)
    ensures !u.result.cached
  {
    var uses := Uses(es);
    var i :| 0 <= i < |uses| && uses[i] == u && Hit(u, call) && forall j :: 0 <= j < i ==> !Hit(uses[j], call);
    UsesObey(rules, es, i);
  }

  // ----- Bookkeeping of steps -----

  /** How many steps were closed. */
  function Closed(ph: Phase): nat {
    if OpenStep(ph).Some? && Opened(ph) > 0 then Opened(ph) - 1 else Opened(ph)
  }

  /** The steps with a STEP_STARTED event, and those with a STEP_COMPLETED event. */
  function StartedSteps(es: seq<Event>): set<nat> {
    if es == [] then {}
    else
      var w := es[|es| - 1].what;
      StartedSteps(es[..|es| - 1]) + if w.StepStarted? then {w.step} else {}
  }

  function CompletedSteps(es: seq<Event>): set<nat> {
    if es == [] then {}
    else
      var w := es[|es| - 1].what;
      CompletedSteps(es[..|es| - 1]) + if w.StepCompleted? then {w.step} else {}
  }

  /** The steps are 1, 2, .., n. */
  ghost predicate UpTo(steps: set<nat>, n: nat) {
    forall s :: s in steps <==> 1 <= s <= n
  }

  lemma {:induction false} NextCounts(ph: Phase, w: What)
    requires Next(ph, w) != Broken && (OpenStep(ph).Some? ==> Opened(ph) > 0)
    ensures OpenStep(Next(ph, w)).Some? ==> Opened(Next(ph, w)) > 0
    ensures var up := Opened(Next(ph, w)); if w.StepStarted? then up == w.step == Opened(ph) + 1 else up == Opened(ph)
    ensures var down := Closed(Next(ph, w));
            if w.StepCompleted? then down == w.step == Closed(ph) + 1 else down == Closed(ph)
  {
    hide ValidDecision;
  }

  lemma {:induction false} LastPhase(rules: Rules, es: seq<Event>)
    requires Proper(rules, es) && es != []
    ensures Proper(rules, es[..|es| - 1])
    ensures PhaseOf(es) == Next(PhaseOf(es[..|es| - 1]), es[|es| - 1].what) != Broken
  {
  }

  /** The steps opened are 1 .. k, and all of them are closed but an open one. */
  lemma {:induction false} StepSets(rules: Rules, es: seq<Event>)
    requires Proper(rules, es)
    ensures PhaseOf(es) != Broken
    ensures OpenStep(PhaseOf(es)).Some? ==> Opened(PhaseOf(es)) > 0
    ensures UpTo(StartedSteps(es), Opened(PhaseOf(es))) && UpTo(CompletedSteps(es), Closed(PhaseOf(es)))
  {
    hide Next, StartedSteps, CompletedSteps, Proper, PhaseOf;
    if es != [] {
      var before := es[..|es| - 1];
      LastPhase(rules, es);
      StepSets(rules, before);
      NextCounts(PhaseOf(before), es[|es| - 1].what);
      ExtendStepSets(es, Opened(PhaseOf(before)), Opened(PhaseOf(es)), Closed(PhaseOf(before)), Closed(PhaseOf(es)));
    } else {
      EmptyTrace();
    }
  }

  lemma {:induction false} EmptyTrace()
    ensures PhaseOf([]) == Fresh && StartedSteps([]) == {} && CompletedSteps([]) == {}
  {
  }

  lemma {:induction false} ExtendStepSets(es: seq<Event>, up0: nat, up1: nat, down0: nat, down1: nat)
    requires es != []
    requires UpTo(StartedSteps(es[..|es| - 1]), up0) && UpTo(CompletedSteps(es[..|es| - 1]), down0)
    requires var w := es[|es| - 1].what; if w.StepStarted? then up1 == w.step == up0 + 1 else up1 == up0
    requires var w := es[|es| - 1].what; if w.StepCompleted? then down1 == w.step == down0 + 1 else down1 == down0
    ensures UpTo(StartedSteps(es), up1) && UpTo(CompletedSteps(es), down1)
  {
  }

  lemma {:induction false} NoAnswerNoText(es: seq<Event>)
    requires !HasAnswer(es) && !HasDelta(es)
    ensures AnswerText(es) == ""
  {
    if es != [] {
      NoAnswerNoText(es[..|es| - 1]);
    }
  }

  lemma {:induction false} LastNumber(rules: Rules, es: seq<Event>)
    requires Proper(rules, es)
    ensures es != [] ==> es[|es| - 1].sequence == |es|
  {
  }

  // ----- The run -----

  datatype StepOutcome = GoOn | Finished(result: RunResult) | Escapes(message: string)

  datatype ToolsOutcome =
    | ToolsDone(results: seq<ToolResult>, reused: Option<ToolResult>)
    | ToolsStop(why: Interruption)
    | ToolsEscape(message: string)

  /** The mutable state of one run. */
  class AgentRun {
    const rules: Rules
    var events: seq<Event>
    var steps: seq<Step>
    var tokenUsage: nat

    constructor (rules: Rules)
      ensures this.rules == rules
      ensures events == [] && steps == [] && tokenUsage == 0
    {
      this.rules := rules;
      events, steps, tokenUsage := [], [], 0;
    }

    /** Appends an event, numbered and dated after the previous one. */
    method Emit(w: What)
      requires Proper(rules, events) && Admissible(rules, events, w)
      modifies this`events
      ensures Proper(rules, events) && Grown(old(events), events, w)
    {
      hide Proper, Admissible, Grown, PhaseOf, Spent, AnswerText, HasAnswer, HasDelta, Uses, Decisions;
      LastNumber(rules, events);
      var occurredAt := rules.env.now(|events|);
      if events != [] && occurredAt < events[|events| - 1].occurredAt {
        occurredAt := events[|events| - 1].occurredAt;
      }
      var sequence := if events == [] then 1 else events[|events| - 1].sequence + 1;
      var e := Event(sequence, occurredAt, w);
      Append(rules, events, e);
      AppendFacts(events, e);
      events := events + [e];
    }

    /** Closes every step that was started and not completed, in ascending order. */
    method CompleteOpenSteps()
      requires Proper(rules, events) && Stoppable(PhaseOf(events))
      modifies this`events
      ensures Proper(rules, events)
      ensures PhaseOf(events) == match OpenStep(old(PhaseOf(events)))
                                 case None => old(PhaseOf(events))
                                 case Some(k) => Next(old(PhaseOf(events)), StepCompleted(k))
      ensures Spent(events) == old(Spent(events)) && AnswerText(events) == old(AnswerText(events))
      ensures HasAnswer(events) == old(HasAnswer(events)) && HasDelta(events) == old(HasDelta(events))
      ensures Uses(events) == old(Uses(events)) && Decisions(events) == old(Decisions(events))
      ensures Closes(old(events), events, OpenStep(old(PhaseOf(events))))
    {
      hide Proper, PhaseOf, Spent, AnswerText, HasAnswer, HasDelta, Uses, Decisions, StartedSteps, CompletedSteps;
      StepSets(rules, events);
      var open := StartedSteps(events) - CompletedSteps(events);
      ghost var step := OpenStep(PhaseOf(events));
      assert open == match step case None => {} case Some(k) => {k};
      while open != {}
        invariant if open == {} then true else events == old(events) && step.Some? && open == {step.value}
        invariant open == {} ==>
          && Proper(rules, events)
          && PhaseOf(events) == (if step.None? then old(PhaseOf(events))
                                 else Next(old(PhaseOf(events)), StepCompleted(step.value)))
          && Spent(events) == old(Spent(events)) && AnswerText(events) == old(AnswerText(events))
          && HasAnswer(events) == old(HasAnswer(events)) && HasDelta(events) == old(HasDelta(events))
          && Uses(events) == old(Uses(events)) && Decisions(events) == old(Decisions(events))
          && Closes(old(events), events, step)
      {
        var least :| least in open && forall s :: s in open ==> least <= s;
        Emit(StepCompleted(least));
        open := open - {least};
      }
    }

    /** Closes open steps and announces an answer that was not announced yet. */
    method Close(answer: Option<string>)
      requires Proper(rules, events) && Stoppable(PhaseOf(events))
      requires answer.Some? ==> Announceable(rules, events, answer.value)
      modifies this`events
      ensures Proper(rules, events) && Stoppable(PhaseOf(events)) && OpenStep(PhaseOf(events)) == None
      ensures Spent(events) == old(Spent(events))
      ensures Uses(events) == old(Uses(events)) && Decisions(events) == old(Decisions(events))
      ensures answer.Some? ==> && Answered(rules.env, events) && AnswerText(events) == answer.value
                               && events != [] && Justified(rules, events[..|events| - 1], answer.value)
      ensures answer.None? ==> && HasAnswer(events) == old(HasAnswer(events))
                               && AnswerText(events) == old(AnswerText(events))
                               && Closes(old(events), events, OpenStep(old(PhaseOf(events))))
      ensures HasDelta(events) == old(HasDelta(events))
    {
      hide Proper, PhaseOf, Spent, AnswerText, HasAnswer, HasDelta, Uses, Decisions, CalculatorAnswer;
      CompleteOpenSteps();
      if answer.Some? && !HasAnswer(events) && !HasDelta(events) {
        NoAnswerNoText(events);
        assert AnswerText(events) + answer.value == answer.value;
        Emit(Answer(None, answer.value));
      }
    }

    /** Ends the run. The source announces the answer only for COMPLETED; no other status has one. */
    method Finish(ending: Ending, answer: Option<string>) returns (result: RunResult)
      requires Proper(rules, events) && Stoppable(PhaseOf(events)) && tokenUsage == Spent(events)
      requires MayEnd(ending, answer) && Mirrors(steps, events)
      requires if answer.Some? then Announceable(rules, events, answer.value)
               else StopsFor(rules, events, ending) && !Answered(rules.env, events)
      requires answer.Some? || ending.reason == MaxSteps ==>
                 Within(rules.budget, Spent(events)) && Covers(steps, events)
      modifies this`events
      ensures Concluded(rules, events, result) && HasDelta(events) == old(HasDelta(events))
      ensures result.status == ending.status && result.reason == ending.reason
      ensures result.answer == answer && result.steps == steps
    {
      hide Proper, PhaseOf, Spent, AnswerText, HasAnswer, HasDelta, Uses, Decisions, Cause, Justified, Mirrors, Covers;
      ghost var before := events;
      Close(answer);
      MirrorsKept(steps, before, events);
      if answer.None? {
        StopIsExplained(rules, before, events, ending);
      }
      var Ending(status, reason, error) := ending;
      Emit(RunStopped(status, reason, error, tokenUsage));
      MirrorsKept(steps, before, events);
      var shown := ResultEvents(events);
      result := RunResult(status, reason, answer, error, steps, tokenUsage, shown);
    }

    /** The result of a tool call: taken from an earlier step if that succeeded, executed otherwise. */
    method Obtain(k: nat, call: ToolCall) returns (o: CallOutcome)
      requires Proper(rules, events) && FullSteps(steps) && |steps| + 1 == k
      requires Extends(Uses(events), StepsUses(steps), k)
      ensures o.Called? ==> Obtained(rules.env, events, k, call, o.result) && o.result.callId == call.callId
      ensures !o.Called? ==> Unknown(Uses(events), k, call)
      ensures o.CallStops? ==> !o.why.Exception? && rules.env.tool(|events|) == ToolFails(o.why)
      ensures o.CallEscapes? ==> rules.env.tool(|events|) == ToolFails(Exception(o.message))
    {
      var cached, from := FindCached(steps, call);
      if cached.Some? {
        ReuseIsSound(rules, events, steps, call, k, from);
        return Called(cached.value.(callId := call.callId, cached := true));
      }
      ExecutionIsSound(Uses(events), steps, call, k);
      match rules.env.tool(|events|) {
        case ToolFails(Exception(message)) => return CallEscapes(message);
        case ToolFails(why) => return CallStops(why);
        case Gives(content, succeeded, error, truncated) =>
          return Called(ToolResult(call.callId, call.name, content, succeeded, error, truncated, false));
      }
    }

    method EndCall(k: nat, d: Decision, n: nat, r: ToolResult)
      requires Proper(rules, events) && PhaseOf(events) == Calling(k, d, n) && n < |d.toolCalls|
      requires r.callId == d.toolCalls[n].callId && Obtained(rules.env, events, k, d.toolCalls[n], r)
      modifies this`events
      ensures Proper(rules, events) && PhaseOf(events) == Acting(k, d, n + 1)
      ensures Spent(events) == old(Spent(events)) && Decisions(events) == old(Decisions(events))
      ensures HasAnswer(events) == old(HasAnswer(events)) && HasDelta(events) == old(HasDelta(events))
      ensures Uses(events) == old(Uses(events)) + [Use(k, d.toolCalls[n], r)]
    {
      hide Proper, PhaseOf, Spent, AnswerText, HasAnswer, HasDelta, Uses, StepsUses, StartedSteps, CompletedSteps;
      var call := d.toolCalls[n];
      Emit(if r.succeeded then ToolCompleted(k, call, r) else ToolFailed(k, call, r));
    }

    /** One tool call of step k, announced before and after. */
    method CallOne(k: nat, d: Decision, n: nat) returns (o: CallOutcome)
      requires Proper(rules, events) && PhaseOf(events) == Acting(k, d, n) && ValidDecision(d) && n < |d.toolCalls|
      requires Within(rules.budget, Spent(events)) && Accountable(rules.budget, d)
      requires FullSteps(steps) && |steps| + 1 == k && Extends(Uses(events), StepsUses(steps), k)
      modifies this`events
      ensures Proper(rules, events)
      ensures Spent(events) == old(Spent(events)) && Decisions(events) == old(Decisions(events))
      ensures HasAnswer(events) == old(HasAnswer(events)) && HasDelta(events) == old(HasDelta(events))
      ensures o.Called? ==> && PhaseOf(events) == Acting(k, d, n + 1)
                            && Uses(events) == old(Uses(events)) + [Use(k, d.toolCalls[n], o.result)]
      ensures !o.Called? ==> && (PhaseOf(events) == Calling(k, d, n) || PhaseOf(events) == Acting(k, d, n))
                             && Uses(events) == old(Uses(events))
      ensures o.CallStops? ==> Interrupted(rules, events, o.why)
      ensures o.CallEscapes? ==> ExecutionFails(rules, events, Exception(o.message))
    {
      hide Proper, PhaseOf, Spent, AnswerText, HasAnswer, HasDelta, Uses, StepsUses, StartedSteps, CompletedSteps;
      var call := d.toolCalls[n];
      var halt := rules.env.halt(|events|);
      if halt.Some? {
        return CallStops(Halted(halt.value));
      }
      Emit(ToolStarted(k, call));
      o := Obtain(k, call);
      if o.Called? {
        EndCall(k, d, n, o.result);
      }
    }

    /** All tool calls of step k, in order. `reused` is the last cached calculator result. */
    method CallTools(k: nat, d: Decision) returns (o: ToolsOutcome)
      requires Open(k, d) && d.answer.None? && Within(rules.budget, Spent(events)) && Accountable(rules.budget, d)
      modifies this`events
      ensures Proper(rules, events) && Spent(events) == old(Spent(events)) && !HasAnswer(events) && !HasDelta(events)
      ensures Decisions(events) == StepDecisions(steps) + [d]
      ensures o.ToolsDone? ==> && PhaseOf(events) == Acting(k, d, |d.toolCalls|) && |o.results| == |d.toolCalls|
                               && Uses(events) == StepsUses(steps) + StepUses(Step(k, d, o.results))
                               && o.reused == LastReused(StepUses(Step(k, d, o.results)))
      ensures o.ToolsStop? ==> && OpenStep(PhaseOf(events)) == Some(k) && Interrupted(rules, events, o.why)
                               && Mirrors(steps, events)
      ensures o.ToolsEscape? ==> ExecutionFails(rules, events, Exception(o.message))
    {
      hide Proper, PhaseOf, Spent, AnswerText, HasAnswer, HasDelta, Uses, StepsUses, FullSteps, Interrupted, Within;
      hide ExecutionFails, LastReused, Accountable;
      var results: seq<ToolResult> := [];
      var reused: Option<ToolResult> := None;
      NothingReusedYet(k, d);
      for n := 0 to |d.toolCalls|
        invariant Proper(rules, events) && PhaseOf(events) == Acting(k, d, n) && |results| == n
        invariant Spent(events) == old(Spent(events)) && !HasAnswer(events) && !HasDelta(events)
        invariant Decisions(events) == StepDecisions(steps) + [d]
        invariant Uses(events) == StepsUses(steps) + StepUses(Step(k, d, results))
        invariant reused == LastReused(StepUses(Step(k, d, results)))
      {
        assert Extends(Uses(events), StepsUses(steps), k);
        var c := CallOne(k, d, n);
        match c {
          case CallStops(why) =>
            Booked(steps, events, k, d, results);
            return ToolsStop(why);
          case CallEscapes(message) => return ToolsEscape(message);
          case Called(r) =>
            OneMoreUse(k, d, results, r);
            OneMoreReused(StepUses(Step(k, d, results)), Use(k, d.toolCalls[n], r));
            results := results + [r];
            if r.cached && d.toolCalls[n].name == "calculator" {
              reused := Some(r);
            }
        }
      }
      return ToolsDone(results, reused);
    }

    /** Nothing was announced and no step is open; the finished tool calls are those of the steps. */
    ghost predicate Ready(k: nat)
      reads this
    {
      && Proper(rules, events) && PhaseOf(events) == Idle(k) && tokenUsage == Spent(events)
      && Within(rules.budget, Spent(events)) && !HasAnswer(events) && !HasDelta(events)
      && |steps| == k && FullSteps(steps) && Covers(steps, events)
      && ReusedAnswer(OfStep(Uses(events), k)) == None
    }

    /** Step k is open with the valid decision d, and nothing was done about it yet. */
    ghost predicate Open(k: nat, d: Decision)
      reads this
    {
      && Proper(rules, events) && PhaseOf(events) == Acting(k, d, 0) && ValidDecision(d)
      && rules.env.decide(k) == Decides(d)
      && tokenUsage == Spent(events) && !HasAnswer(events) && !HasDelta(events)
      && |steps| + 1 == k && FullSteps(steps)
      && Uses(events) == StepsUses(steps) && Decisions(events) == StepDecisions(steps) + [d]
    }

    /** What a step promises: the run goes on from a ready state, or is over. */
    ghost predicate Outcome(k: nat, o: StepOutcome)
      reads this
    {
      match o
      case GoOn => Ready(k)
      case Finished(r) => && Concluded(rules, events, r) && r.reason != MaxSteps
                          && Indexed(r.steps) && |r.steps| <= k
      case Escapes(message) => Proper(rules, events) && ExecutionFails(rules, events, Exception(message))
    }

    /** Step k of a decision with tool calls. */
    method UseTools(k: nat, d: Decision) returns (o: StepOutcome)
      requires Open(k, d) && d.answer.None? && Within(rules.budget, Spent(events)) && Accountable(rules.budget, d)
      modifies this
      ensures Outcome(k, o)
    {
      hide Proper, PhaseOf, Spent, AnswerText, HasAnswer, HasDelta, Uses, Decisions, StepsUses, StepUses, FullSteps;
      hide Concluded, Interrupted, Mirrors, Ready, StepDecisions, ExecutionFails, LastReused;
      var tools := CallTools(k, d);
      match tools {
        case ToolsStop(why) =>
          FullIsIndexed(steps, Step(k, d, []));
          var r := Finish(EndingOf(why), None);
          return Finished(r);
        case ToolsEscape(message) => return Escapes(message);
        case ToolsDone(results, reused) => o := EndStep(k, d, results, reused);
      }
    }

    /** Books the results of step k. A reused calculator result ends the run if the step made no other calls. */
    method EndStep(k: nat, d: Decision, results: seq<ToolResult>, reused: Option<ToolResult>) returns (o: StepOutcome)
      requires Proper(rules, events) && PhaseOf(events) == Acting(k, d, |d.toolCalls|) && ValidDecision(d)
      requires tokenUsage == Spent(events) && Within(rules.budget, Spent(events))
      requires !HasAnswer(events) && !HasDelta(events)
      requires |steps| + 1 == k && FullSteps(steps) && d.toolCalls != [] && |results| == |d.toolCalls|
      requires Uses(events) == StepsUses(steps) + StepUses(Step(k, d, results))
      requires Decisions(events) == StepDecisions(steps) + [d]
      requires reused == LastReused(StepUses(Step(k, d, results)))
      modifies this
      ensures Outcome(k, o) && !HasDelta(events)
      ensures o.Finished? <==> reused.Some? && reused.value.succeeded && OnlyCalculator(d.toolCalls)
      ensures o.Finished? ==> o.result.status == Completed && o.result.answer == Some(reused.value.content)
    {
      hide Proper, PhaseOf, Spent, AnswerText, HasAnswer, HasDelta, Uses, Decisions, StepsUses, StepUses, FullSteps;
      hide Concluded, ValidDecision, OfStep, LastReused, ReusedAnswer, Mirrors, Covers, StepDecisions;
      ghost var step := Step(k, d, results);
      ExtendFull(steps, step);
      Booked(steps, events, k, d, results);
      StepAnswers(steps, step, reused);
      steps := steps + [Step(k, d, results)];
      ghost var before := events;
      Emit(StepCompleted(k));
      MirrorsKept(steps, before, events);
      if reused.Some? && reused.value.succeeded && OnlyCalculator(d.toolCalls) {
        var r := Finish(Ending(Completed, DirectAnswer, None), Some(reused.value.content));
        return Finished(r);
      }
      return GoOn;
    }

    /** Passes the chunks of the answer on as they come, and joins them. */
    method ConsumeStream(k: nat, ghost d: Decision) returns (r: Result<string, Interruption>)
      requires Open(k, d) && d.answer.Some? && rules.streamAnswer && Within(rules.budget, Spent(events))
      modifies this`events
      ensures Proper(rules, events) && Spent(events) == old(Spent(events)) && !HasAnswer(events)
      ensures OpenStep(PhaseOf(events)) == Some(k)
      ensures Uses(events) == old(Uses(events)) && Decisions(events) == old(Decisions(events))
      ensures r.Success? ==> && PhaseOf(events) == Streaming(k) && HasDelta(events)
                             && Streamed(rules.env, events) && AnswerText(events) == r.value
      ensures r.Failure? ==> Interrupted(rules, events, r.error) && !Answered(rules.env, events)
    {
      hide Proper, PhaseOf, Spent, AnswerText, HasAnswer, HasDelta, Uses, Decisions, StepsUses, FullSteps;
      hide ValidDecision;
      var text := "";
      var started := false;
      var chunks := rules.env.stream.chunks;
      NoAnswerNoText(events);
      for i := 0 to |chunks|
        invariant Proper(rules, events) && Spent(events) == old(Spent(events)) && !HasAnswer(events)
        invariant PhaseOf(events) == if started then Streaming(k) else Acting(k, d, 0)
        invariant AnswerText(events) == text == Joined(chunks[..i]) && HasDelta(events) == started == (text != "")
        invariant Uses(events) == old(Uses(events)) && Decisions(events) == old(Decisions(events))
      {
        assert chunks[..i + 1][..i] == chunks[..i] && chunks[i] in chunks;
        assert chunks[i] == "" ==> text + chunks[i] == text;
        JoinedPrefix(chunks, i + 1);
        if chunks[i] != "" {
          Emit(AnswerDelta(k, chunks[i]));
          text, started := text + chunks[i], true;
        }
      }
      assert chunks[..|chunks|] == chunks;
      if rules.env.stream.end.Some? {
        return Failure(rules.env.stream.end.value);
      }
      if !started {
        return Failure(NO_CONTENT);
      }
      return Success(text);
    }

    /** Announces the answer of step k, streamed or at once. */
    method Deliver(k: nat, d: Decision) returns (r: Result<string, Interruption>)
      requires Open(k, d) && d.answer.Some? && Within(rules.budget, Spent(events))
      modifies this`events
      ensures Proper(rules, events) && Spent(events) == old(Spent(events)) && OpenStep(PhaseOf(events)) == Some(k)
      ensures Uses(events) == old(Uses(events)) && Decisions(events) == old(Decisions(events))
      ensures r.Failure? ==> Interrupted(rules, events, r.error) && !Answered(rules.env, events)
      ensures r.Success? ==> && PhaseOf(events) == (if rules.streamAnswer then Streaming(k) else Replied(k))
                             && Answered(rules.env, events) && AnswerText(events) == r.value
                             && Justified(rules, events, r.value)
    {
      hide Proper, PhaseOf, Spent, AnswerText, HasAnswer, HasDelta, Uses, Decisions, StepsUses, FullSteps;
      hide ValidDecision;
      if rules.streamAnswer {
        r := ConsumeStream(k, d);
      } else {
        NoAnswerNoText(events);
        assert AnswerText(events) + d.answer.value == d.answer.value;
        Emit(Answer(Some(k), d.answer.value));
        r := Success(d.answer.value);
      }
    }

    /** Step k of a decision with an answer. */
    method Reply(k: nat, d: Decision) returns (result: RunResult)
      requires Open(k, d) && d.answer.Some? && Within(rules.budget, Spent(events))
      modifies this
      ensures Concluded(rules, events, result) && result.reason != MaxSteps
      ensures Indexed(result.steps) && |result.steps| <= k
    {
      hide Proper, PhaseOf, Spent, AnswerText, HasAnswer, HasDelta, Uses, Decisions, StepsUses, FullSteps;
      hide ValidDecision, Concluded, Interrupted, Justified, Mirrors, Covers, StepDecisions;
      FullIsIndexed(steps, Step(k, d, []));
      var delivered := Deliver(k, d);
      Booked(steps, events, k, d, []);
      if delivered.Failure? {
        result := Finish(EndingOf(delivered.error), None);
        return;
      }
      steps := steps + [Step(k, d, [])];
      ghost var before := events;
      Emit(StepCompleted(k));
      MirrorsKept(steps, before, events);
      assert events[..|events| - 1] == before;
      result := Finish(Ending(Completed, DirectAnswer, None), Some(delivered.value));
    }

    /** Ends the run at step k because of the budget; a step that went over it is closed here already. */
    method StopForBudget(k: nat, d: Decision) returns (result: RunResult)
      requires Open(k, d) && OutOfBudget(rules, events)
      modifies this
      ensures Concluded(rules, events, result) && result.reason == TokenBudgetExceeded
      ensures Indexed(result.steps) && |result.steps| <= k
    {
      hide Proper, PhaseOf, Spent, AnswerText, HasAnswer, HasDelta, Uses, Decisions, StepsUses, FullSteps;
      hide ValidDecision, Concluded, Mirrors, Covers, StepDecisions, OutOfBudget;
      FullIsIndexed(steps, Step(k, d, []));
      Booked(steps, events, k, d, []);
      steps := steps + [Step(k, d, [])];
      if !Within(rules.budget, tokenUsage) {
        ghost var before := events;
        Emit(StepCompleted(k));
        MirrorsKept(steps, before, events);
        assert events[..|events| - 1] == before;
      }
      result := Finish(Ending(Stopped, TokenBudgetExceeded, None), None);
    }

    /** Acts on the decision of step k. */
    method Act(k: nat, d: Decision) returns (o: StepOutcome)
      requires Open(k, d)
      modifies this
      ensures Outcome(k, o)
    {
      hide Proper, PhaseOf, Spent, AnswerText, HasAnswer, HasDelta, Uses, Decisions, StepsUses, FullSteps, Concluded;
      if rules.budget.Some? && tokenUsage > rules.budget.value {
        var r := StopForBudget(k, d);
        return Finished(r);
      }
      if d.answer.Some? {
        var r := Reply(k, d);
        return Finished(r);
      }
      if rules.budget.Some? && d.toolCalls != [] && !d.usageComplete {
        var r := StopForBudget(k, d);
        return Finished(r);
      }
      o := UseTools(k, d);
    }

    /** Ends the run because of the invalid decision of step k. */
    method Reject(k: nat, d: Decision, reason: Option<string>) returns (result: RunResult)
      requires Proper(rules, events) && PhaseOf(events) == Acting(k, d, 0) && reason == InvalidReason(d) && reason.Some?
      requires tokenUsage == Spent(events) && !HasAnswer(events) && !HasDelta(events)
      requires |steps| + 1 == k && Uses(events) == StepsUses(steps) && Decisions(events) == StepDecisions(steps) + [d]
      modifies this`events
      ensures Concluded(rules, events, result) && result.reason == InvalidDecision && result.steps == steps
    {
      hide Proper, PhaseOf, Spent, AnswerText, HasAnswer, HasDelta, Uses, Decisions, StepsUses;
      hide Concluded, InvalidReason, StepDecisions, Mirrors, Covers;
      Booked(steps, events, k, d, []);
      result := Finish(Ending(Failed, InvalidDecision, reason), None);
    }

    /** Asks the model for the decision of step k and books its tokens; a result means that the run is over. */
    method Decide(k: nat) returns (d: Decision, over: Option<RunResult>)
      requires 1 <= k <= rules.maxSteps && Ready(k - 1)
      requires MayThink(rules.budget, Spent(events)) && rules.env.halt(|events|) == None
      modifies this
      ensures over == None ==> Open(k, d)
      ensures over.Some? ==> Outcome(k, Finished(over.value))
    {
      hide Proper, PhaseOf, Spent, AnswerText, HasAnswer, HasDelta, Uses, Decisions, StepsUses, FullSteps;
      hide Concluded, ValidDecision, InvalidReason, StepDecisions, Mirrors;
      d := Decision(None, [], None, true);
      FullIsIndexed(steps, Step(k, d, []));
      ghost var before := events;
      Emit(StepStarted(k));
      MirrorsKept(steps, before, events);
      var deciding := rules.env.decide(k);
      if deciding.DecidingFails? {
        CoversMirrors(steps, events);
        var r := Finish(EndingOf(deciding.why), None);
        return d, Some(r);
      }
      d := deciding.decision;
      Emit(ModelDecision(k, d, tokenUsage + UsageOf(d)));
      var invalid := InvalidReason(d);
      if invalid.Some? {
        var r := Reject(k, d, invalid);
        return d, Some(r);
      }
      tokenUsage := tokenUsage + UsageOf(d);
      return d, None;
    }

    /** One turn of the loop. */
    method TakeStep(k: nat) returns (o: StepOutcome)
      requires 1 <= k <= rules.maxSteps && Ready(k - 1)
      modifies this
      ensures Outcome(k, o)
    {
      hide Proper, PhaseOf, Spent, AnswerText, HasAnswer, HasDelta, Uses, Decisions, StepsUses, FullSteps, Concluded;
      hide Covers, Mirrors;
      FullIsIndexed(steps, Step(k, Decision(None, [], None, true), []));
      CoversMirrors(steps, events);
      var halt := rules.env.halt(|events|);
      if halt.Some? {
        assert Interrupted(rules, events, Halted(halt.value));
        var r := Finish(EndingOf(Halted(halt.value)), None);
        return Finished(r);
      }
      if rules.budget.Some? && rules.budget.value > 0 && tokenUsage >= rules.budget.value {
        var r := Finish(Ending(Stopped, TokenBudgetExceeded, None), None);
        return Finished(r);
      }
      var d, over := Decide(k);
      if over.Some? {
        return Finished(over.value);
      }
      o := Act(k, d);
    }

    /** The loop over at most `maxSteps` steps. */
    method Loop() returns (o: StepOutcome)
      requires Ready(0) && rules.maxSteps >= 1
      modifies this
      ensures !o.GoOn?
      ensures o.Finished? ==> Concluded(rules, events, o.result) && StepsReport(o.result, rules.maxSteps)
      ensures o.Escapes? ==> Proper(rules, events) && ExecutionFails(rules, events, Exception(o.message))
    {
      hide Proper, PhaseOf, Spent, AnswerText, HasAnswer, HasDelta, Uses, Decisions, StepsUses, FullSteps, Concluded;
      hide Mirrors, StepDecisions;
      for k := 0 to rules.maxSteps
        invariant Ready(k)
      {
        o := TakeStep(k + 1);
        if !o.GoOn? {
          return o;
        }
      }
      FullIsIndexed(steps, Step(rules.maxSteps + 1, Decision(None, [], None, true), []));
      CoversMirrors(steps, events);
      var answer := LastCalculatorResult(steps);
      LastCalculatorUse(steps);
      var ending := if answer.Some? then Ending(Completed, DirectAnswer, None) else Ending(Stopped, MaxSteps, None);
      var r := Finish(ending, answer);
      return Finished(r);
    }
  }

  /** Every call is one of the calculator. */
  predicate OnlyCalculator(calls: seq<ToolCall>) {
    forall i :: 0 <= i < |calls| ==> calls[i].name == "calculator"
  }

  /** Whether the results of step k are those of its tool calls so far or it made none, the steps mirror the
      trace with and without it. */
  lemma {:induction false} Booked(steps: seq<Step>, es: seq<Event>, k: nat, d: Decision, results: seq<ToolResult>)
    requires |steps| + 1 == k && Decisions(es) == StepDecisions(steps) + [d]
    requires Uses(es) == StepsUses(steps) + StepUses(Step(k, d, results))
    ensures Mirrors(steps, es)
    ensures Covers(steps + [Step(k, d, results)], es) && Mirrors(steps + [Step(k, d, results)], es)
  {
    hide Uses, Decisions, StepsUses;
    var s := Step(k, d, results);
    ExtendUses(steps, s);
    assert StepDecisions(steps + [s]) == StepDecisions(steps) + [d];
  }

  lemma {:induction false} CoversMirrors(steps: seq<Step>, es: seq<Event>)
    requires Covers(steps, es)
    ensures Mirrors(steps, es)
  {
  }

  lemma {:induction false} JoinedPrefix(parts: seq<string>, n: nat)
    requires n <= |parts|
    ensures Joined(parts[..n]) <= Joined(parts)
  {
    if n < |parts| {
      JoinedPrefix(parts[..|parts| - 1], n);
      assert parts[..|parts| - 1][..n] == parts[..n];
    } else {
      assert parts[..n] == parts;
    }
  }

  function LastCalculatorResult(steps: seq<Step>): Option<string> {
    if steps == [] then None
    else
      var s := steps[|steps| - 1];
      if && s.decision.toolCalls != [] && |s.toolResults| == |s.decision.toolCalls|
         && OnlyCalculator(s.decision.toolCalls)
         && (forall i :: 0 <= i < |s.toolResults| ==> s.toolResults[i].succeeded)
      then Some(s.toolResults[|s.toolResults| - 1].content) else None
  }

  /** Steps are numbered 1, 2, .., at most `maxSteps` of them; a run that used them all up made only tool
      steps, each with a result for every call. */
  ghost predicate StepsReport(r: RunResult, maxSteps: nat) {
    && Indexed(r.steps) && |r.steps| <= maxSteps
    && (r.reason == MaxSteps ==> |r.steps| == maxSteps && FullSteps(r.steps))
  }

  datatype RunOutcome = Ends(result: RunResult) | Raises(message: string)

  predicate GoodArguments(userInput: string, maxSteps: int, tokenBudget: Option<int>) {
    !Blank(userInput) && maxSteps >= 1 && (tokenBudget.Some? ==> tokenBudget.value >= 0)
  }

  /** One run, with the whole sequence of events it emitted. It raises only on bad arguments or
      when a tool executor raises an unexpected exception. */
  method Run(userInput: string, maxSteps: int, tokenBudget: Option<int>, streamAnswer: bool, env: Env)
    returns (o: RunOutcome, events: seq<Event>)
    ensures !streamAnswer ==> !HasDelta(events)
    ensures !GoodArguments(userInput, maxSteps, tokenBudget) ==> o.Raises? && events == []
    ensures GoodArguments(userInput, maxSteps, tokenBudget) ==>
              var rules := Rules(userInput, tokenBudget, maxSteps, streamAnswer, env);
              if o.Ends? then Concluded(rules, events, o.result) && StepsReport(o.result, maxSteps)
              else Proper(rules, events) && ExecutionFails(rules, events, Exception(o.message))
  {
    if Blank(userInput) { return Raises("user_input must not be empty"), []; }
    if maxSteps < 1 { return Raises("max_steps must be greater than zero"), []; }
    if tokenBudget.Some? && tokenBudget.value < 0 { return Raises("token_budget must not be negative"), []; }
    var run := new AgentRun(Rules(userInput, tokenBudget, maxSteps, streamAnswer, env));
    run.Emit(RunStarted(userInput));
    var last := run.Loop();
    events := run.events;
    DeltasNeedStreaming(run.rules, events);
    return if last.Finished? then Ends(last.result) else Raises(last.message), events;
  }

  lemma {:induction false} DeltasNeedStreaming(rules: Rules, es: seq<Event>)
    requires Proper(rules, es)
    ensures HasDelta(es) ==> rules.streamAnswer
  {
    if es != [] {
      DeltasNeedStreaming(rules, es[..|es| - 1]);
    }
  }

  datatype CallOutcome = Called(result: ToolResult) | CallStops(why: Interruption) | CallEscapes(message: string)

  /** The steps are numbered from 1, and each made tool calls and has a result for every one of them. */
  ghost predicate FullSteps(steps: seq<Step>) {
    forall i :: 0 <= i < |steps| ==>
      && steps[i].index == i + 1 && steps[i].decision.toolCalls != []
      && |steps[i].toolResults| == |steps[i].decision.toolCalls|
  }

  lemma {:induction false} FullIsIndexed(steps: seq<Step>, s: Step)
    requires FullSteps(steps) && s.index == |steps| + 1
    ensures Indexed(steps) && Indexed(steps + [s])
  {
  }

  lemma {:induction false} ExtendFull(steps: seq<Step>, s: Step)
    requires FullSteps(steps) && s.index == |steps| + 1 && s.decision.toolCalls != []
    requires |s.toolResults| == |s.decision.toolCalls|
    ensures FullSteps(steps + [s]) && Indexed(steps + [s])
  {
  }

  lemma {:induction false} ExtendUses(steps: seq<Step>, s: Step)
    ensures StepsUses(steps + [s]) == StepsUses(steps) + StepUses(s)
  {
    var longer := steps + [s];
    assert longer[..|longer| - 1] == steps;
  }

  ghost predicate Indexed(steps: seq<Step>) {
    forall i :: 0 <= i < |steps| ==> steps[i].index == i + 1
  }

  /** All uses are those of the earlier steps, followed by uses of step k. */
  ghost predicate Extends(all: seq<Use>, known: seq<Use>, k: nat) {
    known <= all && forall i :: |known| <= i < |all| ==> all[i].step == k
  }

  lemma {:induction false} UsesAreEarlier(steps: seq<Step>, u: Use)
    requires FullSteps(steps) && u in StepsUses(steps)
    ensures u.step <= |steps|
  {
    var shorter := steps[..|steps| - 1];
    if u in StepsUses(shorter) {
      UsesAreEarlier(shorter, u);
    }
  }

  /** A result found in an earlier step may be reused. */
  lemma {:induction false} ReuseIsSound(
      rules: Rules, es: seq<Event>, steps: seq<Step>, call: ToolCall, k: nat, from: Use)
    requires Proper(rules, es) && FullSteps(steps) && |steps| + 1 == k && Extends(Uses(es), StepsUses(steps), k)
    requires FirstHit(StepsUses(steps), call, from)
    ensures CacheRule(Uses(es), k, call, from.result.(callId := call.callId, cached := true))
  {
    var known, uses := StepsUses(steps), Uses(es);
    var i :| 0 <= i < |known| && known[i] == from && Hit(from, call) && forall j :: 0 <= j < i ==> !Hit(known[j], call);
    assert uses[i] == from && FirstHit(uses, call, from);
    FirstHitIsExecuted(rules, es, call, from);
    UsesAreEarlier(steps, from);
    assert from in uses && KnownFrom(from, k, call);
  }

  /** A call that no earlier step succeeded with may be executed. */
  lemma {:induction false} ExecutionIsSound(uses: seq<Use>, steps: seq<Step>, call: ToolCall, k: nat)
    requires Extends(uses, StepsUses(steps), k)
    requires forall u :: u in StepsUses(steps) ==> !Hit(u, call)
    ensures Unknown(uses, k, call)
  {
    forall u | u in uses
      ensures !KnownFrom(u, k, call)
    {
      var i :| 0 <= i < |uses| && uses[i] == u;
      if i < |StepsUses(steps)| {
        assert StepsUses(steps)[i] in StepsUses(steps);
      }
    }
  }

  /** An answer was announced, at once or as a complete stream. */
  ghost predicate Answered(env: Env, es: seq<Event>) {
    HasAnswer(es) || (HasDelta(es) && Streamed(env, es))
  }

  /** The answer is what the events already say; or nothing was said, no step is open and the answer is
      a calculator result of the last step. */
  ghost predicate Announceable(rules: Rules, es: seq<Event>, answer: string) {
    if HasAnswer(es) || HasDelta(es) then
      && Answered(rules.env, es) && AnswerText(es) == answer && PhaseOf(es).Closing?
      && es != [] && Justified(rules, es[..|es| - 1], answer)
    else PhaseOf(es).Idle? && OwnAnswer(rules, es) == Some(answer)
  }

  /** `now` is `es`, with one more event if a step was open: its completion. */
  ghost predicate Closes(es: seq<Event>, now: seq<Event>, step: Option<nat>) {
    if step.None? then now == es
    else |now| == |es| + 1 && now[..|es|] == es && now[|es|].what == StepCompleted(step.value)
  }

  /** The end is explained here; if a step is still open, its cause lies here. */
  ghost predicate StopsFor(rules: Rules, es: seq<Event>, e: Ending) {
    && e.reason != DirectAnswer
    && if OpenStep(PhaseOf(es)).Some? then Cause(rules, es, e) else Explained(rules, es, e)
  }

  lemma {:induction false} StopIsExplained(rules: Rules, es: seq<Event>, now: seq<Event>, e: Ending)
    requires StopsFor(rules, es, e) && Closes(es, now, OpenStep(PhaseOf(es)))
    ensures Explained(rules, now, e)
  {
    hide Cause, PhaseOf;
    if OpenStep(PhaseOf(es)).Some? {
      assert now[..|now| - 1] == es;
    }
  }

  // ----- The reported steps -----

  function StepDecisions(steps: seq<Step>): seq<Decision> {
    seq(|steps|, i requires 0 <= i < |steps| => steps[i].decision)
  }

  /** The steps carry all the decisions and tool results of the trace. */
  ghost predicate Covers(steps: seq<Step>, es: seq<Event>) {
    Decisions(es) == StepDecisions(steps) && Uses(es) == StepsUses(steps)
  }

  /** The steps carry the decisions and tool results of the trace, up to those of a last step cut short. */
  ghost predicate Mirrors(steps: seq<Step>, es: seq<Event>) {
    && StepDecisions(steps) <= Decisions(es) && |Decisions(es)| <= |steps| + 1
    && Extends(Uses(es), StepsUses(steps), |steps| + 1)
  }

  lemma {:induction false} MirrorsKept(steps: seq<Step>, es: seq<Event>, now: seq<Event>)
    requires Uses(now) == Uses(es) && Decisions(now) == Decisions(es)
    ensures Mirrors(steps, now) == Mirrors(steps, es) && Covers(steps, now) == Covers(steps, es)
  {
    hide Uses, Decisions, StepsUses;
  }

  lemma {:induction false} OneMoreUse(k: nat, d: Decision, results: seq<ToolResult>, r: ToolResult)
    requires |results| < |d.toolCalls|
    ensures StepUses(Step(k, d, results + [r])) == StepUses(Step(k, d, results)) + [Use(k, d.toolCalls[|results|], r)]
  {
  }

  lemma {:induction false} NothingReusedYet(k: nat, d: Decision)
    ensures LastReused(StepUses(Step(k, d, []))) == None
  {
  }

  lemma {:induction false} OneMoreReused(uses: seq<Use>, u: Use)
    ensures LastReused(uses + [u]) ==
            if u.result.cached && u.call.name == "calculator" then Some(u.result) else LastReused(uses)
  {
    assert (uses + [u])[..|uses|] == uses;
  }

  lemma {:induction false} OfStepConcat(known: seq<Use>, mine: seq<Use>, k: nat)
    requires forall u :: u in known ==> u.step < k
    requires forall u :: u in mine ==> u.step == k
    ensures OfStep(known + mine, k) == mine
  {
    var all := known + mine;
    if mine != [] {
      assert all[..|all| - 1] == known + mine[..|mine| - 1];
      OfStepConcat(known, mine[..|mine| - 1], k);
    } else if known != [] {
      assert all[..|all| - 1] == known[..|known| - 1] + [];
      assert known[|known| - 1] in known;
      OfStepConcat(known[..|known| - 1], [], k);
    }
  }

  /** The finished tool calls of the last step are the ones it is booked with. */
  lemma {:induction false} MineAre(steps: seq<Step>, s: Step)
    requires FullSteps(steps) && s.index == |steps| + 1
    ensures OfStep(StepsUses(steps) + StepUses(s), s.index) == StepUses(s)
  {
    forall u | u in StepsUses(steps)
      ensures u.step < s.index
    {
      UsesAreEarlier(steps, u);
    }
    OfStepConcat(StepsUses(steps), StepUses(s), s.index);
  }

  /** What a booked step answers by itself is its reused result, if it called nothing but the calculator. */
  lemma {:induction false} StepAnswers(steps: seq<Step>, s: Step, reused: Option<ToolResult>)
    requires FullSteps(steps) && s.index == |steps| + 1 && |s.toolResults| == |s.decision.toolCalls|
    requires reused == LastReused(StepUses(s))
    ensures ReusedAnswer(OfStep(StepsUses(steps) + StepUses(s), s.index)) ==
            if reused.Some? && reused.value.succeeded && OnlyCalculator(s.decision.toolCalls)
            then Some(reused.value.content) else None
  {
    hide OfStep, LastReused, StepsUses, FullSteps;
    MineAre(steps, s);
    SameCalls(s);
  }

  lemma {:induction false} SameCalls(s: Step)
    requires |s.toolResults| == |s.decision.toolCalls|
    ensures Calculators(StepUses(s)) <==> OnlyCalculator(s.decision.toolCalls)
  {
    if Calculators(StepUses(s)) {
      forall i | 0 <= i < |s.decision.toolCalls|
        ensures s.decision.toolCalls[i].name == "calculator"
      {
        assert StepUses(s)[i].call.name == "calculator";
      }
    }
  }

  /** The result taken after the last step is what that step answers by itself at the limit of steps. */
  lemma {:induction false} LastCalculatorUse(steps: seq<Step>)
    requires FullSteps(steps) && steps != []
    ensures LastCalculatorResult(steps) == FinalAnswer(OfStep(StepsUses(steps), |steps|))
  {
    var before, s := steps[..|steps| - 1], steps[|steps| - 1];
    hide OfStep;
    MineAre(before, s);
    SameCalls(s);
    LastStepAnswer(s);
  }

  lemma {:induction false} LastStepAnswer(s: Step)
    requires |s.toolResults| == |s.decision.toolCalls|
    ensures (forall i :: 0 <= i < |StepUses(s)| ==> StepUses(s)[i].result.succeeded) <==>
            (forall i :: 0 <= i < |s.toolResults| ==> s.toolResults[i].succeeded)
  {
    if forall i :: 0 <= i < |StepUses(s)| ==> StepUses(s)[i].result.succeeded {
      forall i | 0 <= i < |s.toolResults|
        ensures s.toolResults[i].succeeded
      {
        assert StepUses(s)[i].result.succeeded;
      }
    }
  }

  predicate MayEnd(e: Ending, answer: Option<string>) {
    LegalEnd(e.status, e.reason) && (e.error.Some? <==> e.status == Failed) && (answer.Some? <==> e.status == Completed)
  }

  predicate Stoppable(ph: Phase) {
    !ph.Fresh? && !ph.Ended? && !ph.Broken?
  }

  predicate Included(e: Event) {
    !e.what.StepStarted? && !e.what.StepCompleted?
  }

  /** `shown` is the events at the positions `idx`, in order and renumbered from 1; `idx` leaves out
      exactly the events that open or close a step. */
  ghost predicate Selects(es: seq<Event>, shown: seq<Event>, idx: seq<nat>) {
    && |idx| == |shown|
    && (forall i, j :: 0 <= i < j < |idx| ==> idx[i] < idx[j])
    && (forall i :: 0 <= i < |idx| ==> idx[i] < |es| && shown[i] == es[idx[i]].(sequence := i + 1))
    && (forall j :: 0 <= j < |es| ==> (j in idx <==> !es[j].what.StepStarted? && !es[j].what.StepCompleted?))
  }

  method ResultEvents(es: seq<Event>) returns (shown: seq<Event>)
    ensures exists idx :: Selects(es, shown, idx)
  {
    shown := [];
    ghost var idx: seq<nat> := [];
    for i := 0 to |es|
      invariant Selects(es[..i], shown, idx)
    {
      assert es[..i + 1] == es[..i] + [es[i]];
      if Included(es[i]) {
        shown := shown + [es[i].(sequence := |shown| + 1)];
        idx := idx + [i];
      }
    }
    assert es[..|es|] == es;
  }

  /** The events of the result hold the deltas of a streamed answer. */
  lemma {:induction false} DeltasAreShown(es: seq<Event>, shown: seq<Event>, idx: seq<nat>)
    requires Selects(es, shown, idx)
    ensures HasDelta(shown) <==> HasDelta(es)
  {
    hide HasDelta;
    HasDeltaMeaning(es);
    HasDeltaMeaning(shown);
    if j :| 0 <= j < |es| && es[j].what.AnswerDelta? {
      assert Included(es[j]);
      var i :| 0 <= i < |idx| && idx[i] == j;
      assert shown[i].what.AnswerDelta?;
    }
    if i :| 0 <= i < |shown| && shown[i].what.AnswerDelta? {
      assert es[idx[i]].what.AnswerDelta?;
    }
  }

  lemma {:induction false} HasDeltaMeaning(es: seq<Event>)
    ensures HasDelta(es) <==> exists i :: 0 <= i < |es| && es[i].what.AnswerDelta?
  {
    if es != [] {
      HasDeltaMeaning(es[..|es| - 1]);
    }
  }

  /** What a finished run reports, against its trace. */
  ghost predicate Concluded(rules: Rules, es: seq<Event>, r: RunResult) {
    && Proper(rules, es) && PhaseOf(es).Ended? && es != []
    && es[|es| - 1].what == RunStopped(r.status, r.reason, r.error, r.tokenUsage)
    && r.tokenUsage == Spent(es)
    && r.answer == (if r.status == Completed then Some(AnswerText(es)) else None)
    && Mirrors(r.steps, es) && (r.status == Completed || r.reason == MaxSteps ==> Covers(r.steps, es))
    && exists idx :: Selects(es, r.events, idx)
  }
}
