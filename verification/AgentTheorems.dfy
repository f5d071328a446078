/** What every proper trace of an agent run guarantees to its reader. */
module AgentTheorems {
  import opened Wrappers
  import opened AgentTrace
  import opened AgentRuntime

  lemma {:induction false} PrefixIsProper(rules: Rules, es: seq<Event>, n: nat)
    requires Proper(rules, es) && n <= |es|
    ensures Proper(rules, es[..n])
  {
    if n < |es| {
      PrefixIsProper(rules, es[..|es| - 1], n);
      assert es[..|es| - 1][..n] == es[..n];
    } else {
      assert es[..n] == es;
    }
  }

  lemma {:induction false} EventAt(rules: Rules, es: seq<Event>, i: nat)
    requires Proper(rules, es) && i < |es|
    ensures Admissible(rules, es[..i], es[i].what)
    ensures PhaseOf(es[..i + 1]) == Next(PhaseOf(es[..i]), es[i].what)
    ensures Spent(es[..i + 1]) == SpentAfter(Spent(es[..i]), es[i].what)
    ensures es[i].sequence == i + 1
    ensures i > 0 ==> es[i - 1].occurredAt <= es[i].occurredAt
  {
    PrefixIsProper(rules, es, i + 1);
    assert es[..i + 1][..i] == es[..i];
  }

  lemma {:induction false} PhaseAt(rules: Rules, es: seq<Event>, i: nat)
    requires Proper(rules, es) && i < |es|
    ensures PhaseOf(es[..i + 1]) == Next(PhaseOf(es[..i]), es[i].what) != Broken
  {
    hide Admissible, Proper, PhaseOf;
    EventAt(rules, es, i);
    PrefixIsProper(rules, es, i + 1);
    LastPhase(rules, es[..i + 1]);
  }

  /** The events are numbered 1, 2, .., n, and their times never go back. */
  lemma {:induction false} NumberedAndOrdered(rules: Rules, es: seq<Event>, i: nat, j: nat)
    requires Proper(rules, es) && i <= j < |es|
    ensures es[i].sequence == i + 1 && es[j].sequence == j + 1 && es[i].occurredAt <= es[j].occurredAt
    ensures || es[i].occurredAt == rules.env.now(i)
            || (i > 0 && rules.env.now(i) < es[i - 1].occurredAt == es[i].occurredAt)
  {
    hide Proper;
    EventAt(rules, es, j);
    if i < j {
      NumberedAndOrdered(rules, es, i, j - 1);
    } else {
      TimeOf(rules, es, i);
    }
  }

  lemma {:induction false} TimeOf(rules: Rules, es: seq<Event>, i: nat)
    requires Proper(rules, es) && i < |es|
    ensures || es[i].occurredAt == rules.env.now(i)
            || (i > 0 && rules.env.now(i) < es[i - 1].occurredAt == es[i].occurredAt)
  {
    hide Admissible;
    PrefixIsProper(rules, es, i + 1);
  }

  lemma {:induction false} PhaseNever(rules: Rules, es: seq<Event>, n: nat)
    requires Proper(rules, es) && n <= |es|
    ensures PhaseOf(es[..n]) != Broken && (PhaseOf(es[..n]) == Fresh <==> n == 0)
  {
    if n > 0 {
      NeverFreshAgain(rules, es, n);
    }
  }

  lemma {:induction false} NeverFreshAgain(rules: Rules, es: seq<Event>, n: nat)
    requires Proper(rules, es) && 1 <= n <= |es|
    ensures PhaseOf(es[..n]) != Broken && PhaseOf(es[..n]) != Fresh
  {
    hide Proper, PhaseOf, Spent, Uses, HasAnswer, HasDelta;
    EventAt(rules, es, n - 1);
    assert es[..n - 1 + 1] == es[..n];
  }

  /** A finished run starts with its only RUN_STARTED and ends with its only RUN_STOPPED. */
  lemma {:induction false} StartsAndStopsOnce(rules: Rules, es: seq<Event>, i: nat)
    requires Proper(rules, es) && PhaseOf(es).Ended? && i < |es|
    ensures es[i].what.RunStarted? <==> i == 0
    ensures es[0].what == RunStarted(rules.input)
    ensures es[i].what.RunStopped? <==> i == |es| - 1
  {
    hide Proper, PhaseOf, Spent, Uses, HasAnswer, HasDelta, StartedSteps, CompletedSteps;
    EventAt(rules, es, i);
    EventAt(rules, es, 0);
    PhaseNever(rules, es, 0);
    PhaseNever(rules, es, i);
    assert es[..|es|] == es;
    if i == |es| - 1 {
      assert PhaseOf(es[..i + 1]).Ended?;
    } else {
      EventAt(rules, es, i + 1);
    }
  }

  // ----- Steps -----

  lemma {:induction false} OpenedGrows(rules: Rules, es: seq<Event>, m: nat, n: nat)
    requires Proper(rules, es) && m <= n <= |es|
    ensures Opened(PhaseOf(es[..m])) <= Opened(PhaseOf(es[..n]))
    ensures Closed(PhaseOf(es[..m])) <= Closed(PhaseOf(es[..n]))
  {
    hide Proper, PhaseOf, Spent, Uses, HasAnswer, HasDelta, StartedSteps, CompletedSteps;
    if m < n {
      OpenedGrows(rules, es, m, n - 1);
      PhaseAt(rules, es, n - 1);
      PrefixIsProper(rules, es, n - 1);
      StepSets(rules, es[..n - 1]);
      assert es[..n - 1 + 1] == es[..n];
    }
  }

  /** Steps open in the order 1, 2, .., each once, and each only when all before it are closed. */
  lemma {:induction false} StepOpens(rules: Rules, es: seq<Event>, i: nat)
    requires Proper(rules, es) && i < |es| && es[i].what.StepStarted?
    ensures var s := es[i].what.step;
            && (forall t :: t in StartedSteps(es[..i]) <==> 1 <= t < s)
            && (forall t :: t in CompletedSteps(es[..i]) <==> 1 <= t < s)
            && (forall j :: i < j < |es| && es[j].what.StepStarted? ==> es[j].what.step > s)
  {
    hide Proper, PhaseOf, Spent, Uses, HasAnswer, HasDelta, StartedSteps, CompletedSteps;
    PhaseAt(rules, es, i);
    PrefixIsProper(rules, es, i);
    StepSets(rules, es[..i]);
    forall j | i < j < |es| && es[j].what.StepStarted?
      ensures es[j].what.step > es[i].what.step
    {
      PhaseAt(rules, es, j);
      OpenedGrows(rules, es, i + 1, j);
    }
  }

  /** A step is closed only while it is the open one, and only once. */
  lemma {:induction false} StepCloses(rules: Rules, es: seq<Event>, i: nat)
    requires Proper(rules, es) && i < |es| && es[i].what.StepCompleted?
    ensures var s := es[i].what.step;
            && s in StartedSteps(es[..i]) && s !in CompletedSteps(es[..i])
            && (forall j :: i < j < |es| && es[j].what.StepCompleted? ==> es[j].what.step > s)
  {
    hide Proper, PhaseOf, Spent, Uses, HasAnswer, HasDelta, StartedSteps, CompletedSteps;
    PhaseAt(rules, es, i);
    PrefixIsProper(rules, es, i);
    StepSets(rules, es[..i]);
    forall j | i < j < |es| && es[j].what.StepCompleted?
      ensures es[j].what.step > es[i].what.step
    {
      PhaseAt(rules, es, j);
      PrefixIsProper(rules, es, j);
      StepSets(rules, es[..j]);
      OpenedGrows(rules, es, i + 1, j);
    }
  }

  lemma {:induction false} OpenedBounded(rules: Rules, es: seq<Event>)
    requires Proper(rules, es)
    ensures Opened(PhaseOf(es)) <= rules.maxSteps
  {
    hide Next, Proper, PhaseOf, Spent;
    if es != [] {
      LastPhase(rules, es);
      OpenedBounded(rules, es[..|es| - 1]);
      StepSets(rules, es[..|es| - 1]);
      NextCounts(PhaseOf(es[..|es| - 1]), es[|es| - 1].what);
      EventAt(rules, es, |es| - 1);
    } else {
      EmptyTrace();
    }
  }

  /** A finished run opened the steps 1 .. k for some k within the limit, and closed them all. */
  lemma {:induction false} AllStepsClosed(rules: Rules, es: seq<Event>)
    requires Proper(rules, es) && PhaseOf(es).Ended?
    ensures StartedSteps(es) == CompletedSteps(es) && PhaseOf(es).k <= rules.maxSteps
    ensures forall s :: s in StartedSteps(es) <==> 1 <= s <= PhaseOf(es).k
  {
    StepSets(rules, es);
    OpenedBounded(rules, es);
  }

  // ----- Tool calls -----

  /** A started tool call is followed at once by its own completion, unless the run stops right there. */
  lemma {:induction false} ToolCallsArePaired(rules: Rules, es: seq<Event>, i: nat)
    requires Proper(rules, es) && PhaseOf(es).Ended? && i < |es| && es[i].what.ToolStarted?
    ensures var started := es[i].what;
            || (&& i + 1 < |es| && (es[i + 1].what.ToolCompleted? || es[i + 1].what.ToolFailed?)
                && es[i + 1].what.call == started.call && es[i + 1].what.step == started.step)
            || (|es| == i + 3 && es[i + 1].what == StepCompleted(started.step) && es[i + 2].what.RunStopped?)
  {
    hide Proper, PhaseOf, Spent, Uses, HasAnswer, HasDelta, StartedSteps, CompletedSteps;
    PhaseAt(rules, es, i);
    assert es[..|es|] == es;
    assert PhaseOf(es[..i + 1]).Calling?;
    PhaseAt(rules, es, i + 1);
    if PhaseOf(es[..i + 2]).Closing? {
      PhaseAt(rules, es, i + 2);
      if i + 3 < |es| {
        PhaseAt(rules, es, i + 3);
      }
    }
  }

  /** A tool completion directly follows the start of the same call. */
  lemma {:induction false} CompletionsAreStarted(rules: Rules, es: seq<Event>, i: nat)
    requires Proper(rules, es) && i < |es| && (es[i].what.ToolCompleted? || es[i].what.ToolFailed?)
    ensures i > 0 && es[i - 1].what == ToolStarted(es[i].what.step, es[i].what.call)
  {
    hide Proper, PhaseOf, Spent, Uses, HasAnswer, HasDelta, StartedSteps, CompletedSteps;
    PhaseAt(rules, es, i);
    PhaseNever(rules, es, i);
    PhaseAt(rules, es, i - 1);
    assert es[..i - 1 + 1] == es[..i];
  }

  // ----- Tokens -----

  lemma {:induction false} ThinkingIsAffordable(rules: Rules, es: seq<Event>)
    requires Proper(rules, es) && PhaseOf(es).Thinking?
    ensures MayThink(rules.budget, Spent(es))
  {
  }

  /** Each decision carries the running total of the tokens, and is asked for only below a positive budget. */
  lemma {:induction false} DecisionLedger(rules: Rules, es: seq<Event>, i: nat)
    requires Proper(rules, es) && i < |es| && es[i].what.ModelDecision?
    ensures es[i].what.cumulative == Spent(es[..i]) + match es[i].what.decision.tokenUsage
                                                      case None => 0
                                                      case Some(n) => n
    ensures rules.budget.Some? && rules.budget.value > 0 ==> Spent(es[..i]) < rules.budget.value
  {
    EventAt(rules, es, i);
    PrefixIsProper(rules, es, i);
    ThinkingIsAffordable(rules, es[..i]);
  }

  /** Tools run only while the budget is not exceeded. */
  lemma {:induction false} ToolsAreAffordable(rules: Rules, es: seq<Event>, i: nat)
    requires Proper(rules, es) && i < |es| && es[i].what.ToolStarted?
    ensures rules.budget.Some? ==> Spent(es[..i]) <= rules.budget.value
  {
    EventAt(rules, es, i);
  }

  /** When a positive budget is exceeded, a single decision did it: without it the total is below the budget. */
  lemma {:induction false} OvershootIsOneDecision(rules: Rules, es: seq<Event>)
    requires Proper(rules, es) && rules.budget.Some? && 0 < rules.budget.value < Spent(es)
    ensures exists i :: && 0 <= i < |es| && es[i].what.ModelDecision? && Spent(es[..i]) < rules.budget.value
                        && es[i].what.decision.tokenUsage == Some(Spent(es) - Spent(es[..i]))
  {
    SpentNeedsEvents(es);
    hide Proper, PhaseOf, Spent, Admissible;
    var budget, before, w := rules.budget.value, es[..|es| - 1], es[|es| - 1].what;
    EventAt(rules, es, |es| - 1);
    assert es[..|es|] == es;
    if w.ModelDecision? && Spent(before) < budget {
      assert es[..|es| - 1] == before;
    } else {
      PrefixIsProper(rules, es, |es| - 1);
      if w.ModelDecision? {
        DecisionLedger(rules, es, |es| - 1);
      }
      OvershootIsOneDecision(rules, before);
      var i :| && 0 <= i < |before| && before[i].what.ModelDecision? && Spent(before[..i]) < budget
               && before[i].what.decision.tokenUsage == Some(Spent(before) - Spent(before[..i]));
      assert before[..i] == es[..i];
    }
  }

  lemma {:induction false} SpentNeedsEvents(es: seq<Event>)
    ensures Spent(es) > 0 ==> es != []
  {
  }

  /** The usage that the valid decisions report, in total. */
  function UsageSum(ds: seq<Decision>): int {
    if ds == [] then 0
    else
      var d := ds[|ds| - 1];
      UsageSum(ds[..|ds| - 1])
      + if InvalidReason(d) == None && d.tokenUsage.Some? then d.tokenUsage.value else 0
  }

  lemma {:induction false} SpentIsSum(es: seq<Event>)
    ensures Spent(es) == UsageSum(Decisions(es))
  {
    if es != [] {
      var before, w := es[..|es| - 1], es[|es| - 1].what;
      SpentIsSum(before);
      hide ValidDecision, InvalidReason;
      if w.ModelDecision? {
        assert Decisions(es) == Decisions(before) + [w.decision];
        assert Decisions(es)[..|Decisions(es)| - 1] == Decisions(before);
      } else {
        assert Decisions(es) == Decisions(before);
      }
    }
  }

  /** The reported tokens are the sum over the valid decisions of the run; if it completed or used up its steps,
      over the decisions of the reported steps. */
  lemma {:induction false} TokensAreConserved(rules: Rules, es: seq<Event>, r: RunResult)
    ensures Concluded(rules, es, r) ==>
              && r.tokenUsage == UsageSum(Decisions(es))
              && (r.status == Completed || r.reason == MaxSteps ==> r.tokenUsage == UsageSum(StepDecisions(r.steps)))
  {
    hide Proper, PhaseOf, Spent, Uses, Decisions, UsageSum, AnswerText, Mirrors, Selects;
    SpentIsSum(es);
  }

  // ----- Answers -----

  /** The text of a trace is that of its events, in their order. */
  lemma {:induction false} TextReads(a: seq<Event>, b: seq<Event>)
    ensures AnswerText(a + b) == AnswerText(a) + AnswerText(b)
  {
    if b == [] {
      assert a + b == a;
    } else {
      assert (a + b)[..|a + b| - 1] == a + b[..|b| - 1];
      TextReads(a, b[..|b| - 1]);
    }
  }

  /** So are its decisions, */
  lemma {:induction false} DecisionsRead(a: seq<Event>, b: seq<Event>)
    ensures Decisions(a + b) == Decisions(a) + Decisions(b)
  {
    if b == [] {
      assert a + b == a;
    } else {
      assert (a + b)[..|a + b| - 1] == a + b[..|b| - 1];
      DecisionsRead(a, b[..|b| - 1]);
    }
  }

  /** and its finished calls. */
  lemma {:induction false} UsesRead(a: seq<Event>, b: seq<Event>)
    ensures Uses(a + b) == Uses(a) + Uses(b)
  {
    if b == [] {
      assert a + b == a;
    } else {
      assert (a + b)[..|a + b| - 1] == a + b[..|b| - 1];
      UsesRead(a, b[..|b| - 1]);
    }
  }

  /** The chunks of a stream are joined in their order. */
  lemma {:induction false} JoinedReads(a: seq<string>, b: seq<string>, s: string)
    ensures Joined([s]) == s && Joined(a + b) == Joined(a) + Joined(b)
  {
    assert [s][..0] == [];
    if b == [] {
      assert a + b == a;
    } else {
      assert (a + b)[..|a + b| - 1] == a + b[..|b| - 1];
      JoinedReads(a, b[..|b| - 1], s);
    }
  }

  lemma {:induction false} AnswerPhases(rules: Rules, es: seq<Event>)
    requires Proper(rules, es)
    ensures var ph := PhaseOf(es);
            && (HasAnswer(es) ==> ph.Replied? || ph.Closing? || ph.Ended?)
            && (HasDelta(es) ==> ph.Streaming? || ph.Closing? || ph.Ended?)
            && !(HasAnswer(es) && HasDelta(es))
  {
    if es != [] {
      AnswerPhases(rules, es[..|es| - 1]);
    }
  }

  lemma {:induction false} HasAnswerMeaning(es: seq<Event>)
    ensures HasAnswer(es) <==> exists i :: 0 <= i < |es| && es[i].what.Answer?
  {
    if es != [] {
      HasAnswerMeaning(es[..|es| - 1]);
    }
  }

  /** At most one ANSWER, and never together with a streamed answer. */
  lemma {:induction false} AnswerIsSingle(rules: Rules, es: seq<Event>, i: nat, j: nat)
    requires Proper(rules, es) && i < |es| && j < |es| && es[i].what.Answer?
    ensures es[j].what.Answer? ==> j == i
    ensures !es[j].what.AnswerDelta?
  {
    hide Proper, PhaseOf, Spent, Uses, HasAnswer, HasDelta, StartedSteps, CompletedSteps;
    HasAnswerMeaning(es);
    HasDeltaMeaning(es);
    AnswerPhases(rules, es);
    if es[j].what.Answer? && i != j {
      var lo, hi := if i < j then i else j, if i < j then j else i;
      assert es[..hi][lo].what.Answer?;
      HasAnswerMeaning(es[..hi]);
      PrefixIsProper(rules, es, hi);
      AnswerPhases(rules, es[..hi]);
      EventAt(rules, es, hi);
    }
  }

  /** The events of a completed run spell out exactly its answer; a run that did not complete
      announced no ANSWER, and the totals agree. */
  lemma {:induction false} AnswerIsSpelledOut(rules: Rules, es: seq<Event>, r: RunResult)
    ensures Concluded(rules, es, r) ==>
              && (r.status == Completed ==> r.answer == Some(AnswerText(es)) && Answered(rules.env, es))
              && (r.status != Completed ==> r.answer == None && !HasAnswer(es))
              && (r.status == Completed <==> r.reason == DirectAnswer)
              && (r.status == Stopped <==> r.reason == MaxSteps || r.reason == TokenBudgetExceeded)
              && (r.status == Failed <==> r.reason == ModelError || r.reason == InvalidDecision)
              && (r.status == Cancelled <==> r.reason == ExternalCancelled)
              && (r.error.Some? <==> r.status == Failed)
              && r.tokenUsage == Spent(es)
              && ((r.status == Completed || r.reason == MaxSteps) && rules.budget.Some? ==>
                    r.tokenUsage <= rules.budget.value)
  {
    hide Proper, PhaseOf, Spent, Uses, Decisions, HasAnswer, HasDelta, AnswerText, Explained, Selects, Next;
    hide Mirrors, Covers, Obtained, OwnAnswer, Joined;
    if Concluded(rules, es, r) {
      var before, e := es[..|es| - 1], es[|es| - 1];
      EventAt(rules, es, |es| - 1);
      AppendFacts(before, e);
      assert es == before + [e];
    }
  }

  // ----- The tool cache -----

  lemma {:induction false} UseHasEvent(es: seq<Event>, u: Use) returns (i: nat)
    requires u in Uses(es)
    ensures i < |es| && (es[i].what.ToolCompleted? || es[i].what.ToolFailed?)
    ensures es[i].what.step == u.step && es[i].what.call == u.call && es[i].what.result == u.result
  {
    var before := es[..|es| - 1];
    if u in Uses(before) {
      i := UseHasEvent(before, u);
    } else {
      i := |es| - 1;
    }
  }

  lemma {:induction false} EventHasUse(es: seq<Event>, i: nat)
    requires i < |es| && (es[i].what.ToolCompleted? || es[i].what.ToolFailed?)
    ensures Use(es[i].what.step, es[i].what.call, es[i].what.result) in Uses(es)
  {
    if i < |es| - 1 {
      EventHasUse(es[..|es| - 1], i);
    }
  }

  /** A cached result is a copy of one that a strictly earlier step executed with success, with the same name and
      arguments. */
  lemma {:induction false} CachedResultsAreReal(rules: Rules, es: seq<Event>, i: nat) returns (j: nat)
    requires Proper(rules, es) && i < |es| && (es[i].what.ToolCompleted? || es[i].what.ToolFailed?)
    requires es[i].what.result.cached
    ensures j < i && es[j].what.ToolCompleted? && es[j].what.step < es[i].what.step
    ensures es[j].what.call.name == es[i].what.call.name && es[j].what.call.arguments == es[i].what.call.arguments
    ensures !es[j].what.result.cached && es[j].what.result.succeeded
    ensures es[i].what.result == es[j].what.result.(callId := es[i].what.call.callId, cached := true)
  {
    hide Proper, PhaseOf, Spent, Uses, HasAnswer, HasDelta, StartedSteps, CompletedSteps;
    EventAt(rules, es, i);
    var w := es[i].what;
    var u :| && u in Uses(es[..i]) && KnownFrom(u, w.step, w.call) && !u.result.cached
             && w.result == u.result.(callId := w.call.callId, cached := true);
    j := UseHasEvent(es[..i], u);
    EventAt(rules, es, j);
  }

  /** A call that succeeded in an earlier step is never executed again. */
  lemma {:induction false} NothingIsExecutedTwice(rules: Rules, es: seq<Event>, i: nat, j: nat)
    requires Proper(rules, es) && j < i < |es|
    requires es[j].what.ToolCompleted? && (es[i].what.ToolCompleted? || es[i].what.ToolFailed?)
    requires es[j].what.step < es[i].what.step
    requires es[j].what.call.name == es[i].what.call.name && es[j].what.call.arguments == es[i].what.call.arguments
    ensures es[i].what.result.cached
  {
    hide Proper, PhaseOf, Spent, Uses, HasAnswer, HasDelta, StartedSteps, CompletedSteps;
    EventAt(rules, es, i);
    EventAt(rules, es, j);
    EventHasUse(es[..i], j);
  }

  /** The event j is a success of an earlier step with the name and the arguments of the call of event i; the call
      ids may differ. */
  ghost predicate Precedent(es: seq<Event>, i: nat, j: nat)
    requires i < |es| && (es[i].what.ToolCompleted? || es[i].what.ToolFailed?)
  {
    && j < i && es[j].what.ToolCompleted? && es[j].what.step < es[i].what.step
    && es[j].what.call.name == es[i].what.call.name && es[j].what.call.arguments == es[i].what.call.arguments
  }

  /** A result is a cached one exactly if an earlier step had a success with the same name and arguments. */
  lemma {:induction false} CachedIff(rules: Rules, es: seq<Event>, i: nat)
    requires Proper(rules, es) && i < |es| && (es[i].what.ToolCompleted? || es[i].what.ToolFailed?)
    ensures es[i].what.result.cached <==> exists j :: Precedent(es, i, j)
  {
    hide Proper;
    if es[i].what.result.cached {
      var j := CachedResultsAreReal(rules, es, i);
      assert Precedent(es, i, j);
    }
    if j :| Precedent(es, i, j) {
      NothingIsExecutedTwice(rules, es, i, j);
    }
  }

  // ----- The oracles are followed -----

  /** No step and no tool call starts at a check that found the run cancelled or late, and each decision
      is the one the model gave for that step. */
  lemma {:induction false} ChecksAreHonoured(rules: Rules, es: seq<Event>, i: nat)
    requires Proper(rules, es) && i < |es|
    ensures es[i].what.StepStarted? || es[i].what.ToolStarted? ==> rules.env.halt(i) == None
    ensures es[i].what.ModelDecision? ==> rules.env.decide(es[i].what.step) == Decides(es[i].what.decision)
    ensures (es[i].what.ToolCompleted? || es[i].what.ToolFailed?) && !es[i].what.result.cached ==>
              var r := es[i].what.result;
              && rules.env.tool(i) == Gives(r.content, r.succeeded, r.error, r.truncated)
              && r.name == es[i].what.call.name && r.callId == es[i].what.call.callId
  {
    EventAt(rules, es, i);
  }

  // ----- Why a run ended -----

  /** The phase of a trace tells its last event. */
  lemma {:induction false} PhaseTellsLast(rules: Rules, cut: seq<Event>)
    requires Proper(rules, cut) && cut != []
    ensures var w := cut[|cut| - 1].what;
            match PhaseOf(cut)
            case Idle(k) => w.RunStarted? || w == StepCompleted(k)
            case Thinking(k) => w == StepStarted(k)
            case Acting(k, d, n) =>
              if n == 0 then w.ModelDecision? && w.step == k && w.decision == d else w.ToolCompleted? || w.ToolFailed?
            case Calling(k, d, n) => n < |d.toolCalls| && w == ToolStarted(k, d.toolCalls[n])
            case Streaming(k) => w.AnswerDelta? && w.step == k
            case Replied(k) => w.Answer? && w.inStep == Some(k)
            case _ => true
  {
    hide PhaseOf, Spent, Uses, HasAnswer, HasDelta, AnswerText, Explained;
    LastPhase(rules, cut);
  }

  /** Directly before its final event no step of the run is open: it is between two steps, or its last step was
      closed for the end. */
  lemma {:induction false} StopPhase(rules: Rules, es: seq<Event>)
    requires Proper(rules, es) && es != [] && es[|es| - 1].what.RunStopped?
    ensures |es| >= 2 && Proper(rules, es[..|es| - 1])
    ensures PhaseOf(es[..|es| - 1]).Idle? || PhaseOf(es[..|es| - 1]).Closing?
    ensures PhaseOf(es) == AgentTrace.Phase.Ended(PhaseOf(es[..|es| - 1]).k) && Spent(es) == Spent(es[..|es| - 1])
  {
    hide Uses, HasAnswer, HasDelta, AnswerText, Explained;
  }

  /** Where the cause of an end without an answer lies: where the run stopped between two steps, or where its
      last step was open. */
  lemma {:induction false} CauseLies(rules: Rules, es: seq<Event>) returns (n: nat)
    requires Proper(rules, es) && es != [] && es[|es| - 1].what.RunStopped?
    requires es[|es| - 1].what.reason != DirectAnswer
    ensures n < |es| && es[..n] != [] && Proper(rules, es[..n])
    ensures var w := es[|es| - 1].what; Cause(rules, es[..n], Ending(w.status, w.reason, w.error))
    ensures Spent(es[..n]) == Spent(es) && Opened(PhaseOf(es[..n])) == PhaseOf(es).k
    ensures || (n == |es| - 1 && PhaseOf(es[..n]).Idle?)
            || (&& n == |es| - 2 && OpenStep(PhaseOf(es[..n])).Some? && es[n].what.StepCompleted?
                && PhaseOf(es[..n + 1]).Closing?)
  {
    hide Proper, PhaseOf, Spent, Uses, HasAnswer, HasDelta, AnswerText, Justified;
    var w := es[|es| - 1].what;
    var before, e := es[..|es| - 1], Ending(w.status, w.reason, w.error);
    StopPhase(rules, es);
    EventAt(rules, es, |es| - 1);
    hide Next, Cause;
    if Cause(rules, before, e) {
      CauseIsLive(rules, before, e);
      n := |es| - 1;
    } else {
      n := |es| - 2;
      var cut := before[..|before| - 1];
      assert cut == es[..n];
      PrefixIsProper(rules, es, n);
      CauseIsLive(rules, cut, e);
      EventAt(rules, es, n);
      assert es[..n + 1] == before;
      ClosingKeeps(PhaseOf(cut), es[n].what);
      CauseCloses(rules, cut, e, es[n].what);
    }
  }

  /** A step that is closed where a cause lies was not complete. */
  lemma {:induction false} CauseCloses(rules: Rules, cut: seq<Event>, e: Ending, w: What)
    requires Cause(rules, cut, e) && OpenStep(PhaseOf(cut)).Some? && w.StepCompleted? && Next(PhaseOf(cut), w) != Broken
    ensures Next(PhaseOf(cut), w).Closing?
  {
    hide PhaseOf, Spent, Uses, AnswerText, StreamFails, OwnAnswer;
  }

  lemma {:induction false} ClosingKeeps(ph: Phase, w: What)
    requires w.StepCompleted? && Next(ph, w) != Broken
    ensures OpenStep(ph).Some? && Opened(Next(ph, w)) == Opened(ph)
    ensures forall spent: nat :: SpentAfter(spent, w) == spent
  {
    hide ValidDecision;
  }

  lemma {:induction false} CauseIsLive(rules: Rules, cut: seq<Event>, e: Ending)
    requires Cause(rules, cut, e)
    ensures PhaseOf(cut).Idle? || OpenStep(PhaseOf(cut)).Some?
    ensures cut != []
  {
    hide Spent, Uses, AnswerText, Joined;
  }

  /** What the oracles did after the last event of `cut`. */
  ghost predicate BreaksAfter(rules: Rules, cut: seq<Event>, why: Interruption)
    requires cut != []
  {
    var halts := why.Halted? && rules.env.halt(|cut|) == Some(why.halt);
    match cut[|cut| - 1].what
    case StepStarted(k) => rules.env.decide(k) == DecidingFails(why)
    case ModelDecision(_, d, _) => if d.answer.Some? then StreamFails(rules, cut, why) else halts
    case AnswerDelta(_, _) => StreamFails(rules, cut, why)
    case ToolStarted(k, call) =>
      !why.Exception? && rules.env.tool(|cut|) == ToolFails(why) && Unknown(Uses(cut), k, call)
    case ToolCompleted(_, _, _) => halts
    case ToolFailed(_, _, _) => halts
    case RunStarted(_) => halts
    case StepCompleted(_) => halts
    case _ => false
  }

  lemma {:induction false} InterruptionBreaks(rules: Rules, cut: seq<Event>, why: Interruption)
    requires Proper(rules, cut) && cut != [] && Interrupted(rules, cut, why)
    ensures BreaksAfter(rules, cut, why)
  {
    hide Proper, PhaseOf, StreamFails;
    PhaseTellsLast(rules, cut);
    if PhaseOf(cut).Acting? && PhaseOf(cut).n > 0 {
      ActingHasTools(rules, cut);
    }
  }

  lemma {:induction false} ActingHasTools(rules: Rules, cut: seq<Event>)
    requires Proper(rules, cut)
    ensures var ph := PhaseOf(cut); && (ph.Acting? && ph.n > 0 ==> ValidDecision(ph.d) && ph.d.answer.None?)
                                    && (ph.Calling? ==> ValidDecision(ph.d) && ph.d.answer.None?)
  {
    hide Spent, Uses, HasAnswer, HasDelta, AnswerText, Explained;
    if cut != [] {
      ActingHasTools(rules, cut[..|cut| - 1]);
    }
  }

  /** Why a run ended without an answer, told by its last events: the limit of steps was reached; or the model,
      a tool, the stream or a check broke it off right after the event before its end; or the last decision was
      invalid; or the budget was used up, exceeded by the last decision, or could not be accounted for. */
  ghost predicate EndStory(rules: Rules, es: seq<Event>, n: nat, e: Ending)
    requires 1 <= n <= |es|
  {
    var w := es[n - 1].what;
    match e.reason
    case DirectAnswer => false
    case MaxSteps => UpTo(StartedSteps(es), rules.maxSteps) && OwnAnswer(rules, es) == None
    case InvalidDecision => w.ModelDecision? && e.error.Some? && e.error == InvalidReason(w.decision)
    case TokenBudgetExceeded =>
      && rules.budget.Some?
      && if w.ModelDecision? then
           Spent(es) > rules.budget.value || (w.decision.toolCalls != [] && !w.decision.usageComplete)
         else Spent(es) >= rules.budget.value > 0
    case _ => exists why :: BreaksAfter(rules, es[..n], why) && Reported(why, e)
  }

  /** How an interruption is reported: a deadline, a cancellation, a failed quota, or the message of an exception. */
  ghost predicate Reported(why: Interruption, e: Ending) {
    && (why == Halted(AtDeadline) ==> e == Ending(TimedOut, DeadlineExceeded, None))
    && (why == Halted(OnCancel) || why == CancelledError(false) ==> e == Ending(Cancelled, ExternalCancelled, None))
    && (why == QuotaExceeded || why == CancelledError(true) ==> e == Ending(Failed, ModelError, Some("quota_exceeded")))
    && (why.Exception? ==> e == Ending(Failed, ModelError, Some(why.message)))
  }

  /** An end without an answer has its story, directly before the final event or before the closing of the last
      step. */
  lemma {:induction false} EndIsExplained(rules: Rules, es: seq<Event>) returns (n: nat)
    requires Proper(rules, es) && es != [] && es[|es| - 1].what.RunStopped?
    requires es[|es| - 1].what.reason != DirectAnswer
    ensures 1 <= n < |es| && (n == |es| - 1 || (n == |es| - 2 && es[n].what.StepCompleted?))
    ensures var w := es[|es| - 1].what; EndStory(rules, es, n, Ending(w.status, w.reason, w.error))
  {
    hide Proper, PhaseOf, Spent, Uses, HasAnswer, HasDelta, AnswerText, Interrupted, StartedSteps, BreaksAfter;
    n := CauseLies(rules, es);
    var w, cut := es[|es| - 1].what, es[..n];
    var e := Ending(w.status, w.reason, w.error);
    PhaseTellsLast(rules, cut);
    assert cut[n - 1] == es[n - 1];
    match e.reason {
      case MaxSteps =>
        StopPhase(rules, es);
        StepSets(rules, es);
        GrownAt(es, |es| - 1);
        assert es[..|es|] == es;
      case DirectAnswer =>
      case InvalidDecision =>
      case TokenBudgetExceeded =>
      case _ =>
        var why :| Interrupted(rules, cut, why) && e == EndingOf(why);
        InterruptionBreaks(rules, cut, why);
    }
  }

  lemma {:induction false} InvalidIsLast(rules: Rules, es: seq<Event>, i: nat)
    requires Proper(rules, es) && PhaseOf(es).Ended? && i < |es|
    requires es[i].what.ModelDecision? && !ValidDecision(es[i].what.decision)
    ensures i + 3 == |es| && PhaseOf(es[..i + 1]).Acting? && PhaseOf(es[..i + 1]).d == es[i].what.decision
    ensures PhaseOf(es[..i + 2]).Closing? && es[i + 1].what.StepCompleted? && es[i + 2].what.RunStopped?
  {
    hide Proper, PhaseOf, ValidDecision;
    PhaseAt(rules, es, i);
    assert es[..|es|] == es;
    PhaseAt(rules, es, i + 1);
    StopsAfterClosing(rules, es, i + 1);
  }

  /** A run ends for an invalid decision exactly when the model gave one. */
  lemma {:induction false} InvalidDecisionsStop(rules: Rules, es: seq<Event>)
    requires Proper(rules, es) && PhaseOf(es).Ended? && es != [] && es[|es| - 1].what.RunStopped?
    ensures es[|es| - 1].what.reason == InvalidDecision <==>
            exists i :: 0 <= i < |es| && es[i].what.ModelDecision? && !ValidDecision(es[i].what.decision)
  {
    hide Proper, PhaseOf, Spent, Uses, HasAnswer, HasDelta, ValidDecision, Explained;
    var w := es[|es| - 1].what;
    if w.reason == InvalidDecision {
      var n := EndIsExplained(rules, es);
      assert !ValidDecision(es[n - 1].what.decision);
    } else if i :| 0 <= i < |es| && es[i].what.ModelDecision? && !ValidDecision(es[i].what.decision) {
      InvalidIsLast(rules, es, i);
      if w.reason == DirectAnswer {
        AnswerIsJustified(rules, es);
      } else {
        var n := CauseLies(rules, es);
      }
    }
  }

  lemma {:induction false} AnswerIsJustified(rules: Rules, es: seq<Event>)
    requires Proper(rules, es) && es != [] && es[|es| - 1].what.RunStopped?
    requires es[|es| - 1].what.reason == DirectAnswer
    ensures |es| >= 2 && Justified(rules, es[..|es| - 2], AnswerText(es))
  {
    hide PhaseOf, Spent, Uses, HasAnswer, HasDelta, Justified, Cause;
    StopPhase(rules, es);
    assert es[..|es| - 1][..|es| - 2] == es[..|es| - 2];
    EventAt(rules, es, |es| - 1);
  }

  lemma {:induction false} GrownAt(es: seq<Event>, i: nat)
    requires i < |es|
    ensures Grown(es[..i], es[..i + 1], es[i].what)
  {
    hide Grown;
    AppendFacts(es[..i], es[i]);
    assert es[..i + 1] == es[..i] + [es[i]];
  }

  /** Before the first word of an answer the events say nothing. */
  lemma {:induction false} SilentUntil(rules: Rules, es: seq<Event>)
    requires Proper(rules, es) && (PhaseOf(es).Idle? || PhaseOf(es).Acting?)
    ensures AnswerText(es) == ""
  {
    hide Proper, PhaseOf, HasAnswer, HasDelta, AnswerText;
    AnswerPhases(rules, es);
    NoAnswerNoText(es);
  }

  /** The answer was announced within the last step. */
  lemma {:induction false} RepliedInStep(rules: Rules, es: seq<Event>, i: nat)
    requires Proper(rules, es) && i < |es| && PhaseOf(es[..i + 1]).Replied?
    ensures es[i].what.Answer? && es[i].what.inStep == Some(PhaseOf(es[..i + 1]).k)
    ensures AnswerText(es[..i + 1]) == es[i].what.text
  {
    hide Proper, PhaseOf, Spent, Uses, Decisions, HasAnswer, HasDelta, AnswerText, Explained;
    PrefixIsProper(rules, es, i);
    EventAt(rules, es, i);
    GrownAt(es, i);
    SilentUntil(rules, es[..i]);
  }

  /** The answer was announced after the last step. */
  lemma {:induction false} AnsweredAfterSteps(rules: Rules, es: seq<Event>, i: nat)
    requires Proper(rules, es) && i + 2 == |es| && es[i + 1].what.RunStopped? && PhaseOf(es[..i]).Idle?
    requires es[i + 1].what.reason == DirectAnswer
    ensures es[i].what == Answer(None, AnswerText(es)) && Uses(es) == Uses(es[..i])
    ensures PhaseOf(es).k == PhaseOf(es[..i]).k
  {
    hide Proper, PhaseOf, Spent, Uses, Decisions, HasAnswer, HasDelta, AnswerText, Explained;
    PrefixIsProper(rules, es, i);
    EventAt(rules, es, i);
    EventAt(rules, es, i + 1);
    GrownAt(es, i);
    GrownAt(es, i + 1);
    SilentUntil(rules, es[..i]);
    assert es[..i + 2] == es;
  }

  /** Where the answer of a completed run comes from: the decision, announced at once; the whole stream; or a
      calculator result of the last step. */
  ghost predicate Source(rules: Rules, es: seq<Event>, text: string)
    requires |es| >= 3
  {
    var w := es[|es| - 3].what;
    || (&& !rules.streamAnswer && w.Answer? && w.inStep.Some? && w.text == text
        && rules.env.decide(w.inStep.value).Decides?
        && rules.env.decide(w.inStep.value).decision.answer == Some(text))
    || (&& rules.streamAnswer && w.AnswerDelta?
        && rules.env.stream.end == None && text == Joined(rules.env.stream.chunks))
    || (es[|es| - 2].what == Answer(None, text) && OwnAnswer(rules, es) == Some(text))
  }

  lemma {:induction false} AnswerHasSource(rules: Rules, es: seq<Event>)
    requires Proper(rules, es) && es != [] && es[|es| - 1].what.RunStopped?
    requires es[|es| - 1].what.reason == DirectAnswer
    ensures |es| >= 3 && Source(rules, es, AnswerText(es))
  {
    hide Proper, PhaseOf, Spent, Uses, Decisions, HasAnswer, HasDelta, AnswerText, CalculatorAnswer;
    var n := |es| - 1;
    EventAt(rules, es, n);
    AnswerIsJustified(rules, es);
    var cut := es[..n - 1];
    PrefixIsProper(rules, es, n - 1);
    PhaseNever(rules, es, n - 1);
    PhaseTellsLast(rules, cut);
    if PhaseOf(cut).Replied? {
      RepliedInStep(rules, es, n - 2);
      QuietEnd(rules, es);
    } else if PhaseOf(cut).Idle? {
      AnsweredAfterSteps(rules, es, n - 1);
      StopPhase(rules, es);
    }
  }

  lemma {:induction false} QuietEnd(rules: Rules, es: seq<Event>)
    requires Proper(rules, es) && |es| >= 2 && es[|es| - 1].what.RunStopped? && PhaseOf(es[..|es| - 2]).Replied?
    ensures AnswerText(es) == AnswerText(es[..|es| - 2])
  {
    hide Proper, PhaseOf, Spent, Uses, Decisions, HasAnswer, HasDelta, AnswerText, Explained;
    EventAt(rules, es, |es| - 2);
    GrownAt(es, |es| - 2);
    GrownAt(es, |es| - 1);
    assert es[..|es|] == es;
  }

  /** An answer that is a calculator result is announced by exactly one ANSWER, after the last step, and by no
      delta, even if streaming is on. */
  lemma {:induction false} CalculatorAnswerIsPlain(rules: Rules, es: seq<Event>, j: nat)
    requires Proper(rules, es) && es != [] && es[|es| - 1].what.RunStopped? && j < |es|
    requires es[|es| - 1].what.reason == DirectAnswer
    requires |es| >= 3 && !es[|es| - 3].what.Answer? && !es[|es| - 3].what.AnswerDelta?
    ensures es[j].what.Answer? <==> j == |es| - 2
    ensures !es[j].what.AnswerDelta? && OwnAnswer(rules, es) == Some(AnswerText(es))
  {
    hide Proper, PhaseOf, Spent, Uses, Decisions, HasAnswer, HasDelta, AnswerText, CalculatorAnswer;
    AnswerHasSource(rules, es);
    AnswerIsSingle(rules, es, |es| - 2, j);
  }

  // ----- Steps that answer by themselves -----

  lemma {:induction false} OfStepReads(a: seq<Use>, b: seq<Use>, k: nat, u: Use)
    ensures OfStep([u], k) == if u.step == k then [u] else []
    ensures OfStep(a + b, k) == OfStep(a, k) + OfStep(b, k)
  {
    assert [u][..0] == [];
    if b == [] {
      assert a + b == a;
    } else {
      assert (a + b)[..|a + b| - 1] == a + b[..|b| - 1];
      OfStepReads(a, b[..|b| - 1], k, u);
    }
  }

  lemma {:induction false} LastReusedIsThere(uses: seq<Use>) returns (i: nat)
    requires LastReused(uses).Some?
    ensures i < |uses| && uses[i].result == LastReused(uses).value
    ensures uses[i].result.cached && uses[i].call.name == "calculator"
    ensures forall j :: i < j < |uses| && uses[j].call.name == "calculator" ==> !uses[j].result.cached
  {
    var last := uses[|uses| - 1];
    if last.result.cached && last.call.name == "calculator" {
      i := |uses| - 1;
    } else {
      i := LastReusedIsThere(uses[..|uses| - 1]);
    }
  }

  lemma {:induction false} NoneReused(uses: seq<Use>)
    requires LastReused(uses) == None
    ensures forall j :: 0 <= j < |uses| && uses[j].call.name == "calculator" ==> !uses[j].result.cached
  {
    if uses != [] {
      NoneReused(uses[..|uses| - 1]);
    }
  }

  /** An answer of its own is a successful result of a step that called nothing but the calculator: the last one
      that was reused from an earlier step; or, at the limit of steps and if none was reused or the last reused
      one is no success, the last one, and then all of them are successes. */
  lemma {:induction false} OwnAnswerIsCalculated(uses: seq<Use>, k: nat, maxSteps: nat) returns (i: nat)
    requires CalculatorAnswer(uses, k, maxSteps).Some?
    ensures var mine := OfStep(uses, k);
            && i < |mine| && mine[i].result.succeeded
            && mine[i].result.content == CalculatorAnswer(uses, k, maxSteps).value
            && (forall j :: 0 <= j < |mine| ==> mine[j].call.name == "calculator")
            && if mine[i].result.cached then forall j :: i < j < |mine| ==> !mine[j].result.cached
               else k == maxSteps && i == |mine| - 1 && forall j :: 0 <= j < |mine| ==>
                      mine[j].result.succeeded && !mine[j].result.cached
  {
    hide OfStep, LastReused;
    var mine := OfStep(uses, k);
    if ReusedAnswer(mine).Some? {
      i := LastReusedIsThere(mine);
    } else {
      i := |mine| - 1;
      if LastReused(mine) == None {
        NoneReused(mine);
      } else {
        var r := LastReusedIsThere(mine);
      }
    }
  }

  /** Between two steps, a run ends with an answer of its own exactly when the last step gave one; then nothing
      but its announcement follows. */
  lemma {:induction false} OwnAnswersEndTheRun(rules: Rules, es: seq<Event>, i: nat, text: string)
    requires Proper(rules, es) && PhaseOf(es).Ended? && i < |es| && PhaseOf(es[..i]).Idle?
    ensures OwnAnswer(rules, es[..i]) == Some(text) <==> es[i].what == Answer(None, text)
  {
    hide Proper, PhaseOf, Spent, Uses, Decisions, HasAnswer, HasDelta, AnswerText, CalculatorAnswer, StreamFails;
    EventAt(rules, es, i);
    if es[i].what.RunStopped? {
      PrefixIsProper(rules, es, i);
      AnswerPhases(rules, es[..i]);
      PrefixIsProper(rules, es, i + 1);
      assert es[..i + 1][..i] == es[..i];
      var n := CauseLies(rules, es[..i + 1]);
    }
  }

  // ----- What a decision leads to -----

  /** A valid decision after which the step is closed at once stops the run, for a cause that lies right there. */
  lemma {:induction false} ClosedAtOnce(rules: Rules, es: seq<Event>, i: nat)
    requires Proper(rules, es) && PhaseOf(es).Ended? && i < |es|
    requires es[i].what.ModelDecision? && ValidDecision(es[i].what.decision)
    ensures i + 1 < |es| && PhaseOf(es[..i + 1]) == Acting(es[i].what.step, es[i].what.decision, 0)
    ensures es[i + 1].what.StepCompleted? ==>
              && i + 3 == |es| && es[i + 2].what.RunStopped? && es[i + 2].what.reason != DirectAnswer
              && var w := es[i + 2].what; Cause(rules, es[..i + 1], Ending(w.status, w.reason, w.error))
  {
    hide Proper, PhaseOf, Spent, Uses, Decisions, HasAnswer, HasDelta, AnswerText, ValidDecision, Cause;
    EventAt(rules, es, i);
    assert es[..|es|] == es;
    EventAt(rules, es, i + 1);
    if es[i + 1].what.StepCompleted? {
      ClosedWithoutTools(rules, es, i);
      StopsAfterClosing(rules, es, i + 1);
      if es[i + 2].what.reason == DirectAnswer {
        AnswerIsJustified(rules, es);
      } else {
        var n := CauseLies(rules, es);
      }
    }
  }

  lemma {:induction false} ClosedWithoutTools(rules: Rules, es: seq<Event>, i: nat)
    requires Proper(rules, es) && i + 1 < |es| && PhaseOf(es[..i + 1]).Acting? && PhaseOf(es[..i + 1]).n == 0
    requires es[i + 1].what.StepCompleted?
    ensures PhaseOf(es[..i + 2]).Closing?
  {
    hide Proper, PhaseOf, Spent, Uses, Decisions, HasAnswer, HasDelta, AnswerText, ValidDecision, Explained;
    PhaseAt(rules, es, i + 1);
  }

  lemma {:induction false} StopsAfterClosing(rules: Rules, es: seq<Event>, i: nat)
    requires Proper(rules, es) && PhaseOf(es).Ended? && i < |es| && PhaseOf(es[..i + 1]).Closing?
    ensures i + 2 == |es| && es[i + 1].what.RunStopped?
  {
    hide Proper, PhaseOf, Spent, Uses, Decisions, HasAnswer, HasDelta, AnswerText, ValidDecision, Explained;
    assert es[..|es|] == es;
    PhaseAt(rules, es, i + 1);
    if i + 2 < |es| {
      PhaseAt(rules, es, i + 2);
    }
  }

  /** A valid decision stops the run for the budget, at once, exactly when it exceeds the budget or asks for tools
      without a complete account of its usage. */
  lemma {:induction false} BudgetStopsIff(rules: Rules, es: seq<Event>, i: nat)
    requires Proper(rules, es) && PhaseOf(es).Ended? && i < |es|
    requires es[i].what.ModelDecision? && ValidDecision(es[i].what.decision)
    ensures && i + 3 == |es| && es[|es| - 1].what.RunStopped? && es[|es| - 1].what.reason == TokenBudgetExceeded
            <==> && rules.budget.Some?
                 && (|| Spent(es[..i + 1]) > rules.budget.value
                     || (es[i].what.decision.toolCalls != [] && !es[i].what.decision.usageComplete))
  {
    hide Proper, PhaseOf, Spent, Uses, Decisions, HasAnswer, HasDelta, AnswerText, Explained, StreamFails;
    ClosedAtOnce(rules, es, i);
    EventAt(rules, es, i + 1);
    if i + 3 == |es| {
      EventAt(rules, es, i + 2);
    }
  }

  /** A valid answer is streamed exactly when streaming is on, the stream says something and the budget allows. */
  lemma {:induction false} AnswerIsStreamedIff(rules: Rules, es: seq<Event>, i: nat)
    requires Proper(rules, es) && PhaseOf(es).Ended? && i < |es|
    requires es[i].what.ModelDecision? && ValidDecision(es[i].what.decision) && es[i].what.decision.answer.Some?
    ensures i + 1 < |es|
    ensures es[i + 1].what.AnswerDelta? <==>
            && rules.streamAnswer && Joined(rules.env.stream.chunks) != ""
            && (rules.budget.Some? ==> Spent(es[..i + 1]) <= rules.budget.value)
  {
    hide Proper, PhaseOf, Spent, Uses, Decisions, HasAnswer, HasDelta, AnswerText, Explained;
    ClosedAtOnce(rules, es, i);
    EventAt(rules, es, i + 1);
    PrefixIsProper(rules, es, i + 1);
    SilentUntil(rules, es[..i + 1]);
  }

  /** The first delta directly follows the decision it answers. */
  lemma {:induction false} DeltaHasDecision(rules: Rules, es: seq<Event>, j: nat) returns (i: nat)
    requires Proper(rules, es) && j < |es| && es[j].what.AnswerDelta?
    ensures i < j && es[i].what.ModelDecision? && es[i + 1].what.AnswerDelta?
    ensures ValidDecision(es[i].what.decision) && es[i].what.decision.answer.Some?
  {
    hide Proper, PhaseOf, Spent, Uses, Decisions, HasAnswer, HasDelta, AnswerText, Explained;
    EventAt(rules, es, j);
    PhaseNever(rules, es, j);
    PrefixIsProper(rules, es, j);
    PhaseTellsLast(rules, es[..j]);
    if PhaseOf(es[..j]).Streaming? {
      i := DeltaHasDecision(rules, es, j - 1);
    } else {
      ActingHasTools(rules, es[..j]);
      i := j - 1;
    }
  }

  ghost predicate Streams(rules: Rules, es: seq<Event>, i: nat)
    requires i < |es|
  {
    && es[i].what.ModelDecision? && ValidDecision(es[i].what.decision) && es[i].what.decision.answer.Some?
    && (rules.budget.Some? ==> Spent(es[..i + 1]) <= rules.budget.value)
  }

  /** The result of a run shows deltas exactly when streaming is on, the stream says something, and the model gave
      an answer within the budget. */
  lemma {:induction false} DeltasAreShownIff(rules: Rules, es: seq<Event>, shown: seq<Event>, idx: seq<nat>)
    requires Proper(rules, es) && PhaseOf(es).Ended? && Selects(es, shown, idx)
    ensures HasDelta(shown) <==>
            && rules.streamAnswer && Joined(rules.env.stream.chunks) != ""
            && exists i :: 0 <= i < |es| && Streams(rules, es, i)
  {
    hide Proper, PhaseOf, Spent, HasDelta, Selects;
    DeltasAreShown(es, shown, idx);
    HasDeltaMeaning(es);
    if j :| 0 <= j < |es| && es[j].what.AnswerDelta? {
      var i := DeltaHasDecision(rules, es, j);
      AnswerIsStreamedIff(rules, es, i);
      assert Streams(rules, es, i);
    }
    if i :| 0 <= i < |es| && Streams(rules, es, i) {
      AnswerIsStreamedIff(rules, es, i);
    }
  }

  // ----- Calls that are known -----

  /** A call that succeeded in an earlier step is never executed again, not even in part: its start is followed at
      once by its completion with the result of that step. */
  lemma {:induction false} KnownCallsAreReused(rules: Rules, es: seq<Event>, i: nat, j: nat)
    requires Proper(rules, es) && PhaseOf(es).Ended? && j < i < |es|
    requires es[i].what.ToolStarted? && es[j].what.ToolCompleted?
    requires es[j].what.step < es[i].what.step
    requires es[j].what.call.name == es[i].what.call.name && es[j].what.call.arguments == es[i].what.call.arguments
    ensures i + 1 < |es| && es[i + 1].what.ToolCompleted? && es[i + 1].what.call == es[i].what.call
    ensures es[i + 1].what.result.cached
  {
    hide Proper, PhaseOf, Spent, Uses, Decisions, HasAnswer, HasDelta, AnswerText, Cause;
    ToolCallsArePaired(rules, es, i);
    if es[i + 1].what.StepCompleted? {
      KnownCallHasNoCause(rules, es, i, j);
    } else {
      NothingIsExecutedTwice(rules, es, i + 1, j);
      var m := CachedResultsAreReal(rules, es, i + 1);
      EventAt(rules, es, i + 1);
    }
  }

  lemma {:induction false} KnownCallHasNoCause(rules: Rules, es: seq<Event>, i: nat, j: nat)
    requires Proper(rules, es) && j < i && i + 3 == |es|
    requires es[i].what.ToolStarted? && es[j].what.ToolCompleted? && es[i + 2].what.RunStopped?
    requires es[j].what.step < es[i].what.step
    requires es[j].what.call.name == es[i].what.call.name && es[j].what.call.arguments == es[i].what.call.arguments
    ensures !es[i + 1].what.StepCompleted?
  {
    hide Proper, PhaseOf, Spent, Uses, Decisions, HasAnswer, HasDelta, AnswerText;
    EventAt(rules, es, i);
    EventAt(rules, es, i + 1);
    if es[i + 1].what.StepCompleted? {
      if es[i + 2].what.reason == DirectAnswer {
        AnswerIsJustified(rules, es);
      } else {
        var n := CauseLies(rules, es);
        FailingCallIsUnknown(rules, es[..i + 1], j);
      }
    }
  }

  /** A call whose execution fails, or makes the run raise, succeeded in no earlier step. */
  lemma {:induction false} FailingCallIsUnknown(rules: Rules, es: seq<Event>, j: nat)
    requires Proper(rules, es) && PhaseOf(es).Calling? && j < |es| && es[j].what.ToolCompleted?
    requires exists why :: ExecutionFails(rules, es, why)
    ensures es[|es| - 1].what.ToolStarted?
    ensures !(&& es[j].what.step < es[|es| - 1].what.step
              && es[j].what.call.name == es[|es| - 1].what.call.name
              && es[j].what.call.arguments == es[|es| - 1].what.call.arguments)
  {
    hide Proper, PhaseOf, Spent, Uses, Decisions, HasAnswer, HasDelta, AnswerText;
    PhaseTellsLast(rules, es);
    EventHasUse(es, j);
    EventAt(rules, es, j);
  }

  // ----- The first step -----

  lemma {:induction false} NothingAnsweredYet(rules: Rules, es: seq<Event>)
    requires |es| == 1 && es[0].what.RunStarted? && rules.maxSteps >= 1
    ensures PhaseOf(es) == Idle(0) && OwnAnswer(rules, es) == None && Spent(es) == 0
  {
    assert es[..0] == [];
    assert PhaseOf(es) == Next(PhaseOf(es[..0]), es[0].what);
    assert Uses(es) == Uses(es[..0]);
    assert OfStep([], 0) == [];
  }

  /** A finished run whose first check found nothing and whose model decided has that decision as its third event. */
  lemma {:induction false} FirstDecisionIsMade(rules: Rules, es: seq<Event>)
    requires Proper(rules, es) && PhaseOf(es).Ended? && rules.maxSteps >= 1
    requires rules.env.halt(1) == None && rules.env.decide(1).Decides?
    ensures |es| > 2 && es[2].what.ModelDecision? && es[2].what.decision == rules.env.decide(1).decision
  {
    hide Proper, PhaseOf, Spent, Uses, Decisions, HasAnswer, HasDelta, AnswerText, OwnAnswer, Cause;
    assert es[..|es|] == es;
    PhaseNever(rules, es, |es|);
    StartsAndStopsOnce(rules, es, 0);
    NothingAnsweredYet(rules, es[..1]);
    EventAt(rules, es, 1);
    if es[1].what.RunStopped? {
      FirstStepIsTaken(rules, es);
    } else {
      EventAt(rules, es, 2);
      if es[2].what.StepCompleted? {
        ThinkingFails(rules, es);
      }
    }
  }

  lemma {:induction false} FirstStepIsTaken(rules: Rules, es: seq<Event>)
    requires Proper(rules, es) && |es| > 1 && es[0].what.RunStarted? && rules.maxSteps >= 1
    requires rules.env.halt(1) == None
    ensures !es[1].what.RunStopped?
  {
    hide Proper, PhaseOf, Spent, Uses, Decisions, HasAnswer, HasDelta, AnswerText, OwnAnswer;
    NothingAnsweredYet(rules, es[..1]);
    if es[1].what.RunStopped? {
      EventAt(rules, es, 1);
      PrefixIsProper(rules, es, 1);
      AnswerPhases(rules, es[..1]);
    }
  }

  lemma {:induction false} ThinkingFails(rules: Rules, es: seq<Event>)
    requires Proper(rules, es) && PhaseOf(es).Ended? && |es| > 2
    requires PhaseOf(es[..2]) == Thinking(1) && es[2].what.StepCompleted?
    ensures rules.env.decide(1).DecidingFails?
  {
    hide Proper, PhaseOf, Spent, Uses, Decisions, HasAnswer, HasDelta, AnswerText, OwnAnswer;
    EventAt(rules, es, 2);
    StopsAfterClosing(rules, es, 2);
    if es[3].what.reason == DirectAnswer {
      AnswerIsJustified(rules, es);
    } else {
      var n := CauseLies(rules, es);
    }
  }
}
