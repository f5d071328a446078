/** The events of one agent run, and which sequences of events are proper traces.

    `Proper` is the contract a run has with its observers; everything below is proved about every
    proper trace. AgentRuntime.Run is proved to produce only proper traces. */
module AgentTrace {
  import opened Wrappers
  import opened PyText

  datatype RunStatus = Completed | Stopped | Failed | Cancelled | TimedOut

  datatype StopReason =
    DirectAnswer | MaxSteps | DeadlineExceeded | ExternalCancelled | ModelError | InvalidDecision | TokenBudgetExceeded

  /** `arguments` is the canonical rendering of the arguments, keys sorted. */
  datatype ToolCall = ToolCall(callId: string, name: string, arguments: string)

  datatype Decision = Decision(
    answer: Option<string>, toolCalls: seq<ToolCall>, tokenUsage: Option<int>, usageComplete: bool)

  datatype ToolResult = ToolResult(
    callId: string, name: string, content: string, succeeded: bool, error: Option<string>,
    truncated: bool, cached: bool)

  datatype What =
    | RunStarted(input: string)
    | StepStarted(step: nat)
    | ModelDecision(step: nat, decision: Decision, cumulative: int)
    | ToolStarted(step: nat, call: ToolCall)
    | ToolCompleted(step: nat, call: ToolCall, result: ToolResult)
    | ToolFailed(step: nat, call: ToolCall, result: ToolResult)
    | AnswerDelta(step: nat, text: string)
    | Answer(inStep: Option<nat>, text: string)
    | StepCompleted(step: nat)
    | RunStopped(status: RunStatus, reason: StopReason, error: Option<string>, cumulative: int)

  datatype Event = Event(sequence: nat, occurredAt: int, what: What)

  // ----- Oracles -----

  const QUOTA_FAILURE := "quota_exceeded"

  datatype Halt = AtDeadline | OnCancel

  /** How awaiting the model or a tool can fail. `CancelledError(true)` is a failed quota renewal. */
  datatype Interruption =
    Halted(halt: Halt) | CancelledError(quotaRenewal: bool) | QuotaExceeded | Exception(message: string)

  datatype Deciding = Decides(decision: Decision) | DecidingFails(why: Interruption)

  datatype ToolRun =
    | Gives(content: string, succeeded: bool, error: Option<string>, truncated: bool)
    | ToolFails(why: Interruption)

  /** The chunks of the streamed answer, and how the stream ends after them. */
  datatype Stream = Stream(chunks: seq<string>, end: Option<Interruption>)

  /** A check of the deadline and the cancel flag, a clock reading and a tool execution are identified by
      the number of events emitted before them, a decision by its step; a run consults each at most once. */
  datatype Env = Env(
    halt: nat -> Option<Halt>,
    now: nat -> int,
    decide: nat -> Deciding,
    tool: nat -> ToolRun,
    stream: Stream)

  datatype Rules = Rules(input: string, budget: Option<nat>, maxSteps: nat, streamAnswer: bool, env: Env)

  datatype Ending = Ending(status: RunStatus, reason: StopReason, error: Option<string>)

  function EndingOf(why: Interruption): Ending {
    match why
    case Halted(AtDeadline) => Ending(TimedOut, DeadlineExceeded, None)
    case Halted(OnCancel) => Ending(Cancelled, ExternalCancelled, None)
    case CancelledError(true) => Ending(Failed, ModelError, Some(QUOTA_FAILURE))
    case CancelledError(false) => Ending(Cancelled, ExternalCancelled, None)
    case QuotaExceeded => Ending(Failed, ModelError, Some(QUOTA_FAILURE))
    case Exception(message) => Ending(Failed, ModelError, Some(message))
  }

  // ----- Decisions -----

  function UsageOf(d: Decision): int {
    if d.tokenUsage.Some? then d.tokenUsage.value else 0
  }

  /** Either an answer that is not blank or at least one tool call, and no negative usage. */
  predicate ValidDecision(d: Decision) {
    && d.answer.Some? != (d.toolCalls != [])
    && (d.answer.Some? ==> !Blank(d.answer.value))
    && UsageOf(d) >= 0
  }

  function InvalidReason(d: Decision): (r: Option<string>)
    ensures r == None <==> ValidDecision(d)
  {
    if d.answer.Some? && d.toolCalls != [] then Some("decision cannot contain both an answer and tool calls")
    else if d.answer.None? && d.toolCalls == [] then Some("decision must contain an answer or at least one tool call")
    else if d.answer.Some? && Blank(d.answer.value) then Some("answer must not be empty")
    else if d.tokenUsage.Some? && d.tokenUsage.value < 0 then Some("token_usage must not be negative")
    else None
  }

  /** What is wrong with a decision, the first of four faults. */
  lemma {:induction false} InvalidReasonReads(d: Decision)
    ensures d.answer.Some? && d.toolCalls != [] ==>
              InvalidReason(d) == Some("decision cannot contain both an answer and tool calls")
    ensures d.answer == None && d.toolCalls == [] ==>
              InvalidReason(d) == Some("decision must contain an answer or at least one tool call")
    ensures d.answer.Some? && d.toolCalls == [] && Blank(d.answer.value) ==>
              InvalidReason(d) == Some("answer must not be empty")
    ensures d.answer.Some? != (d.toolCalls != []) && (d.answer.Some? ==> !Blank(d.answer.value)) ==>
              InvalidReason(d) == if d.tokenUsage.Some? && d.tokenUsage.value < 0
                                  then Some("token_usage must not be negative") else None
  {
  }

  // ----- The grammar -----

  /** Where a trace stands. `Acting(k, d, n)`: step k decided d, and n of its tool calls are done.
      `Closing`: the run can only stop. */
  datatype Phase =
    | Fresh
    | Idle(k: nat)
    | Thinking(k: nat)
    | Acting(k: nat, d: Decision, n: nat)
    | Calling(k: nat, d: Decision, n: nat)
    | Streaming(k: nat)
    | Replied(k: nat)
    | Closing(k: nat)
    | Ended(k: nat)
    | Broken

  predicate Finishes(ph: Phase, step: nat, call: ToolCall, r: ToolResult)
    requires ph.Calling?
  {
    && ph.n < |ph.d.toolCalls| && call == ph.d.toolCalls[ph.n] && step == ph.k && r.callId == call.callId
  }

  function Next(ph: Phase, w: What): Phase {
    match ph
    case Fresh => if w.RunStarted? then Idle(0) else Broken
    case Idle(k) =>
      if w == StepStarted(k + 1) then Thinking(k + 1)
      else if w.Answer? && w.inStep == None then Closing(k)
      else if w.RunStopped? then Ended(k)
      else Broken
    case Thinking(k) =>
      if w.ModelDecision? && w.step == k then Acting(k, w.decision, 0)
      else if w == StepCompleted(k) then Closing(k)
      else Broken
    case Acting(k, d, n) =>
      if ValidDecision(d) && n < |d.toolCalls| && w == ToolStarted(k, d.toolCalls[n]) then Calling(k, d, n)
      else if ValidDecision(d) && d.answer.Some? && w.AnswerDelta? && w.step == k then Streaming(k)
      else if ValidDecision(d) && d.answer.Some? && w == Answer(Some(k), d.answer.value) then Replied(k)
      else if w == StepCompleted(k) then
        if ValidDecision(d) && d.toolCalls != [] && n == |d.toolCalls| then Idle(k) else Closing(k)
      else Broken
    case Calling(k, d, n) =>
      if w.ToolCompleted? && Finishes(ph, w.step, w.call, w.result) && w.result.succeeded then Acting(k, d, n + 1)
      else if w.ToolFailed? && Finishes(ph, w.step, w.call, w.result) && !w.result.succeeded then Acting(k, d, n + 1)
      else if w == StepCompleted(k) then Closing(k)
      else Broken
    case Streaming(k) =>
      if w.AnswerDelta? && w.step == k then Streaming(k)
      else if w == StepCompleted(k) then Closing(k)
      else Broken
    case Replied(k) => if w == StepCompleted(k) then Closing(k) else Broken
    case Closing(k) => if w.RunStopped? then Ended(k) else Broken
    case Ended(k) => Broken
    case Broken => Broken
  }

  function PhaseOf(es: seq<Event>): Phase {
    if es == [] then Fresh else Next(PhaseOf(es[..|es| - 1]), es[|es| - 1].what)
  }

  /** The step that is open, if any. */
  function OpenStep(ph: Phase): Option<nat> {
    match ph
    case Thinking(k) => Some(k)
    case Acting(k, d, n) => Some(k)
    case Calling(k, d, n) => Some(k)
    case Streaming(k) => Some(k)
    case Replied(k) => Some(k)
    case _ => None
  }

  /** How many steps were opened. */
  function Opened(ph: Phase): nat {
    match ph
    case Fresh => 0
    case Broken => 0
    case _ => ph.k
  }

  // ----- What a trace adds up to -----

  /** The tokens of the valid decisions. */
  function Spent(es: seq<Event>): nat {
    if es == [] then 0 else SpentAfter(Spent(es[..|es| - 1]), es[|es| - 1].what)
  }

  function SpentAfter(spent: nat, w: What): nat {
    if w.ModelDecision? && ValidDecision(w.decision) then spent + UsageOf(w.decision) else spent
  }

  /** The text of the ANSWER and ANSWER_DELTA events, joined. */
  function AnswerText(es: seq<Event>): string {
    if es == [] then ""
    else
      var w := es[|es| - 1].what;
      if w.Answer? || w.AnswerDelta? then AnswerText(es[..|es| - 1]) + w.text else AnswerText(es[..|es| - 1])
  }

  predicate HasAnswer(es: seq<Event>) {
    es != [] && (HasAnswer(es[..|es| - 1]) || es[|es| - 1].what.Answer?)
  }

  predicate HasDelta(es: seq<Event>) {
    es != [] && (HasDelta(es[..|es| - 1]) || es[|es| - 1].what.AnswerDelta?)
  }

  /** A finished tool call. */
  datatype Use = Use(step: nat, call: ToolCall, result: ToolResult)

  function Uses(es: seq<Event>): seq<Use> {
    if es == [] then []
    else
      var w := es[|es| - 1].what;
      var before := Uses(es[..|es| - 1]);
      if w.ToolCompleted? || w.ToolFailed? then before + [Use(w.step, w.call, w.result)] else before
  }

  /** The decisions of the model. */
  function Decisions(es: seq<Event>): seq<Decision> {
    if es == [] then []
    else
      var w := es[|es| - 1].what;
      Decisions(es[..|es| - 1]) + if w.ModelDecision? then [w.decision] else []
  }

  // ----- Proper traces -----

  predicate SameFingerprint(a: ToolCall, b: ToolCall) {
    a.name == b.name && a.arguments == b.arguments
  }

  /** An earlier step ran this call and succeeded. */
  predicate KnownFrom(earlier: Use, step: nat, call: ToolCall) {
    earlier.step < step && earlier.result.succeeded && SameFingerprint(earlier.call, call)
  }

  /** A cached result copies one that an earlier step really obtained; a call is executed only if no
      earlier step succeeded with it. */
  ghost predicate CacheRule(before: seq<Use>, step: nat, call: ToolCall, r: ToolResult) {
    if r.cached then
      exists u :: && u in before && KnownFrom(u, step, call) && !u.result.cached
                  && r == u.result.(callId := call.callId, cached := true)
    else
      Unknown(before, step, call)
  }

  /** No earlier step succeeded with this call. */
  ghost predicate Unknown(before: seq<Use>, step: nat, call: ToolCall) {
    forall u :: u in before ==> !KnownFrom(u, step, call)
  }

  predicate MayThink(budget: Option<nat>, spent: nat) {
    budget.Some? && budget.value > 0 ==> spent < budget.value
  }

  predicate Within(budget: Option<nat>, spent: nat) {
    budget.Some? ==> spent <= budget.value
  }

  /** With a budget, tools run only if the usage of the decision is known completely. */
  predicate Accountable(budget: Option<nat>, d: Decision) {
    budget.Some? && d.toolCalls != [] ==> d.usageComplete
  }

  // ----- Calculator answers -----

  /** The finished tool calls of step k. */
  function OfStep(uses: seq<Use>, k: nat): seq<Use> {
    if uses == [] then []
    else
      var last := uses[|uses| - 1];
      OfStep(uses[..|uses| - 1], k) + if last.step == k then [last] else []
  }

  predicate Calculators(uses: seq<Use>) {
    forall i :: 0 <= i < |uses| ==> uses[i].call.name == "calculator"
  }

  /** The last calculator result that was taken from an earlier step. */
  function LastReused(uses: seq<Use>): Option<ToolResult> {
    if uses == [] then None
    else
      var last := uses[|uses| - 1];
      if last.result.cached && last.call.name == "calculator" then Some(last.result)
      else LastReused(uses[..|uses| - 1])
  }

  function ReusedAnswer(mine: seq<Use>): Option<string> {
    var r := LastReused(mine);
    if r.Some? && r.value.succeeded && Calculators(mine) then Some(r.value.content) else None
  }

  function FinalAnswer(mine: seq<Use>): Option<string> {
    if mine != [] && Calculators(mine) && forall i :: 0 <= i < |mine| ==> mine[i].result.succeeded
    then Some(mine[|mine| - 1].result.content) else None
  }

  /** The answer that step k leads to by itself: the last reused result if it called nothing but the calculator,
      or, at the limit of steps, its last result if it called nothing but the calculator with success. */
  function CalculatorAnswer(uses: seq<Use>, k: nat, maxSteps: nat): Option<string> {
    var mine := OfStep(uses, k);
    if ReusedAnswer(mine).Some? then ReusedAnswer(mine)
    else if k == maxSteps then FinalAnswer(mine)
    else None
  }

  /** What the last step of the trace answers by itself. */
  function OwnAnswer(rules: Rules, es: seq<Event>): Option<string> {
    CalculatorAnswer(Uses(es), Opened(PhaseOf(es)), rules.maxSteps)
  }

  predicate LegalEnd(status: RunStatus, reason: StopReason) {
    match status
    case Completed => reason == DirectAnswer
    case Stopped => reason == MaxSteps || reason == TokenBudgetExceeded
    case Failed => reason == ModelError || reason == InvalidDecision
    case Cancelled => reason == ExternalCancelled
    case TimedOut => reason == DeadlineExceeded
  }

  const NO_CONTENT := Exception("streaming answer returned no content")

  /** All of the answer stream was passed on, and then it broke off or turned out to be empty. */
  ghost predicate StreamFails(rules: Rules, cut: seq<Event>, why: Interruption) {
    var Stream(chunks, end) := rules.env.stream;
    && rules.streamAnswer && AnswerText(cut) == Joined(chunks)
    && (|| end == Some(why)
        || (&& end == None && Joined(chunks) == ""
            && why == Exception("streaming answer returned no content")))
  }

  /** A tool call that no earlier step succeeded with is being executed, and the execution fails. */
  ghost predicate ExecutionFails(rules: Rules, cut: seq<Event>, why: Interruption) {
    var ph := PhaseOf(cut);
    && ph.Calling? && ph.n < |ph.d.toolCalls| && Unknown(Uses(cut), ph.k, ph.d.toolCalls[ph.n])
    && rules.env.tool(|cut|) == ToolFails(why)
  }

  /** What interrupted the run at the point `cut`: the check before a step or a tool call, the model, the tool
      that is being called, or the answer stream. */
  ghost predicate Interrupted(rules: Rules, cut: seq<Event>, why: Interruption) {
    match PhaseOf(cut)
    case Idle(k) =>
      k < rules.maxSteps && OwnAnswer(rules, cut) == None && why.Halted? && rules.env.halt(|cut|) == Some(why.halt)
    case Thinking(k) => rules.env.decide(k) == DecidingFails(why)
    case Acting(k, d, n) =>
      && ValidDecision(d) && Within(rules.budget, Spent(cut))
      && if d.answer.Some? then StreamFails(rules, cut, why)
         else && Accountable(rules.budget, d) && n < |d.toolCalls|
              && why.Halted? && rules.env.halt(|cut|) == Some(why.halt)
    case Calling(_, _, _) => !why.Exception? && ExecutionFails(rules, cut, why)
    case Streaming(_) => StreamFails(rules, cut, why)
    case _ => false
  }

  /** The budget is used up before a step, exceeded by a decision, or the usage of a decision with tool calls
      is not known completely. */
  ghost predicate OutOfBudget(rules: Rules, cut: seq<Event>) {
    && rules.budget.Some?
    && match PhaseOf(cut)
       case Idle(k) => k < rules.maxSteps && OwnAnswer(rules, cut) == None && !MayThink(rules.budget, Spent(cut))
       case Acting(k, d, n) =>
         && n == 0 && ValidDecision(d)
         && (!Within(rules.budget, Spent(cut)) || !Accountable(rules.budget, d))
       case _ => false
  }

  /** Why a run that gave no answer turned to its end at the point `cut`. */
  ghost predicate Cause(rules: Rules, cut: seq<Event>, e: Ending) {
    match e.reason
    case DirectAnswer => false
    case MaxSteps => PhaseOf(cut) == Idle(rules.maxSteps) && OwnAnswer(rules, cut) == None
    case TokenBudgetExceeded => OutOfBudget(rules, cut)
    case InvalidDecision =>
      PhaseOf(cut).Acting? && PhaseOf(cut).n == 0 && e.error.Some? && e.error == InvalidReason(PhaseOf(cut).d)
    case _ => exists why :: Interrupted(rules, cut, why) && e == EndingOf(why)
  }

  /** Where the text of an answer comes from: the decision itself, the whole stream, or a calculator result of
      the last step. */
  ghost predicate Justified(rules: Rules, cut: seq<Event>, text: string) {
    match PhaseOf(cut)
    case Replied(k) =>
      !rules.streamAnswer && rules.env.decide(k).Decides? && rules.env.decide(k).decision.answer == Some(text)
    case Streaming(k) =>
      rules.streamAnswer && rules.env.stream.end == None && text == Joined(rules.env.stream.chunks)
    case Idle(k) => OwnAnswer(rules, cut) == Some(text)
    case _ => false
  }

  /** An answer is justified before the last event. Any other end has its cause directly before the final event
      or before the closing of the last step. */
  ghost predicate Explained(rules: Rules, before: seq<Event>, e: Ending) {
    if e.reason == DirectAnswer then
      before != [] && Justified(rules, before[..|before| - 1], AnswerText(before))
    else
      || Cause(rules, before, e)
      || (&& before != [] && before[|before| - 1].what.StepCompleted?
          && Cause(rules, before[..|before| - 1], e))
  }

  function Joined(parts: seq<string>): string {
    if parts == [] then "" else Joined(parts[..|parts| - 1]) + parts[|parts| - 1]
  }

  /** The event fits the grammar and is what the oracles, the budget, the cache and the ledger call for. */
  ghost predicate Admissible(rules: Rules, before: seq<Event>, w: What) {
    && Next(PhaseOf(before), w) != Broken
    && match w
       case RunStarted(input) => input == rules.input
       case StepStarted(k) =>
         && k <= rules.maxSteps && OwnAnswer(rules, before) == None
         && MayThink(rules.budget, Spent(before)) && rules.env.halt(|before|) == None
       case ModelDecision(k, d, cumulative) =>
         rules.env.decide(k) == Decides(d) && cumulative == Spent(before) + UsageOf(d)
       case ToolStarted(_, _) => Within(rules.budget, Spent(before)) && CallAllowed(rules, before)
       case ToolCompleted(k, call, r) => Obtained(rules.env, before, k, call, r)
       case ToolFailed(k, call, r) => Obtained(rules.env, before, k, call, r)
       case AnswerDelta(_, text) =>
         && Within(rules.budget, Spent(before))
         && rules.streamAnswer && text != "" && text in rules.env.stream.chunks
         && AnswerText(before) + text <= Joined(rules.env.stream.chunks)
       case Answer(inStep, text) =>
         if inStep.Some? then !rules.streamAnswer && Within(rules.budget, Spent(before))
         else OwnAnswer(rules, before) == Some(text)
       case RunStopped(status, reason, error, cumulative) =>
         && LegalEnd(status, reason) && (error.Some? <==> status == Failed)
         && cumulative == Spent(before)
         && (status == Completed || reason == MaxSteps ==> Within(rules.budget, Spent(before)))
         && (status == Completed <==> HasAnswer(before) || (HasDelta(before) && Streamed(rules.env, before)))
         && Explained(rules, before, Ending(status, reason, error))
       case _ => true
  }

  /** A tool call starts only for a decision with known usage, and after a check that found no reason to stop. */
  ghost predicate CallAllowed(rules: Rules, before: seq<Event>) {
    && rules.env.halt(|before|) == None
    && (PhaseOf(before).Acting? ==> Accountable(rules.budget, PhaseOf(before).d))
  }

  /** A tool result obeys the cache rule, and if it was executed it is what the tool gave. */
  ghost predicate Obtained(env: Env, before: seq<Event>, k: nat, call: ToolCall, r: ToolResult) {
    && CacheRule(Uses(before), k, call, r)
    && (!r.cached ==> env.tool(|before|) == Gives(r.content, r.succeeded, r.error, r.truncated) && r.name == call.name)
  }

  /** The stream came to its regular end, and all of it was passed on. */
  ghost predicate Streamed(env: Env, es: seq<Event>) {
    env.stream.end == None && AnswerText(es) == Joined(env.stream.chunks)
  }

  ghost predicate Proper(rules: Rules, es: seq<Event>) {
    es == [] ||
    var before, e := es[..|es| - 1], es[|es| - 1];
    && Proper(rules, before) && Admissible(rules, before, e.what)
    && e.sequence == |es|
    && e.occurredAt == (if before == [] then rules.env.now(0)
                        else LaterOf(rules.env.now(|before|), before[|before| - 1].occurredAt))
  }

  function LaterOf(a: int, b: int): int {
    if a < b then b else a
  }

  lemma {:induction false} Append(rules: Rules, es: seq<Event>, e: Event)
    requires Proper(rules, es) && Admissible(rules, es, e.what) && e.sequence == |es| + 1
    requires e.occurredAt == if es == [] then rules.env.now(0)
                             else LaterOf(rules.env.now(|es|), es[|es| - 1].occurredAt)
    ensures Proper(rules, es + [e])
  {
    assert (es + [e])[..|es|] == es;
  }

  /** `now` is the trace `es` with an event `w` appended. */
  ghost predicate Grown(es: seq<Event>, now: seq<Event>, w: What) {
    && |now| == |es| + 1 && now[..|es|] == es && now[|es|].what == w
    && PhaseOf(now) == Next(PhaseOf(es), w)
    && Spent(now) == SpentAfter(Spent(es), w)
    && AnswerText(now) == (if w.Answer? || w.AnswerDelta? then AnswerText(es) + w.text else AnswerText(es))
    && HasAnswer(now) == (HasAnswer(es) || w.Answer?)
    && HasDelta(now) == (HasDelta(es) || w.AnswerDelta?)
    && Uses(now) == (if w.ToolCompleted? || w.ToolFailed? then Uses(es) + [Use(w.step, w.call, w.result)] else Uses(es))
    && Decisions(now) == (if w.ModelDecision? then Decisions(es) + [w.decision] else Decisions(es))
  }

  lemma {:induction false} AppendFacts(es: seq<Event>, e: Event)
    ensures Grown(es, es + [e], e.what)
  {
    assert (es + [e])[..|es|] == es;
    hide Next;
  }
}
