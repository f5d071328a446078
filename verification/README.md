# Verification of the agent platform's orchestration core

This project models the parts of the platform that decide what runs, in which order, at what cost and
what an observer gets to see of it, and proves properties of every run of the model.

* **Canvas compiler** (`Canvas.dfy`, `SortedIds.dfy`, `DependencyGraph.dfy`). A drawn graph of nodes and
  edges becomes a list of subtasks. The depth-first search for cycles is a class that mutates its two
  sets; it accepts exactly the graphs without a dependency cycle.
* **Scheduler** (`TaskSchedule.dfy`, `Orchestrator.dfy`, `CanvasRun.dfy`, `OutputOrder.dfy`). `TaskSchedule` says which
  sequences of starts and finishes a run may show and proves what holds after each of them;
  `Orchestrator.Scheduler` is the mutating loop and is proved to show no others. Cancellation, the clock,
  an interrupted wait and the outcome of every subtask are oracles; which running subtasks are found done,
  and the iteration order of sets, are left open.
* **Agent runtime** (`AgentTrace.dfy`, `AgentRuntime.dfy`, `AgentTheorems.dfy`). `AgentTrace` says which
  sequences of events are proper traces: a grammar, a token ledger, a budget, a cache rule, and agreement
  with the oracles for the model, the tools, the answer stream, the clock and the stop checks.
  `AgentRuntime` is the mutating loop with all its exits and is proved to produce only proper traces;
  `AgentTheorems` proves what a reader of a proper trace can rely on.
* **Event bridges** (`EventStream.dfy`, `AgentStreaming.dfy`, `MultiAgentStreaming.dfy`). Both
  server-sent-events bridges, with a producer and a consumer in any interleaving, disconnects and late events
  included; and what a consumer gets to see of an agent run and of a multi-agent run.
* **Short-term context** (`ShortTermContext.dfy`, `PyText.dfy`). The message window, the summary, the
  token budget with the real UTF-8 estimate, the binary search, and the merging of histories.
* **MCP servers** (`McpManager.dfy`). Discovery and shutdown with failures and cancellation.
* **Witnesses** (`Witnesses.dfy`). Concrete runs for the disagreements listed below.

`dafny verify dfyconfig.toml` checks everything.

## Where the code and its documentation disagree

* `RETRY_ONCE` is documented as a retry (`app/multi_agent/models.py:51`). The code never starts a task
  twice (`TaskSchedule.StartsAreGuarded`); the policy goes on after a failure and ends FAILED. A single
  failing task shows it (`Witnesses.RetryOnceDoesNotRetry`).
* `SKIP` is documented as "continue with others" (`app/multi_agent/models.py:50`). Tasks that depend on the
  failed one are not skipped: the run ends FAILED with `dependency_deadlock` (`Witnesses.SkipDeadlocks`). For
  every graph, a run that is not cut off by a cancellation, a timeout, the budget or an exception completes
  if and only if there is a slot to run tasks in, the graph has no cycle and no unknown id, and no task
  depends on a failing one (`Orchestrator.ContinuingRunDeadlocksIff`).
* The branch that records SKIPPED results is unreachable (`Orchestrator.CollectReady`).
* `_append_event` takes an `include_result` flag and ignores it, so ANSWER_DELTA events do appear among the
  events of the result (`Witnesses.DeltaInResult`). They do if and only if streaming is on, the stream says
  something and the model gave a valid answer within the budget (`AgentTheorems.DeltasAreShownIff`).
* Messages dropped for the token budget are listed in front of those dropped for the message limit, the
  latest first, so the summary is not chronological (`Witnesses.LatestFirst`). For distinct messages it is if
  and only if the window that the message limit leaves is empty or fits the budget, or that limit drops
  nothing and the history without its first message is empty or fits (`ShortTermContext.SummaryOrderIff`).
* The reported output of a completed multi-agent run is meant to be that of the last task in topological
  order (`app/multi_agent/orchestrator.py:234`), and is that of the last one listed: a canvas that lists a
  sink before its source reports an intermediate output (`Witnesses.IntermediateOutput`). When every task
  completed it is in order if and only if no task depends on the last listed one
  (`OutputOrder.OutputInOrderIff`); if the listing is topological it always is (`OutputOrder.TopologicalListing`).
* `priority` is documented to let a subtask run earlier (`app/multi_agent/models.py:77`). Nothing reads it, so
  the model has no such field.
* A multi-agent run whose stored canvas cannot be loaded returns FAILED without a terminal event, unlike
  every other run that returns: its observers are never told how it ended
  (`MultiAgentStreaming.ConsumerIsTold`).
* After an interrupted discovery that left a server ready, a further discovery raises until the manager is
  closed (`Witnesses.InterruptedForGood`). A discovery of distinct servers succeeds if and only if no client
  is held and no server's outcome raises; for repeated names the exact condition is also that no name is
  served twice (`McpManager.ToolManager.Discover`).

## Model

| member | source | states |
|---|---|---|
| Canvas.CycleChecker.Visit | app/multi_agent/decision_factory.py:96-105 | on success the finished nodes are a topological order that now includes the node, and the stack is as before; on failure the graph really has a cycle; terminates because the unvisited nodes shrink |
| Canvas.ValidateAcyclic | app/multi_agent/decision_factory.py:91-108 | accepts if and only if no dependency path returns to its start, self-loops included |
| Canvas.BuildDependsMap | app/multi_agent/decision_factory.py:44-53 | the map is the drawn edge relation, or the error names the first edge with an unknown end |
| Canvas.CompileNodes | app/multi_agent/decision_factory.py:58-83 | succeeds if and only if every node has a usable id and config; each subtask has the role its node names, custom for any other, and depends on exactly the sources of its edges, in ascending order; an error names the fault of the first faulty node |
| Canvas.FromDag | app/multi_agent/decision_factory.py:23-88 | accepts exactly the well-formed acyclic canvases of at most 20 nodes; each refusal has its exact condition, in the order of the checks, and names the first unknown edge or faulty node |
| Canvas.SortableReads | app/multi_agent/decision_factory.py:79 | ids cannot be sorted exactly if two different ones are not both texts and not both numbers |
| SortedIds.Sort | app/multi_agent/decision_factory.py:79 | strictly ascending by code point and the same ids |
| DependencyGraph.OrderForbidsCycle | app/multi_agent/decision_factory.py:91-108 | a topological order over all nodes rules out every cycle |
| TaskSchedule.LegalIsSound | app/multi_agent/orchestrator.py:272-393 | after every legal sequence the task sets partition the ids, the results cover exactly the ended tasks once each, completed tasks come after their dependencies, tokens are the sum over COMPLETED results, and the concurrency cap holds |
| TaskSchedule.StartsAreGuarded | app/multi_agent/orchestrator.py:296-356 | a task starts at most once, below the cap and the budget, and only after each dependency finished COMPLETED |
| TaskSchedule.ResultsAreReturned | app/multi_agent/orchestrator.py:366-372 | every recorded result is what its subtask returned |
| TaskSchedule.BudgetOvershoot | app/multi_agent/orchestrator.py:296-372 | with budget B > 0 and at most M tokens per task the total never exceeds B - 1 + concurrency * M |
| TaskSchedule.DeadlockIsExact | app/multi_agent/orchestrator.py:394-403 | the tasks a stuck run leaves pending are exactly those with a dependency path to a failed task, an unknown id or into a cycle |
| TaskSchedule.AcyclicIsNeverBlocked | app/multi_agent/orchestrator.py:394-403 | without cycles, unknown ids and failures nothing is blocked |
| Orchestrator.CollectReady | app/multi_agent/orchestrator.py:308-336 | exactly the pending tasks with all dependencies completed; as no task is both completed and failed, none is skipped |
| Orchestrator.Scheduler.StartReady | app/multi_agent/orchestrator.py:338-356 | starts keep the run legal, and afterwards every slot is taken or every ready task runs |
| Orchestrator.Scheduler.Launch | app/multi_agent/orchestrator.py:308-356 | scheduling is eager: after starting, every slot is taken or no pending task has its dependencies completed |
| Orchestrator.Scheduler.Record | app/multi_agent/orchestrator.py:368-393 | a result is recorded and counted as a legal finish; cancellation and FAIL_FAST failure return with their status and code |
| Orchestrator.Scheduler.Settle | app/multi_agent/orchestrator.py:359-393 | all done subtasks are taken over, or the loop returns or raises for a stated reason |
| Orchestrator.Scheduler.CheckStop | app/multi_agent/orchestrator.py:276-306 | stops if and only if cancelled, late or out of budget, in that order of precedence |
| Orchestrator.Scheduler.Turn | app/multi_agent/orchestrator.py:275-403 | going on means that fewer tasks are pending or running; otherwise the reason for returning or raising holds |
| Orchestrator.Scheduler.ExecuteDag | app/multi_agent/orchestrator.py:254-412 | terminates with a legal trace and a status and code whose stated reason holds |
| Orchestrator.FinalOutput | app/multi_agent/orchestrator.py:231-239 | the output of the last listed subtask that completed, empty if none did |
| OutputOrder.LastIffUnneeded | app/multi_agent/orchestrator.py:231-239 | a completed task can be the last one in a topological order of the completed tasks exactly if none of them depends on it |
| OutputOrder.TopologicalListing | app/multi_agent/orchestrator.py:231-239 | if the listing is topological, the reported output is that of a task that can be the last of the completed ones, whatever completed |
| OutputOrder.OutputInOrderIff | app/multi_agent/orchestrator.py:231-239 | when every task completed and outputs differ, the reported output is that of a last task exactly if no task depends on the last listed one |
| Orchestrator.Execute | app/multi_agent/orchestrator.py:166-252 | always a terminal status, an error code exactly when not COMPLETED, tokens equal to the sum over COMPLETED results, a legal trace; no turn before the last found a cancellation or a timeout. In terms of the configuration: never more tasks at once than `max_concurrency`, no start at a used-up budget, starts up to min(`max_concurrency`, number of subtasks) before any wait, overshoot below `max_concurrency` tasks, and an end as the policy and the budget demand |
| Orchestrator.LimitsAreKept | app/multi_agent/orchestrator.py:198-356 | at every point of a run at most the configured number of tasks run, and nothing starts when the configured budget is used up |
| Orchestrator.ConfiguredOvershoot | app/multi_agent/orchestrator.py:296-372 | with at most M tokens per task the total stays within B - 1 + max_concurrency * M |
| Orchestrator.EndIsConfigured | app/multi_agent/orchestrator.py:296-412 | BUDGET_EXCEEDED only at or above the configured budget; under FAIL_FAST a failed result ends the run FAILED with `subtask_failed`; COMPLETED with a failed result only under SKIP; a deadlock only if nothing pending can start |
| Orchestrator.CompletedMeansFinished | app/multi_agent/orchestrator.py:405-412 | COMPLETED means every task completed, or failed under SKIP alone |
| Orchestrator.DeadlockReport | app/multi_agent/orchestrator.py:394-403 | after a reported deadlock the tasks without a result are exactly the blocked ones, and there is one |
| Orchestrator.AcyclicDeadlockNeedsFailure | app/multi_agent/orchestrator.py:394-403 | on an acyclic graph of known ids a deadlock implies a failed subtask |
| Orchestrator.FailureFreeRunCompletes | app/multi_agent/orchestrator.py:275-412 | on an acyclic graph of known ids, a run that is not cut off and in which nothing failed ends COMPLETED with every task COMPLETED, with or without a budget |
| Orchestrator.CalmRunCompletes | app/multi_agent/orchestrator.py:275-412 | if nothing cancels, delays or interrupts the run and every subtask completes, it ends COMPLETED with every task COMPLETED, unless the budget stops it |
| Orchestrator.QuietIsUndisturbed | app/multi_agent/orchestrator.py:275-306 | only the budget can cut off a run that nothing cancels, delays or interrupts |
| Orchestrator.ContinuingRunDeadlocksIff | app/multi_agent/orchestrator.py:381-412 | on every graph and with any budget, a run without FAIL_FAST that is not cut off deadlocks if and only if there is no slot, a cycle, an unknown id or a task that depends on a failing one; SKIP completes exactly otherwise |
| CanvasRun.GraphIsDrawn | app/multi_agent/decision_factory.py:44-83 | the scheduled graph is the drawn one, node for node and edge for edge |
| CanvasRun.LastOneCounts | app/multi_agent/orchestrator.py:193 | of several subtasks with the same id the last one counts |
| CanvasRun.AcceptedIsRunnable | app/multi_agent/decision_factory.py:55-83 | an accepted canvas gives an acyclic graph without unknown ids |
| CanvasRun.Run | app/multi_agent/service.py:121-186 | a canvas runs exactly when it is acceptable; a run that is not cut off and in which no subtask failed completes every node, with or without a budget, and no run deadlocks without a failed subtask |
| AgentTrace.InvalidReason | app/agents/runtime.py:762-772 | a reason is given exactly for the invalid decisions |
| AgentTrace.InvalidReasonReads | app/agents/runtime.py:762-772 | which of the four reasons is given, the first that applies |
| AgentRuntime.FindCached | app/agents/runtime.py:579-592 | the first earlier success with the same name and the same arguments, exactly if there is one |
| AgentRuntime.FirstHitIsExecuted | app/agents/runtime.py:566-592 | the first success of a call in a proper trace was really executed, not cached |
| AgentRuntime.AgentRun.Emit | app/agents/runtime.py:784-824 | an admissible event extends a proper trace by one, numbered next and never dated back |
| AgentRuntime.AgentRun.CompleteOpenSteps | app/agents/runtime.py:948-977 | closes the open step if there is one and changes nothing else |
| AgentRuntime.AgentRun.Finish | app/agents/runtime.py:883-946 | ends the trace properly and reports status, reason, answer, error, steps and tokens that agree with it; the end has its cause |
| AgentRuntime.ResultEvents | app/agents/runtime.py:928-934 | the events in order without the step events, renumbered from 1 |
| AgentRuntime.DeltasAreShown | app/agents/runtime.py:986-991 | the filter keeps answer deltas: the events of the result hold some exactly if the trace does |
| AgentRuntime.AgentRun.Obtain | app/agents/runtime.py:375-419 | a tool result obeys the cache rule and, if executed, is what the tool gave; an execution that stops or raises is one of a call that no earlier step succeeded with |
| AgentRuntime.AgentRun.CallOne | app/agents/runtime.py:357-442 | one announced tool call, or a stop or escape with its cause; an escape leaves the call open, and the cache had no result for it |
| AgentRuntime.AgentRun.CallTools | app/agents/runtime.py:355-442 | one result per call in order, and the last reused calculator result among them |
| AgentRuntime.AgentRun.EndStep | app/agents/runtime.py:444-472 | books the step; the run is over exactly if a calculator-only step reused a successful calculator result, and that result is the answer, announced without deltas |
| AgentRuntime.AgentRun.ConsumeStream | app/agents/runtime.py:517-564 | on success all chunks were passed on and joined; a failure has its cause and is no answer |
| AgentRuntime.AgentRun.Reply | app/agents/runtime.py:256-339 | an answer decision ends the run, completed with exactly the announced text or with the cause of its failure |
| AgentRuntime.AgentRun.Decide | app/agents/runtime.py:151-236 | a valid decision opens the step and is booked once; otherwise the run is over |
| AgentRuntime.AgentRun.StopForBudget | app/agents/runtime.py:237-353 | a step that went over the budget, or whose usage is not known completely, is reported and ends the run |
| AgentRuntime.AgentRun.TakeStep | app/agents/runtime.py:127-472 | a step leaves the run ready for the next one, or over |
| AgentRuntime.AgentRun.Loop | app/agents/runtime.py:127-489 | at most max_steps steps, and MAX_STEPS only with max_steps complete tool steps |
| AgentRuntime.LastCalculatorUse | app/agents/runtime.py:594-607 | the answer taken after the last step is what the trace says that step answers by itself: its last result if it called nothing but the calculator, with success |
| AgentRuntime.Run | app/agents/runtime.py:76-515 | a run with good arguments ends with a proper, finished trace and a report that agrees with it; the reported steps carry the decisions and tool results of the trace, all of them if the run completed or used up its steps, up to a step cut short otherwise; it raises only on bad arguments or when a tool call that no earlier step succeeded with is open and its executor raises an unexpected exception; without streaming there are no answer deltas |
| AgentTheorems.NumberedAndOrdered | app/agents/runtime.py:802-806 | sequence numbers are 1 .. n and times never go back; an event has the time of the clock unless that is before the event before it |
| AgentTheorems.StartsAndStopsOnce | app/agents/runtime.py:116-122 | RUN_STARTED, with the input of the user, is the first event only, RUN_STOPPED the last only |
| AgentTheorems.StepOpens | app/agents/runtime.py:151-160 | steps open in the order 1, 2, .., once each and only when all before are closed |
| AgentTheorems.StepCloses | app/agents/runtime.py:948-977 | a step is closed once, while it is open |
| AgentTheorems.AllStepsClosed | app/agents/runtime.py:894-898 | a finished run opened 1 .. k, at most max_steps, and closed them all |
| AgentTheorems.ToolCallsArePaired | app/agents/runtime.py:357-442 | a started call is followed at once by its own completion, unless the run stops right there |
| AgentTheorems.CompletionsAreStarted | app/agents/runtime.py:429-442 | a completion directly follows the start of the same call |
| AgentTheorems.DecisionLedger | app/agents/runtime.py:138-224 | each decision carries the prefix sum of the tokens and was asked for below a positive budget |
| AgentTheorems.ToolsAreAffordable | app/agents/runtime.py:237-254 | no tool starts at a total above the budget; a rule of proper traces read at one position, and what `AgentRuntime.Run` is proved to keep |
| AgentTheorems.BudgetStopsIff | app/agents/runtime.py:237-353 | a valid decision stops the run for the budget, at once, exactly if it exceeds the budget or asks for tools without a complete account of its usage |
| AgentTheorems.OvershootIsOneDecision | app/agents/runtime.py:211-254 | a positive budget is exceeded by one decision only |
| AgentTheorems.TokensAreConserved | app/agents/runtime.py:235-254 | the reported tokens are the sum of what the valid decisions report, and of the decisions of the reported steps if the run completed or used up its steps |
| AgentTheorems.TextReads | app/agents/runtime.py:517-564 | the announced text is that of the ANSWER and ANSWER_DELTA events in their order |
| AgentTheorems.JoinedReads | app/agents/runtime.py:564 | the chunks of a stream are joined in their order |
| AgentTheorems.AnswerIsSingle | app/agents/runtime.py:899-917 | at most one ANSWER, never together with deltas |
| AgentTheorems.AnswerIsSpelledOut | app/agents/runtime.py:883-946 | the events of a completed run spell out its answer, other runs announce none; legal status and reason, error exactly when FAILED, tokens and budget agree; collected from the rules that `AgentRuntime.Run` is proved to keep |
| AgentTheorems.CachedResultsAreReal | app/agents/runtime.py:375-383 | a cached result copies an executed success of a strictly earlier step with equal name and equal arguments |
| AgentTheorems.CachedIff | app/agents/runtime.py:566-592 | a result is cached exactly if an earlier step had a success with equal name and equal arguments, whatever the call ids |
| AgentTheorems.NothingIsExecutedTwice | app/agents/runtime.py:566-592 | the result of a call that succeeded in an earlier step is a cached one |
| AgentTheorems.KnownCallsAreReused | app/agents/runtime.py:375-419 | a call that succeeded in an earlier step is never executed again, not even in part: its start is followed at once by its completion with the cached result |
| AgentTheorems.FailingCallIsUnknown | app/agents/runtime.py:384-419 | a call whose execution fails, or makes the run raise, succeeded in no earlier step |
| AgentTheorems.ChecksAreHonoured | app/agents/runtime.py:127-136 | no step or tool starts at a check that found a reason to stop; decisions and results are those the oracles gave; rules of proper traces read at one position, and what `AgentRuntime.Run` is proved to keep |
| AgentTheorems.EndIsExplained | app/agents/runtime.py:127-489 | why a run ended without an answer, told by its last events: all steps were used up and the last one gave no calculator answer; the model, the tool being called, the stream of an answering step or a check broke it off; the last decision was invalid; or the budget was used up, exceeded or not accountable; each interruption has its status, reason and error |
| AgentTheorems.InvalidDecisionsStop | app/agents/runtime.py:211-236 | a run ends for an invalid decision exactly when the model gave one |
| AgentTheorems.AnswerHasSource | app/agents/runtime.py:256-339 | the answer of a completed run is the text of the last decision, announced at once; the whole stream; or what the last step answers by itself |
| AgentTheorems.CalculatorAnswerIsPlain | app/agents/runtime.py:461-489 | a calculator answer is announced by exactly one ANSWER after the last step and no delta, even if streaming is on |
| AgentTheorems.OwnAnswersEndTheRun | app/agents/runtime.py:460-489 | between two steps, the run is ended with a calculator answer exactly if the last step gave one, and with that one |
| AgentTheorems.OwnAnswerIsCalculated | app/agents/runtime.py:594-607 | a step that answers by itself called nothing but the calculator; the answer is its last reused result, or its last result if none was reused, all succeeded and the step was the last one allowed |
| AgentTheorems.AnswerIsStreamedIff | app/agents/runtime.py:256-339 | a valid answer decision is followed at once by a delta exactly if streaming is on, the stream says something and the budget allows |
| AgentTheorems.DeltasAreShownIff | app/agents/runtime.py:928-934 | the result of a run shows deltas exactly if streaming is on, the stream says something and the model gave a valid answer within the budget |
| AgentTheorems.FirstDecisionIsMade | app/agents/runtime.py:127-224 | a run whose first check found nothing and whose model decided has that decision as its third event |
| AgentStreaming.WovenCarries | app/agents/stream.py:34-45 | every interleaving of a run's emissions with its consumer is possible for the bridge, and the queue carries exactly the events emitted so far |
| AgentStreaming.ConsumerGetsTheRun | app/api/agent.py:213-330 | a consumer takes the events of a run in order; without a disconnect it leaves its loop only with the whole trace, RUN_STOPPED last, or with the trace and a terminal event of the next number if the run raised; it never waits in vain |
| AgentStreaming.Serve | app/api/agent.py:213-249 | a run with the bridge as its observer leaves its whole trace in the queue, followed by what the end of the producer calls for |
| MultiAgentStreaming.ConsumerIsTold | app/multi_agent/service.py:107-230 | every interleaving of a multi-agent run with its consumer is possible for the bridge; after a return a consumer that was not disconnected ends on a terminal frame, or on the closing mark exactly if the stored canvas could not be loaded |
| MultiAgentStreaming.Serve | app/api/multi_agent.py:375-431 | a plan run with the bridge as its observer leaves a terminal frame last in the queue if the producer returns; without a plan only the start and the closing mark |
| EventStream.AgentEventStream.ObserveEvent | app/agents/stream.py:34-45 | the whole new state of the bridge after an event |
| EventStream.AgentEventStream.Fail | app/agents/stream.py:63-86 | the whole new state after an unexpected failure |
| EventStream.AgentEventStream.Produce | app/api/agent.py:213-249 | the whole state after a producer's events and its end |
| EventStream.MultiAgentEventStream.OnEvent | app/api/multi_agent.py:232-242 | the whole new state of the bridge after an event |
| EventStream.MultiAgentEventStream.Fail | app/api/multi_agent.py:256-278 | the whole new state after an unexpected failure |
| EventStream.MultiAgentEventStream.Produce | app/api/multi_agent.py:375-431 | the whole state after a producer's events and its end |
| EventStream.ProductionIs | app/api/multi_agent.py:375-431 | what a producer leaves in a fresh bridge is what its actions lead to in the system of producer and consumer |
| EventStream.EveryInterleaving | app/api/agent.py:281-337 | the stream invariant holds after every interleaving of producer and consumer |
| EventStream.FailureIsNumberedNext | app/agents/stream.py:72-86 | a synthesized terminal event takes the number after the last one |
| EventStream.DeliveredInOrder | app/api/agent.py:313-330 | delivered frames are numbered strictly upwards, and only the last item can be terminal |
| EventStream.ConsumerNeverHangs | app/api/agent.py:244-249 | once the producer has ended, a waiting consumer finds something in the queue |
| EventStream.EndsWithTerminal | app/api/multi_agent.py:375-431 | without a disconnect the consumer ends on a terminal frame or a setup error, except after a return or cancellation without a terminal event; a setup error is the only frame |
| ShortTermContext.EstimatePromptTokens | app/quota/token_estimator.py:7-14 | the loop computes overhead plus UTF-8 lengths of all roles and contents |
| ShortTermContext.EstimateAddsUp | app/quota/token_estimator.py:7-14 | the estimate of no message is 2, of one message 6 plus its bytes, and estimates add up |
| ShortTermContext.ContextFits | app/conversations/service.py:201-210 | the estimate of the history, plus 4 and the bytes of the role system and of the prompt if there is one, is within the budget |
| ShortTermContext.BuildSummary | app/conversations/service.py:239-250 | a header that counts the dropped messages, then line k with the role and the text of message k, cut to the character limit; none exactly if nothing was dropped |
| ShortTermContext.CutIsBounded | app/conversations/service.py:259-265 | a cut text stays within its limit |
| ShortTermContext.CutReads | app/conversations/service.py:259-265 | a text that is too long keeps its beginning, without white space at the cut, and ends in an ellipsis |
| ShortTermContext.MergedPromptReads | app/conversations/service.py:229-237 | the prompt without white space at its end, a blank line and the summary; a blank or missing one gives way to the other |
| ShortTermContext.LongestFitReads | app/conversations/service.py:212-227 | what is left of a summary is its longest prefix that fits, or nothing if none does |
| PyText.WordsRead | app/conversations/service.py:252-257 | the words of a text are free of white space and together are the text without its white space |
| PyText.Utf8OfOne | app/quota/token_estimator.py:11-12 | one to four bytes by code point, as section 3 of RFC 3629 lays down |
| ShortTermContext.FitIsDownwardClosed | app/conversations/service.py:212-237 | if a summary prefix fits, every shorter one does, under the real estimate |
| ShortTermContext.TruncateSummary | app/conversations/service.py:212-227 | the binary search returns what a downward scan for the longest fitting prefix returns |
| ShortTermContext.BuildShortTermContext | app/conversations/service.py:174-199 | at most the limit of messages, and no longer end of the history within the limit fits with the summary of the messages before it; if all the limit allows fits, it is exactly that with the summary of the rest, and a history within the limit that fits is returned whole without a summary; the result fits or is empty without a summary; of distinct messages the summarized part is in order exactly if the inputs let the budget drop at most the first message |
| ShortTermContext.NothingIsLost | app/conversations/service.py:182-195 | kept and dropped messages together are the history, as multisets |
| ShortTermContext.ChronologicalIff | app/conversations/service.py:182-195 | of distinct messages the part before a cut is listed in conversation order exactly if the budget dropped nothing or only the first message |
| ShortTermContext.SummaryOrderIff | app/conversations/service.py:182-195 | where the loop cuts, this is so exactly if the window is empty or fits, or the message limit drops nothing and the rest after the first message is empty or fits |
| ShortTermContext.DropRetriedTurn | app/conversations/service.py:267-280 | the history strictly before its last user message if that repeats the current one, and otherwise the whole history |
| ShortTermContext.MergeHistory | app/conversations/service.py:146-172 | exactly the server messages with role system, user or assistant, in their order and as often; then exactly the client messages not among them, in their order; then the retry rule |
| ShortTermContext.MergedMessages | app/conversations/service.py:159-169 | merging keeps exactly the valid server messages and the client messages |
| McpManager.AdmitTools | app/mcp/manager.py:63-88 | exactly the tools with known risk within the limit, low before medium before high, and on the allowlist if there is one, in the order of the list and once each; none if a name repeats |
| McpManager.ToolManager.DiscoverServer | app/mcp/manager.py:52-114 | raises exactly if a client of that name is held or the outcome is a raising one, with the error that fits; the server's state and client after each outcome; a serving server gives exactly its admitted tools and their number |
| McpManager.ToolManager.Discover | app/mcp/manager.py:46-118 | succeeds exactly if no server is held when its turn comes and none raises, for distinct servers exactly if no client is held and none raises; then it lists exactly the admitted tools of the serving servers, server by server and in the order of each list, and every serving server is ready with its number of tools; says which clients are held after a failure |
| McpManager.ToolManager.Shutdown | app/mcp/manager.py:156-175 | closes everything and raises exactly if closing some client was cancelled |
| McpManager.ToolManager.GrantedPermissions | app/mcp/manager.py:125-128 | every listed tool's permission is granted |
| McpManager.UsableMeansSomeReady | app/mcp/manager.py:135-154 | after a discovery the servers are usable exactly if one is ready or none is configured |
| McpManager.ReadinessReads | app/mcp/manager.py:135-154 | disabled, closed, starting, degraded and ready, each exactly by the states of the servers |
| Witnesses.SkipDeadlocks | app/multi_agent/orchestrator.py:381-403 | b depends on a, a fails, SKIP: the run ends FAILED with `dependency_deadlock` |
| Witnesses.RetryOnceDoesNotRetry | app/multi_agent/orchestrator.py:381-412 | one failing task under RETRY_ONCE: it is started once, and the run ends FAILED with `subtask_failed` |
| Witnesses.LatestFirst | app/conversations/service.py:174-199 | two messages too long for the budget are summarized with the later one first |
| Witnesses.DeltaInResult | app/agents/runtime.py:928-934 | a run that streams the answer x has a delta among the events of its result |
| Witnesses.IntermediateOutput | app/multi_agent/orchestrator.py:231-239 | b depends on a and is listed first: the run completes and reports the output of a |
| Witnesses.InterruptedForGood | app/mcp/manager.py:46-118 | a discovery cancelled at the second server leaves the first one ready, and the next discovery fails whatever the servers do |

## Left out

- Canvas.CompileNodes: list entries that are not objects and unhashable ids are not modelled.
- Orchestrator.Execute: error texts, durations, timestamps, roles and lifecycle event payloads are not modelled; `max_concurrency` is a natural number.
- Orchestrator.Scheduler.Turn: real asyncio tasks, the semaphore (redundant under the cap) and the mechanics of cancelling a task are replaced by oracles.
- AgentRuntime.Run: the message list handed to the model, the recorder, observers and timeouts as numbers are not modelled; a tool call's arguments are their canonical rendering, and truncation of tool output is part of the tool oracle.
- AgentTrace.InvalidReason: a Python exception while comparing or rendering a decision is not modelled.
- EventStream.EveryInterleaving: frame payloads, redaction, polling delays and the persistence of runs are not modelled; the stamping of numbers by the observer is the counter of the system.
- ShortTermContext.BuildSummary: lone surrogates, which cannot be encoded, are not modelled.
- McpManager.ToolManager.Discover: processes, pipes and log output are not modelled.
- The subtask observer's draining, supervisor decomposition, language-model calls, quota, rate limiting, repositories, the workflow engine, retrieval, billing, authentication and the frontend are not modelled: they are other systems or would add only easy members.
