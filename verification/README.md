# Verification of the agent runtime

A Dafny model of the agent loop and its stateful wrapper (`packages/agent`), of the proxy stream decoder beside it, and
of two scripts that work on session logs: the transcript packer and the cost report. `dafny verify dfyconfig.toml`
checks all of it.

## What is modelled

**The agent loop.** Two nested loops alternate between an assistant response, a batch of tool calls and polls of two
message queues, and emit an event at every step. The methods of `AgentLoop` work on heap objects as the source does: a
context array that others may share, the array of new messages, two queues, and an agent state that reduces every event
as it is emitted. They are proved against a flat run (`LoopSpec.Play`): one turn after another, with no nesting. What
the environment decides comes as a script per turn: the provider's stream and final message, the answers of hooks and
tools, the abort signal at each check, queue calls and the interleaving of concurrent tools. A list of scripts is the
observed beginning of a run; properties hold for every list, hence at every turn boundary of every run.

**Concurrent tools.** The parallel batch is a state machine over small steps: a call is waiting, running, settled or
finished, and a schedule picks the next step. A schedule is completed by steps that bring every call to its end, so
every interleaving is covered, and some that the program does not have. Events are marked with the position of their
call, because calls of one message may share an id.

**Two independent readings of a trace.** `Events.Delivered` collects the message_end payloads. `Events.Watch` is a
monitor that accepts exactly the well-bracketed traces: one message open at a time, no message beside a running tool,
no tool running at a turn_end, nothing after agent_end. `WellBracketed` says the same without a state. Neither mentions
the loop.

**Outcomes in the source's own conditions.** `CallOutcomes` and `TurnOutcomes` say what calls and turns come to in terms
of stop reasons, tool lists, hook answers, abort checks and terminate flags; `ProxyOutput` says what is handed on in
terms of the events received; the cost totals are stated over the lines of the log.

**The agent.** `Lifecycle` is a state machine over the public calls and the steps of a run, of its failure handler and
of its end, in any order; the methods of `Agents.Agent` are proved against it. `RunSteps` shows that every run of the
loop is a sequence of its steps, and `Continuation` follows the queues through continue() and its run.

**The proxy decoder.** Chunks are cut into lines, lines carry events, events rebuild a message block by block. The
JSON parsers are parameters.

**Packer and cost report.** A greedy in-order packer with its optimality, and a table of sums added up in two orders.

## Found in the source

- A provider that emits a second start event in one response leaves a stale partial message in the context and opens a
  second message bracket (`packages/agent/src/agent-loop.ts:315-320`). Agreement and acceptance are proved to hold
  exactly without one.
- Two running tool calls with the same id share one pending entry (`packages/agent/src/agent.ts:529-541`): the first
  end clears it. That happens under every schedule of a parallel batch in which a call bears the id of an earlier one
  that was not settled during its preparation, and in no other batch.
- A prompt or queued message may be an assistant message with tool calls, which nothing answers
  (`packages/agent/src/agent-loop.ts:103-114`). The loop itself keeps every pairing.
- A failing run appends no error message if a listener throws at the first event of the failure handler, and loses it
  if a listener resets the agent from the second event on (`packages/agent/src/agent.ts:493-496`).
- A tool-call delta after its end event is appended to the text "undefined"
  (`packages/agent/src/proxy.ts:320-339`).
- The inner flush of the packer is unreachable (`scripts/session-transcripts.ts:215-222`).

## Model

| member | source | states |
|---|---|---|
| `Messages.CallsGoOn` | packages/agent/src/agent-loop.ts:203 | the calls of a message are those of its tool-call blocks, in order |
| `Reducer.AgentState.Apply` | packages/agent/src/agent.ts:514-552 | the switch over one event changes the five state fields exactly as the reducer function says, in one step |
| `Reducer.AgentState.Process` | packages/agent/src/agent.ts:514-552 | after every event the state is the reduction of all events processed so far |
| `Reducer.TranscriptIsDelivered` | packages/agent/src/agent.ts:524-527 | after any event trace the transcript is the old one followed by the payloads of the message_end events |
| `Reducer.StateShowsLatest` | packages/agent/src/agent.ts:516-551 | after any trace the streaming message is that of the last start or update not ended since, and the error is that of the last turn that had a nonempty one |
| `Reducer.ReducerMirrorsMonitor` | packages/agent/src/agent.ts:514-552 | along every accepted trace, after each single event, a streaming message is set exactly while a message bracket is open and the pending set is exactly the calls started and not ended |
| `Reducer.PendingMeansLastBoundaryIsStart` | packages/agent/src/agent.ts:529-541 | on every trace, whatever the ids, an id is pending exactly when its last start or end event is a start |
| `WellBracketed.MonitorAcceptsExactly` | packages/agent/src/types.ts:408-423 | the monitor accepts a trace exactly if every event may follow those before it, said of the trace alone: messages and turn ends only with no message open and no call running, updates and ends only for what has started and not ended, all of it inside a turn, turns only between agent_start and agent_end |
| `Streaming.StreamAssistantResponse` | packages/agent/src/agent-loop.ts:310-368 | the read loop over a context array leaves it, and the emitted events, as the streaming function says, and returns the final message; nothing is read after a done or error event |
| `Streaming.StreamingIsAtomicAppend` | packages/agent/src/agent-loop.ts:310-368 | streaming leaves the context as the old messages plus exactly the final message if and only if the stream had at most one start event; old entries are always kept |
| `Streaming.ResponseIsOneBracket` | packages/agent/src/agent-loop.ts:313-367 | the events of a response: a start with the partial of the start event, one update per later delta, one end; without a start event only the bracket of the final message |
| `Streaming.ResponseShape` | packages/agent/src/agent-loop.ts:313-367 | under the protocol a response is one message_start, then updates, then one message_end |
| `Streaming.ResponseDeliversItsMessage` | packages/agent/src/agent-loop.ts:342-366 | whatever is streamed, a response delivers its final message and nothing else |
| `Streaming.ResponseIsBracketed` | packages/agent/src/agent-loop.ts:313-367 | the monitor accepts a response if and only if it had at most one start event |
| `ToolCalls.FailuresBecomeErrorResults` | packages/agent/src/agent-loop.ts:562-714 | whatever goes wrong with a call, in its preparation, in its tool without an after hook that clears the error or asks to terminate, or in its after hook, becomes an error result that does not ask to terminate |
| `ToolCalls.OnUpdate` | packages/agent/src/agent-loop.ts:641-654 | a progress callback is forwarded exactly while updates are accepted |
| `ToolCalls.ExecutePreparedToolCall` | packages/agent/src/agent-loop.ts:628-669 | the updates made before execution settles are emitted in order, later ones are dropped, and a throw becomes an error result |
| `ToolCalls.Reach` | packages/agent/src/agent-loop.ts:440-442 | a batch that may break after each call reaches a nonempty prefix, up to and including the first call at which the signal is aborted |
| `CallOutcomes.FindsTheFirst` | packages/agent/src/agent-loop.ts:569 | a call is for the first tool that bears its name, and for none exactly if no tool does |
| `CallOutcomes.RefusedExactly` | packages/agent/src/agent-loop.ts:569-622 | a call is settled by its preparation exactly if there is no tool of its name, its validation throws, the before hook throws or blocks, or either abort check finds an abort; otherwise it is prepared with its validated arguments |
| `CallOutcomes.RefusedCallsNeverRun` | packages/agent/src/agent-loop.ts:562-626 | a refused call has an error result that no execution, update or after hook changes, and emits no progress |
| `CallOutcomes.RefusedCallsReportNoProgress` | packages/agent/src/agent-loop.ts:467-500 | nor does it in a parallel batch, under any schedule |
| `CallOutcomes.AcceptedCallsReportProgress` | packages/agent/src/agent-loop.ts:406-443 | every other call emits its start, its progress and its end with its outcome, in both modes |
| `CallOutcomes.RefusalsTellTheFirstReason` | packages/agent/src/agent-loop.ts:569-625 | which message a refused call is answered with: the reason of what comes first among missing tool, validation, hook error, abort after the hook, block, and abort |
| `CallOutcomes.AcceptedCallsAnswerWithTheirExecution` | packages/agent/src/agent-loop.ts:628-669 | without a word from the after hook, a call that nothing refuses answers with what its tool returns, as no error, or with what it throws, as an error |
| `CallOutcomes.AfterHooksReplaceWhatTheyName` | packages/agent/src/agent-loop.ts:671-714 | an after hook replaces exactly the fields it names, each by its own; one that throws replaces the answer by its error |
| `SequentialBatch.RunCall` | packages/agent/src/agent-loop.ts:406-438 | one call: start, updates, end, then its result message |
| `SequentialBatch.ExecuteToolCallsSequential` | packages/agent/src/agent-loop.ts:395-449 | the loop emits the lifecycles of the reached calls one after the other and returns their results and the terminate flag |
| `SequentialBatch.SequentialCallsNeverOverlap` | packages/agent/src/agent-loop.ts:406-443 | at every point of a sequential batch at most one call is running |
| `SequentialBatch.SequentialBracketing` | packages/agent/src/agent-loop.ts:406-443 | for every id, shared or not: its events are the lifecycles of the reached calls that bear it, one behind the other, each with one start, its updates and one end |
| `SequentialBatch.SequentialDelivers` | packages/agent/src/agent-loop.ts:435-438 | a sequential batch delivers its result messages in call order |
| `ParallelBatch.PrepareAll` | packages/agent/src/agent-loop.ts:461-500 | preparation announces the calls in order, ends those it settles, and breaks after the first that finds the signal aborted |
| `ParallelBatch.Perform` | packages/agent/src/agent-loop.ts:484-496 | one step of one concurrent call |
| `ParallelBatch.AwaitAll` | packages/agent/src/agent-loop.ts:502-504 | running all calls under a schedule emits the events of that schedule and collects the slots in call order |
| `ParallelBatch.ExecuteToolCallsParallel` | packages/agent/src/agent-loop.ts:451-516 | the whole batch under a schedule: announcements, concurrent part, result messages, results and terminate flag |
| `ParallelBatch.FinalPhases` | packages/agent/src/agent-loop.ts:502-504 | under every schedule each slot ends with the outcome of its own call |
| `ParallelBatch.ScheduleDoesNotMatter` | packages/agent/src/agent-loop.ts:502-510 | every schedule hands back the outcomes of the reached calls in call order |
| `ParallelBatch.ParallelRefinesSequential` | packages/agent/src/agent-loop.ts:395-516 | for every schedule the results of the two modes are prefixes of each other; they and the terminate flags are equal when both reach the same calls, in particular when no abort is seen |
| `ParallelTrace.ParallelBracketing` | packages/agent/src/agent-loop.ts:461-510 | under every schedule and whatever the ids, the tool events fall apart by call: each reached call has exactly one start, then exactly the callbacks made while its tool executed, then exactly one end with its own outcome |
| `ParallelTrace.IdTellsCallExactly` | packages/agent/src/agent-loop.ts:461-510 | the events with the id of a call are the lifecycle of that call if and only if no other reached call bears the id |
| `ParallelTrace.StartsInOrderResultsLast` | packages/agent/src/agent-loop.ts:461-510 | under every schedule starts follow source order and every tool event precedes the first result message |
| `ParallelTrace.ParallelDelivers` | packages/agent/src/agent-loop.ts:505-510 | under every schedule the batch delivers its result messages in call order |
| `ParallelTrace.WatchParallel` | packages/agent/src/agent-loop.ts:451-516 | under every schedule the monitor accepts a batch if and only if no call bears the id of an earlier one that was not settled during preparation; no call is then running at its end |
| `PendingCalls.PendingTellsExactly` | packages/agent/src/agent.ts:529-541 | under every schedule the pending set shows the running calls after each event of a parallel batch if and only if no call bears the id of an earlier one that was not settled during preparation |
| `PendingCalls.SharedIdIsClearedEarly` | packages/agent/src/agent.ts:529-541 | otherwise, under every schedule of every such batch, the end of one call clears the id while another call with it is still running |
| `PendingCalls.PendingTellsInSequence` | packages/agent/src/agent.ts:529-541 | in sequential mode the pending set always shows the running call, whatever the ids |
| `PendingCalls.EveryStartHasItsEnd` | packages/agent/src/agent-loop.ts:461-510 | whatever the ids and the schedule, a batch ends as many calls with an id as it starts |
| `Queues.PendingMessageQueue.Enqueue` | packages/agent/src/agent.ts:128-130 | adds at the end |
| `Queues.PendingMessageQueue.Drain` | packages/agent/src/agent.ts:136-149 | hands out everything or the first message, depending on the mode, and keeps the rest in order |
| `Queues.Drained` | packages/agent/src/agent.ts:136-149 | what a drain hands out is a prefix of the queue, empty exactly if the queue is, all of it in one mode and at most one message in the other |
| `Queues.Rest` | packages/agent/src/agent.ts:136-149 | what is handed out followed by what is left is the queue |
| `Queues.OpsAppend` | packages/agent/src/agent.ts:248-274 | queue calls only ever add at the end of the queue they name |
| `Queues.ModesAreTheLastSet` | packages/agent/src/agent.ts:248-263 | the mode of each queue is the one last set for it |
| `AgentLoop.LoopConfig.GetSteeringMessages` | packages/agent/src/agent.ts:445-451 | the initial poll is skipped once if asked for; every other poll drains the steering queue |
| `AgentLoop.ExecuteToolCalls` | packages/agent/src/agent-loop.ts:373-388 | one sequential tool among the calls, or the mode, makes the whole batch sequential |
| `AgentLoop.RunTurn` | packages/agent/src/agent-loop.ts:175-218 | the body of the inner loop up to turn_end: events, context array and new messages are those of the turn |
| `AgentLoop.TurnAndPoll` | packages/agent/src/agent-loop.ts:175-253 | the body of the inner loop with the hooks and the steering poll, and agent_end where the run ends here |
| `AgentLoop.RunTurns` | packages/agent/src/agent-loop.ts:171-254 | the inner loop plays the turns of the flat run until neither tool results nor pending messages are left |
| `AgentLoop.PollFollowUpsOrEnd` | packages/agent/src/agent-loop.ts:256-268 | the outer loop goes on with follow-up messages, or ends the run when there are none |
| `AgentLoop.RunTurnsAndPoll` | packages/agent/src/agent-loop.ts:170-266 | the body of the outer loop: turns until there is nothing more to do, then the follow-up poll |
| `AgentLoop.RunLoop` | packages/agent/src/agent-loop.ts:155-269 | the two nested loops produce the flat run of their scripts: same turns, polls, events, context, queues and end |
| `AgentLoop.RunAgentLoop` | packages/agent/src/agent-loop.ts:95-118 | a run from prompts, with queue calls during its opening events; the caller's context is copied and not touched |
| `AgentLoop.RunAgentLoopContinue` | packages/agent/src/agent-loop.ts:120-143 | refused for an empty context or a last assistant message, with nothing changed; otherwise the run, with queue calls during its opening events, is appended to the array the caller shares |
| `LoopProperties.RunGrammar` | packages/agent/src/agent-loop.ts:95-269 | every run is agent_start, then its turns, each with exactly one turn_start, prompts inside the first, then agent_end exactly if it is over |
| `LoopProperties.RunIsAccepted` | packages/agent/src/agent-loop.ts:95-269 | the monitor accepts a run if and only if no response had a second start event and, in each turn whose batch is parallel, no reached call bears the id of an earlier one not settled during preparation; agent_end is then its last event |
| `LoopProperties.RunIsMirrored` | packages/agent/src/agent.ts:514-552 | at every event of every run that is not rejected by then, the state shows exactly the open message and the running calls, so none is pending at a turn_end; in accepted runs that is every event |
| `LoopProperties.TurnIsBracketed` | packages/agent/src/agent-loop.ts:175-218 | a turn is accepted if and only if its response kept to the protocol and its ids tell its running calls apart |
| `LoopProperties.HistoriesAgree` | packages/agent/src/agent-loop.ts:103-118 | message_end payloads, new messages and the grown part of the transcript are the same list in every run |
| `LoopProperties.ContextAgreesExactlyUnderProtocol` | packages/agent/src/agent-loop.ts:180-216 | without a replaced context, the context is the initial one plus the transcript of the run if and only if every stream had at most one start event |
| `LoopProperties.ContextGrows` | packages/agent/src/agent-loop.ts:180-216 | each further start event leaves exactly one stale entry in the context |
| `RunProperties.TurnAnswersItsCalls` | packages/agent/src/agent-loop.ts:193-218 | the results of a turn answer a prefix of its calls in order: nonempty if there are calls, all of them if and only if no loop check before the last call sees an abort, none after an error or aborted response |
| `RunProperties.FailureIsConfined` | packages/agent/src/agent-loop.ts:202-216 | a turn in which a reached call fails still answers every call it reaches, the failing one with an error, and asks for another turn; had something else happened to that call, without another abort, the other results would be the same |
| `TurnOutcomes.StopReasonsDecide` | packages/agent/src/agent-loop.ts:196-251 | in every run: a response with the stop reason error or aborted has no tool events and no results, is the last, and ends the run for it; no other response does, and each other one with calls has results; the hook ends a run exactly at the first other response for which it says so |
| `TurnOutcomes.OverlapExactly` | packages/agent/src/agent-loop.ts:379-387 | a batch is run in sequence exactly if the mode says so or the first tool bearing the name of one of the calls is sequential |
| `TurnOutcomes.SequentialToolsNeverOverlap` | packages/agent/src/agent-loop.ts:379-449 | then at every event of the turn's tool phase at most one call is running |
| `TurnOutcomes.ConcurrentToolsEndBeforeResults` | packages/agent/src/agent-loop.ts:451-516 | otherwise all starts, updates and ends come before the first result message |
| `TurnOutcomes.ResultsAreOutcomes` | packages/agent/src/agent-loop.ts:723-743 | the results of a turn are the outcomes of its reached calls, field by field, in call order |
| `TurnOutcomes.TurnGoesOnExactly` | packages/agent/src/agent-loop.ts:208-209 | a response asks for another turn exactly if it reaches a call whose answer, after its hook, does not ask to terminate |
| `TurnOutcomes.ContextIsTheReplacedOneGrown` | packages/agent/src/agent-loop.ts:226-229 | with hooks that replace the context, under the protocol the context of every run is the one last put in place, grown by the turns since |
| `RunProperties.RunIsPaired` | packages/agent/src/agent-loop.ts:193-218 | if callers queue only messages that neither are nor wait for tool results, the messages of a run are paired if and only if its prompts are |
| `RunProperties.RunIsPairedWithoutQueuedResults` | packages/agent/src/agent-loop.ts:193-218 | if callers queue no tool results, the messages of a run are paired if and only if its prompts are and no queued message it has injected waits for results |
| `RunProperties.RunIsPairedExactly` | packages/agent/src/agent-loop.ts:180-218 | for all prompts and queued messages, tool results among them: the messages of a run are paired if and only if what callers put in is, and results put in right behind a turn answer calls it did not reach |
| `RunProperties.PromptedCallStaysUnanswered` | packages/agent/src/agent-loop.ts:103-118 | a witness: a prompted assistant message with a tool call is never answered |
| `RunProperties.QueuesAreConserved` | packages/agent/src/agent-loop.ts:167-262 | from the entry of the loop: at every turn boundary of every run, the messages ever put into a queue are those delivered from it, then those drained and pending, then those still queued, in order |
| `Continuation.RunConserves` | packages/agent/src/agent-loop.ts:95-269 | the same from the start of a run, with queue calls during its opening events |
| `Continuation.ContinueConserves` | packages/agent/src/agent.ts:341-368 | the same for continue(): what it has itself taken from a queue comes first, and is the beginning of the run's messages |
| `Continuation.ContinueFromSteeringDeliversOnce` | packages/agent/src/agent.ts:351-356 | a continue served from steering: the oldest steering messages, exactly one in one-at-a-time mode, are all the run delivers before its first response, whatever is queued meanwhile |
| `RunSteps.PromptIsASequenceOfSteps` | packages/agent/src/agent.ts:330-479 | prompt() with any run of the loop is a sequence of steps of the lifecycle: it leaves the same state, queues and active run |
| `RunSteps.ContinueIsASequenceOfSteps` | packages/agent/src/agent.ts:341-479 | so is continue(), on drained messages or on the transcript |
| `RunSteps.RunCallsPlay` | packages/agent/src/agent.ts:456-479 | from the moment a run has begun: its events, queue calls, polls, return and closing, performed one by one, come to the reduction of its trace and the queues it leaves |
| `RunProperties.PollsAreDisciplined` | packages/agent/src/agent-loop.ts:174-266 | a follow-up poll comes only after a turn without tool work and an empty steering poll; a normal end follows two empty polls; an error or aborted response is the last of its run |
| `RunProperties.OneMessagePerTurn` | packages/agent/src/agent.ts:143-148 | in one-at-a-time mode no turn injects more than one queued message |
| `RunProperties.TurnBound` | packages/agent/src/agent-loop.ts:170-266 | the number of turns is at most one plus the turns whose batch did not terminate plus the nonempty polls |
| `RunProperties.PollsUseUpMessages` | packages/agent/src/agent-loop.ts:170-266 | nonempty polls are paid for by queued messages, continuing turns by tool-calling responses |
| `RunProperties.EveryFiniteRunEnds` | packages/agent/src/agent-loop.ts:170-266 | a run is over before it has had more turns than tool-calling responses and queued messages together |
| `Lifecycle.AtMostOneRun` | packages/agent/src/agent.ts:330-505 | over every sequence of public calls and run steps at most one run is active; the streaming flag is set only then, and all through a run unless it is reset; an idle agent shows no message and no pending call |
| `Lifecycle.LateToolEventsChangeNothing` | packages/agent/src/agent.ts:514-557 | an update or end of a tool that has outlived its run leaves the state of an idle agent as it is |
| `Lifecycle.RunsOnlyEndByTheirExecutor` | packages/agent/src/agent.ts:456-479 | only prompt and continue begin a run; only its closing ends it, and that comes only behind its executor's return or throw |
| `Lifecycle.RunsStartFresh` | packages/agent/src/agent.ts:341-470 | whatever begins a run keeps the transcript, shows no message, no error and no abort left over from before, and skips a steering poll exactly if it has just drained the steering queue |
| `Lifecycle.RefusedCallsChangeNothing` | packages/agent/src/agent.ts:330-368 | exactly when prompt and continue are refused, with which reason, and that a refusal changes neither transcript nor queues nor anything else |
| `Lifecycle.EveryRunEndsIdle` | packages/agent/src/agent.ts:472-505 | once its executor has returned or thrown, every run ends after at most five more steps of its own and leaves the agent idle, whatever calls come in between and whichever listener throws |
| `Lifecycle.FailureAppendsOneMessage` | packages/agent/src/agent.ts:481-497 | over every interleaving of calls with the failure handler: exactly one error or aborted message is appended if and only if no listener throws at the handler's first event, nobody resets the agent after the second, and nobody resets it before, unless the transcript was empty |
| `Lifecycle.FailureTranscript` | packages/agent/src/agent.ts:481-497 | the whole transcript at every point of the failure handler, for every interleaving |
| `Lifecycle.ThrownRunTellsWhy` | packages/agent/src/agent.ts:456-491 | a run whose executor throws is reported as aborted exactly if abort() was called since it began, and as an error otherwise, with what was thrown; whatever else was called in between |
| `Lifecycle.FailureIsReported` | packages/agent/src/agent.ts:493-496 | what the four failure events do to the state: the message in the transcript, its error shown if nonempty, nothing else changed |
| `Lifecycle.ResetForgets` | packages/agent/src/agent.ts:317-325 | a reset empties transcript, runtime state and both queues, and leaves the modes and the active run alone |
| `Lifecycle.CallsConserveQueues` | packages/agent/src/agent.ts:267-452 | over every sequence of calls and runs, clears and resets among them: what was put into a queue is what has left it, handed out or thrown away, in order, followed by what is still queued |
| `Lifecycle.OnlyClearsLoseMessages` | packages/agent/src/agent.ts:277-325 | barring clear and reset, all that leaves a queue is handed to runs |
| `Agents.Agent.Reset` | packages/agent/src/agent.ts:317-325 | clears transcript, runtime state and queues; an active run stays active |
| `Agents.Agent.BeginRun` | packages/agent/src/agent.ts:461-470 | marks the run active before the executor is called |
| `Agents.Agent.FinishRun` | packages/agent/src/agent.ts:499-505 | clears the runtime state and the active run |
| `Agents.Agent.HandleRunFailure` | packages/agent/src/agent.ts:481-497 | processes the four failure events one by one, with whatever calls the listeners of each make, up to the one at which a listener throws |
| `Agents.Agent.RunFailing` | packages/agent/src/agent.ts:472-478 | a run that throws ends through the failure handler and is closed in any case, with calls coming in at every wait |
| `Agents.Agent.CreateContextSnapshot` | packages/agent/src/agent.ts:417-423 | the context of a run is a fresh copy of the transcript |
| `Agents.Agent.RunPromptMessages` | packages/agent/src/agent.ts:389-403 | the transcript grows by exactly the messages of the run, the state is the reduction of its events, an ended run leaves the agent idle; queue calls may come in from its first event on |
| `Agents.Agent.RunContinuation` | packages/agent/src/agent.ts:405-415 | the same for a continuation, although loop and reducer both append |
| `Agents.Agent.Prompt` | packages/agent/src/agent.ts:330-338 | refused with nothing changed while a run is active, otherwise one run on the messages; when it is over the agent is where the steps of the lifecycle lead |
| `Agents.Agent.Continue` | packages/agent/src/agent.ts:341-368 | refused with nothing changed, or a run on drained messages or on the transcript; when it is over the agent is where the steps of the lifecycle lead |
| `SseLines.SplitIsInverseOfJoin` | packages/agent/src/proxy.ts:192-193 | the pieces joined by line feeds are the text, and none contains a line feed |
| `SseLines.SplitIsUnique` | packages/agent/src/proxy.ts:192-193 | no other list of pieces does that |
| `SseLines.SplitAppend` | packages/agent/src/proxy.ts:191-193 | the split of a text in two parts is the lines of the first, then the split of its unfinished line with the second |
| `SseLines.ChunkCompletesLines` | packages/agent/src/proxy.ts:191-193 | the lines a chunk completes and the buffer it leaves are those of the whole text so far |
| `SseLines.SpacesAreThese` | packages/agent/src/proxy.ts:197 | what counts as white space at the ends of the data, character by character |
| `SseLines.DataOf` | packages/agent/src/proxy.ts:196-198 | data is what is left of the text behind the prefix without the white space around it; there is none without the prefix, or with nothing but white space behind it |
| `ProxyEvents.BlockDependsOnItsEvents` | packages/agent/src/proxy.ts:238-348 | as long as nothing throws, the block at an index is what the events about that index make by themselves |
| `ProxyEvents.OutputDependsOnItsEvents` | packages/agent/src/proxy.ts:238-348 | so is what is handed on about the block |
| `ProxyEvents.ThrowsExactlyWhenABlockThrows` | packages/agent/src/proxy.ts:250-333 | a list of events throws if and only if the events about some index throw by themselves |
| `ProxyEvents.InterleavingDoesNotMatter` | packages/agent/src/proxy.ts:238-348 | two interleavings of the same events per index throw both or neither, rebuild the same content and hand on the same about each block |
| `ProxyEvents.BlocksHoldTheirDeltas` | packages/agent/src/proxy.ts:246-333 | a text or thinking block holds the deltas since its last start put together; a tool call holds the parse of its text since then |
| `ProxyEvents.ParsedTextIsTheDeltasExactly` | packages/agent/src/proxy.ts:320-339 | that text is the deltas put together if and only if the last of them did not come after an end, or the ones before that end spell "undefined" |
| `ProxyEvents.LastEndDecides` | packages/agent/src/proxy.ts:350-359 | the last done or error event decides stop reason and usage, the last error event the error message, also when reading goes on after it |
| `ProxyEvents.EndReportsDeltas` | packages/agent/src/proxy.ts:264-308 | a text or thinking end reports exactly the deltas since the last start |
| `ProxyEvents.CallEndReportsArguments` | packages/agent/src/proxy.ts:336-346 | a tool call's end reports the id and name of its start and the arguments so far; these are the parse of its deltas put together if the last did not come late or nothing was lost |
| `ProxyEvents.LateDeltaLosesText` | packages/agent/src/proxy.ts:320-339 | after a late delta the arguments are not the parse of all deltas, for some parser |
| `ProxyOutput.WhatTheNextEventDoes` | packages/agent/src/proxy.ts:238-367 | after any events, the next one throws exactly if it is a delta or an end for a block not last started as one of its kind, with the message for that; otherwise it hands on exactly its own start, delta, end, or last event |
| `ProxyOutput.StartsAndDeltasAreHandedOn` | packages/agent/src/proxy.ts:246-333 | as long as nothing throws, what is handed on about an index has one opening per start and one delta per delta, in order and with its text; the deltas since the last opening, put together, are those received since the last start |
| `ProxyOutput.BlocksCarryTheirSignature` | packages/agent/src/proxy.ts:264-308 | a text or thinking block carries the signature of its last end since its start |
| `ProxyOutput.ArgumentsAreTheParsersAnswer` | packages/agent/src/proxy.ts:310-334 | the arguments of a tool call are the parser's answer to its deltas put together, the empty object before the first delta or where the answer is falsy; behind a late delta they are the answer to "undefined" and the deltas since the end |
| `ProxyStream.ChunksAmountToTheirText` | packages/agent/src/proxy.ts:183-207 | after any chunks, what has been handled is the lines of the concatenated text and the buffer is its unfinished line |
| `ProxyStream.CutsDoNotMatter` | packages/agent/src/proxy.ts:183-207 | two ways to cut a text into chunks give the same message, events and buffer |
| `ProxyStream.UnfinishedLineHasNoEffect` | packages/agent/src/proxy.ts:193-213 | a last line without its line feed is never handled |
| `ProxyStream.ProxiedStreamRoundTrip` | packages/agent/src/proxy.ts:183-207 | events written as data lines are read back as these events, in chunks of any size |
| `ProxyStream.UndisturbedResponse` | packages/agent/src/proxy.ts:183-213 | and a whole undisturbed response is the rebuilding of its events |
| `ProxyStream.HowAResponseEnds` | packages/agent/src/proxy.ts:183-227 | every response that throws, breaks off or is aborted ends with exactly one error event, with its reason and its error message; the reason is an abort exactly if nothing read threw and the signal was found aborted |
| `ProxyStream.RejectedLineEndsTheReading` | packages/agent/src/proxy.ts:195-206 | a line the parser rejects ends the reading: nothing behind it has any effect |
| `ProxyStream.PartialMessage.ProcessProxyEvent` | packages/agent/src/proxy.ts:238-367 | one event changes the message in place as the event says, or throws and leaves it as it was |
| `ProxyStream.HandleLines` | packages/agent/src/proxy.ts:195-206 | lines are handled in order up to the first exception |
| `ProxyStream.ReadLoop` | packages/agent/src/proxy.ts:183-207 | the read loop handles the lines of the text received before a failed read or an abort |
| `ProxyStream.StreamProxy` | packages/agent/src/proxy.ts:151-230 | the whole response: every exception turns into one last error event and an error or aborted message |
| `Packer.Pack` | scripts/session-transcripts.ts:196-241 | the files are numbered from 0 and are the joins of consecutive groups that hold every transcript once, in order; no group could have taken the next transcript; a file beyond the limit holds a single transcript; the inner flush is never reached |
| `Packer.TightIsOptimal` | scripts/session-transcripts.ts:201-233 | such a split has the fewest groups among all in-order splits into writable groups |
| `Packer.TightNeedsNoMore` | scripts/session-transcripts.ts:201-233 | greedy stays ahead: it needs no more groups for a rest than any split needs for that rest and more |
| `Packer.TightIsUnique` | scripts/session-transcripts.ts:201-233 | there is only one such split |
| `Packer.WriteTranscripts` | scripts/session-transcripts.ts:196-241 | at the program's limit no in-order split has fewer files |
| `Packer.NoRoomForTheNext` | scripts/session-transcripts.ts:211-215 | in characters: no file but the last has room for a blank line and the next transcript |
| `Packer.TranscriptStandsInFile` | scripts/session-transcripts.ts:201-233 | each transcript stands in its file behind the earlier ones, set off by a blank line |
| `Cost.Report.AddLine` | scripts/cost.ts:86-122 | a line changes the table exactly if it counts, and then by its amounts and one request |
| `Cost.Report.TotalProviders` | scripts/cost.ts:144-163 | the row of a day is added to the provider totals and to the day total, in any order of its providers |
| `Cost.Report.Accumulate` | scripts/cost.ts:72-123 | the table has a cell for exactly the days and providers that occur, with the sum of their charges |
| `Cost.RecordNext` | scripts/cost.ts:101-118 | recording a charge keeps that |
| `Cost.Report.TotalDay` | scripts/cost.ts:140-168 | a day adds its row to the provider totals, the day totals and the grand total |
| `Cost.Report.Total` | scripts/cost.ts:137-168 | provider totals are sums over all days, day totals over all providers, the grand total over both |
| `Cost.TwoOrdersAgree` | scripts/cost.ts:137-168 | the provider totals, added up in any order, are the sum of all accepted charges in every component |
| `Cost.RequestsAreCounted` | scripts/cost.ts:113-118 | the requests add up to the number of accepted log entries |
| `Cost.ChargesAreWhatTheLogStates` | scripts/cost.ts:72-118 | for any days and providers, the sum of charges is in each component the sum of what the lines of the included files state for it, missing amounts being none |
| `Cost.Run` | scripts/cost.ts:72-182 | said of the log lines: no report if no line counts; otherwise every cell, provider total and day total is there exactly if a line counts for it, and is in each component the sum of what the lines state; the grand total is the sum of all stated totals, and the provider totals added up in any order give it, the other components, and the number of lines that count |

## Left out

- Network, authentication, fetch and UTF-8 decoding of the proxy client, and both JSON parsers: decoded chunks, parse
  results and read failures are inputs.
- `EventStream`: events pushed after a done or error event are listed as handed on, whatever the stream object does
  with them.
- Listeners that throw while a loop runs, and reset() or clear calls during a run that succeeds: listeners of a loop
  return, and add to the queues. The others appear in the lifecycle, as calls between the steps of a run, as an executor
  that throws, and with the failure handler.
- Agents.Agent.RunPromptMessages: takes no reset() or clear calls during the run.
- Agents.Agent.RunContinuation: takes no reset() or clear calls during the run.
- Agents.Agent.Prompt: takes no reset() or clear calls during the run.
- Agents.Agent.Continue: takes no reset() or clear calls during the run.
- Queue calls by listeners of agent_end: they are calls made after the run, whose queues have by then been polled for
  the last time.
- Assigning `state.messages` or `state.tools` during a run, and changing the tools between two turns of a run other
  than by a replaced context.
- Models, reasoning levels, system prompts, API keys, `transformContext` and `convertToLlm`: they decide what the
  provider sees, and its stream is an arbitrary input.
- Time stamps, usage and image contents of messages; message contents and tool arguments are opaque texts.
- Aliasing of streamed partials: an event carries the value a message had when it was emitted. The proxy's events all
  carry one message object, which later events go on changing.
- Aliasing between a context given by `prepareNextTurn` and the arrays in use: such a context is taken to be a new one.
- The order of progress events against each other inside `Promise.all`, beyond the order of their callbacks: the state
  is reduced before the first wait.
- Strings are sequences of characters; lengths in UTF-16 code units agree with them outside surrogate pairs.
- Floating-point rounding in the cost report: amounts are exact reals.
- Amounts that are not numbers, and providers named like properties of every object, in the cost report.
- Reading and parsing of session files, argument parsing, file names, console output and the analysis subagents of the
  scripts.
- Processing-order of days and providers in the cost report is any order, of which the sorted one of the source is one.
- RunProperties.RunIsPaired: asks that queued messages neither be nor wait for tool results. With any queued messages
  but tool results the condition is that of RunProperties.RunIsPairedWithoutQueuedResults; with queued tool results it
  depends on the calls a turn has reached, as RunProperties.RunIsPairedExactly says.
- RunProperties.QueuesAreConserved: does not cover clear, reset, or an exception between a drain and the next turn.
- ToolCalls.ExecutePreparedToolCall: callbacks come before or after the execution settles, as in the sequential mode;
  callbacks between other calls' steps are covered by the schedules of the parallel mode.
- The remaining packages and scripts: catalogues, registries, command lines and user interfaces, with no claim that
  spans functions.
