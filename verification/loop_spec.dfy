/**
 A run of the agent loop as a flat sequence of turns.

 The environment of a run is a script per turn: what the provider streams, what tools and hooks decide, what
 callers put into the queues. A list of scripts is the observed beginning of a run; a run that needs more turns
 than it has scripts for is seen up to the point where the next turn would start. So every run, ending or not,
 is covered by its beginnings, of every length.
 */
module LoopSpec {
  import opened Messages
  import opened Events
  import opened Streaming
  import opened ToolCalls
  import opened SequentialBatch
  import opened ParallelBatch
  import opened Queues

  datatype Context = Context(messages: seq<Message>, tools: seq<Tool>)

  /**
   - stream, final: the provider's events and the message its result() gives
   - calls, schedule: the oracle values of the tool calls, and their interleaving in parallel mode
   - ops: queue calls during the turn; lateOps: queue calls between the steering and the follow-up poll
   - nextContext: the context prepareNextTurn puts in place, if any; shouldStop: the answer of shouldStopAfterTurn
   */
  datatype TurnScript = TurnScript(
    stream: seq<StreamEvent>,
    final: AssistantMessage,
    calls: nat -> CallScript,
    schedule: seq<Action>,
    ops: seq<Op>,
    nextContext: Option<Context>,
    shouldStop: bool,
    lateOps: seq<Op>)

  /** One turn, from its injected messages to its turn_end. `more` says that tool results call for another turn. */
  datatype Turn = Turn(
    injected: seq<Message>,
    response: AssistantMessage,
    responseEvents: seq<Event>,
    toolEvents: seq<Event>,
    results: seq<ToolResultMessage>,
    more: bool)

  predicate RunsSequentially(sequentialMode: bool, tools: seq<Tool>, calls: seq<ToolCall>) {
    || sequentialMode
    || exists i :: 0 <= i < |calls| && NeedsSequential(tools, calls[i])
  }

  predicate NeedsSequential(tools: seq<Tool>, call: ToolCall) {
    var tool := Find(tools, call.name);
    tool.Some? && tool.value.sequential
  }

  function ReachedCalls(sequentialMode: bool, tools: seq<Tool>, script: TurnScript): seq<ToolCall> {
    var calls := script.final.Calls();
    if RunsSequentially(sequentialMode, tools, calls) then calls[..SequentialReach(calls, script.calls)]
    else calls[..ParallelReach(calls, script.calls)]
  }

  function ToolEventsOf(sequentialMode: bool, tools: seq<Tool>, script: TurnScript): seq<Event> {
    var calls := ReachedCalls(sequentialMode, tools, script);
    if RunsSequentially(sequentialMode, tools, script.final.Calls()) then
      SequentialEvents(tools, calls, script.calls)
    else
      ParallelEvents(tools, calls, script.calls, script.schedule)
  }

  function BatchFor(sequentialMode: bool, tools: seq<Tool>, script: TurnScript): Batch {
    BatchOf(Outcomes(tools, ReachedCalls(sequentialMode, tools, script), script.calls))
  }

  datatype ToolPhase = ToolPhase(events: seq<Event>, results: seq<ToolResultMessage>, more: bool)

  /** A failed response has no tool phase, and a response without calls asks for no further turn. */
  function ToolPhaseOf(sequentialMode: bool, tools: seq<Tool>, script: TurnScript): ToolPhase {
    if script.final.Failed() || script.final.Calls() == [] then ToolPhase([], [], false)
    else
      var batch := BatchFor(sequentialMode, tools, script);
      ToolPhase(ToolEventsOf(sequentialMode, tools, script), batch.results, !batch.terminate)
  }

  function TurnOf(sequentialMode: bool, context: Context, pending: seq<Message>, script: TurnScript): Turn {
    var phase := ToolPhaseOf(sequentialMode, context.tools, script);
    Turn(pending, script.final, Respond(context.messages + pending, script.stream, script.final).events,
         phase.events, phase.results, phase.more)
  }

  function MessagesOf(turn: Turn): seq<Message> {
    turn.injected + [Assistant(turn.response)] + AsMessages(turn.results)
  }

  function TurnEvents(turn: Turn): seq<Event> {
    Brackets(turn.injected) + turn.responseEvents + turn.toolEvents + [TurnEnd(turn.response, turn.results)]
  }

  /** The context array after a turn's response and results. */
  function Grown(context: seq<Message>, pending: seq<Message>, script: TurnScript, turn: Turn): seq<Message> {
    Respond(context + pending, script.stream, script.final).context + AsMessages(turn.results)
  }

  // ----- From one turn to the next -----

  /** Why a run has ended. */
  datatype Exit = ResponseFailed | StoppedByHook | NothingLeft

  datatype LoopState = LoopState(
    pending: seq<Message>,
    context: Context,
    newMessages: seq<Message>,
    queues: Both,
    exit: Option<Exit>)

  /** What the polls after a turn returned; None when a poll was not made. */
  datatype Polls = Polls(steering: Option<seq<Message>>, followUp: Option<seq<Message>>)

  datatype Step = Step(turn: Turn, polls: Polls, state: LoopState)

  /** Entering the loop polls the steering queue, unless that poll is to be skipped. */
  function Enter(context: Context, newMessages: seq<Message>, queues: Both, skip: bool): LoopState {
    if skip then LoopState([], context, newMessages, queues, None)
    else
      LoopState(Drained(queues.steering), context, newMessages,
                queues.(steering := Rest(queues.steering)), None)
  }

  /** A turn, up to and including the steering poll that follows it. */
  function UpToSteering(sequentialMode: bool, s: LoopState, script: TurnScript): Step {
    var turn := TurnOf(sequentialMode, s.context, s.pending, script);
    var grown := Context(Grown(s.context.messages, s.pending, script, turn), s.context.tools);
    var after := LoopState([], grown, s.newMessages + MessagesOf(turn), ApplyAll(s.queues, script.ops), None);
    if turn.response.Failed() then
      Step(turn, Polls(None, None), after.(exit := Some(ResponseFailed)))
    else
      var next := after.(context := Or(script.nextContext, grown));
      if script.shouldStop then
        Step(turn, Polls(None, None), next.(exit := Some(StoppedByHook)))
      else
        var steering := Drained(next.queues.steering);
        Step(turn, Polls(Some(steering), None),
             next.(pending := steering, queues := next.queues.(steering := Rest(next.queues.steering))))
  }

  predicate GoesOn(step: Step) {
    step.turn.more || step.state.pending != []
  }

  /** The follow-up poll, made only when the loop would otherwise stop. */
  function PollFollowUps(step: Step, lateOps: seq<Op>): Step {
    if step.state.exit.Some? || GoesOn(step) then step
    else
      var queues := ApplyAll(step.state.queues, lateOps);
      var followUps := Drained(queues.followUp);
      Step(step.turn, step.polls.(followUp := Some(followUps)),
           step.state.(pending := followUps,
                       queues := queues.(followUp := Rest(queues.followUp)),
                       exit := if followUps == [] then Some(NothingLeft) else None))
  }

  function PlayTurn(sequentialMode: bool, s: LoopState, script: TurnScript): Step {
    PollFollowUps(UpToSteering(sequentialMode, s, script), script.lateOps)
  }

  datatype Run = Run(turns: seq<Turn>, polls: seq<Polls>, state: LoopState)

  function Play(sequentialMode: bool, start: LoopState, scripts: seq<TurnScript>): (run: Run)
    ensures |run.turns| == |run.polls| <= |scripts|
    ensures run.state.exit.None? ==> |run.turns| == |scripts|
  {
    if scripts == [] || start.exit.Some? then Run([], [], start)
    else
      var earlier := Play(sequentialMode, start, scripts[..|scripts| - 1]);
      if earlier.state.exit.Some? then earlier
      else
        var step := PlayTurn(sequentialMode, earlier.state, scripts[|scripts| - 1]);
        Run(earlier.turns + [step.turn], earlier.polls + [step.polls], step.state)
  }

  /** The events of a run after its first turn_start, which is emitted before the loop is entered. */
  function LoopTrace(turns: seq<Turn>): seq<Event> {
    if turns == [] then []
    else
      var n := |turns| - 1;
      LoopTrace(turns[..n]) + (if n == 0 then [] else [TurnStart]) + TurnEvents(turns[n])
  }

  lemma LoopTraceNext(turns: seq<Turn>, turn: Turn)
    ensures LoopTrace(turns + [turn])
            == LoopTrace(turns) + (if turns == [] then [] else [TurnStart]) + TurnEvents(turn)
  {
    hide TurnEvents;
    assert (turns + [turn])[..|turns|] == turns;
  }

  lemma PlayNext(sequentialMode: bool, start: LoopState, scripts: seq<TurnScript>, k: nat)
    requires k < |scripts| && start.exit.None?
    ensures var earlier := Play(sequentialMode, start, scripts[..k]);
            Play(sequentialMode, start, scripts[..k + 1])
            == if earlier.state.exit.Some? then earlier
               else var step := PlayTurn(sequentialMode, earlier.state, scripts[k]);
                    Run(earlier.turns + [step.turn], earlier.polls + [step.polls], step.state)
  {
    hide PlayTurn;
    assert scripts[..k + 1][..k] == scripts[..k];
  }

  function Ending(state: LoopState): seq<Event> {
    if state.exit.Some? then [AgentEnd(state.newMessages)] else []
  }

  /** The events of a whole run: the entry point, the prompts, the loop, the end. */
  function RunTrace(prompts: seq<Message>, run: Run): seq<Event> {
    [AgentStart, TurnStart] + Brackets(prompts) + (LoopTrace(run.turns) + Ending(run.state))
  }

  /**
   The flat run of a prompt: the prompts are in the context and among the new messages from the start. Listeners of
   the opening events may put messages into the queues before the first poll; `openingOps` are their calls.
   */
  function PlayPrompts(
      sequentialMode: bool, context: Context, prompts: seq<Message>, queues: Both, openingOps: seq<Op>, skip: bool,
      scripts: seq<TurnScript>): Run
  {
    Play(sequentialMode,
         Enter(Context(context.messages + prompts, context.tools), prompts, ApplyAll(queues, openingOps), skip),
         scripts)
  }
}
