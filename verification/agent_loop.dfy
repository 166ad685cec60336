/** The agent loop itself. */
module AgentLoop {
  import opened Messages
  import opened Events
  import opened Reducer
  import opened Streaming
  import opened ToolCalls
  import opened SequentialBatch
  import opened ParallelBatch
  import opened Queues
  import opened LoopSpec

  /** A context: its message array may be shared with whoever made it. */
  class AgentContext {
    const messages: MessageList
    const tools: seq<Tool>

    constructor (messages: MessageList, tools: seq<Tool>)
      ensures this.messages == messages && this.tools == tools
    {
      this.messages, this.tools := messages, tools;
    }

    function Value(): Context
      reads messages
    {
      Context(messages.items, tools)
    }
  }

  /** The part of the loop configuration that has state: the polls, and the poll that is to be skipped. */
  class LoopConfig {
    const sequentialMode: bool
    const steering: PendingMessageQueue
    const followUp: PendingMessageQueue
    var skipInitialSteeringPoll: bool

    constructor (sequentialMode: bool, steering: PendingMessageQueue, followUp: PendingMessageQueue, skip: bool)
      ensures this.sequentialMode == sequentialMode && this.steering == steering && this.followUp == followUp
      ensures skipInitialSteeringPoll == skip
    {
      this.sequentialMode, this.steering, this.followUp := sequentialMode, steering, followUp;
      skipInitialSteeringPoll := skip;
    }

    function Queued(): Both
      reads steering, followUp
    {
      Both(steering.Value(), followUp.Value())
    }

    method GetSteeringMessages() returns (messages: seq<Message>)
      modifies this`skipInitialSteeringPoll, steering`messages
      ensures !skipInitialSteeringPoll
      ensures if old(skipInitialSteeringPoll)
              then messages == [] && steering.Value() == old(steering.Value())
              else messages == Drained(old(steering.Value())) && steering.Value() == Rest(old(steering.Value()))
    {
      if skipInitialSteeringPoll {
        skipInitialSteeringPoll := false;
        return [];
      }
      messages := steering.Drain();
    }

    method GetFollowUpMessages() returns (messages: seq<Message>)
      modifies followUp`messages
      ensures messages == Drained(old(followUp.Value())) && followUp.Value() == Rest(old(followUp.Value()))
    {
      messages := followUp.Drain();
    }
  }

  method ExecuteToolCalls(sequentialMode: bool, tools: seq<Tool>, script: TurnScript, sink: AgentState)
    returns (batch: Batch)
    requires sink.Valid()
    modifies sink, sink.messages
    ensures sink.Valid() && sink.messages == old(sink.messages) && sink.base == old(sink.base)
    ensures batch == BatchFor(sequentialMode, tools, script)
    ensures sink.trace == old(sink.trace) + ToolEventsOf(sequentialMode, tools, script)
  {
    hide ReduceAll, OutcomeOf, SequentialEvents, ParallelEvents, Final;
    var calls := script.final.Calls();
    var hasSequentialToolCall := exists i :: 0 <= i < |calls| && NeedsSequential(tools, calls[i]);
    if sequentialMode || hasSequentialToolCall {
      batch := ExecuteToolCallsSequential(tools, calls, script.calls, sink);
    } else {
      batch := ExecuteToolCallsParallel(tools, calls, script.calls, script.schedule, sink);
      ScheduleDoesNotMatter(tools, calls[..ParallelReach(calls, script.calls)], script.calls, script.schedule);
    }
  }

  /** Push messages one by one to the context array and to the messages of the run. */
  method PushAll(messages: seq<Message>, context: MessageList, newMessages: MessageList)
    requires context != newMessages
    modifies context, newMessages
    ensures context.items == old(context.items) + messages
    ensures newMessages.items == old(newMessages.items) + messages
  {
    for k := 0 to |messages|
      invariant context.items == old(context.items) + messages[..k]
      invariant newMessages.items == old(newMessages.items) + messages[..k]
    {
      context.Push(messages[k]);
      newMessages.Push(messages[k]);
    }
  }

  method InjectPending(
      pending: seq<Message>, context: MessageList, newMessages: MessageList, sink: AgentState)
    requires sink.Valid() && context != newMessages && context != sink.messages && newMessages != sink.messages
    modifies context, newMessages, sink, sink.messages
    ensures sink.Valid() && sink.messages == old(sink.messages) && sink.base == old(sink.base)
    ensures sink.trace == old(sink.trace) + Brackets(pending)
    ensures context.items == old(context.items) + pending
    ensures newMessages.items == old(newMessages.items) + pending
  {
    hide ReduceAll;
    ghost var before := sink.trace;
    for k := 0 to |pending|
      invariant sink.Valid() && sink.messages == old(sink.messages) && sink.base == old(sink.base)
      invariant sink.trace == before + Brackets(pending[..k])
      invariant context.items == old(context.items) + pending[..k]
      invariant newMessages.items == old(newMessages.items) + pending[..k]
    {
      assert pending[..k + 1][..k] == pending[..k];
      Associate(before, Brackets(pending[..k]), Bracket(pending[k]));
      sink.EmitBracket(pending[k]);
      context.Push(pending[k]);
      newMessages.Push(pending[k]);
    }
    assert pending[..|pending|] == pending;
  }

  /** Run the calls of a response, if it has any, and append their results. */
  method RunToolPhase(
      message: AssistantMessage, context: MessageList, newMessages: MessageList,
      sequentialMode: bool, tools: seq<Tool>, script: TurnScript, sink: AgentState)
    returns (toolResults: seq<ToolResultMessage>, hasMoreToolCalls: bool)
    requires sink.Valid() && message == script.final && !message.Failed()
    requires context != newMessages && context != sink.messages && newMessages != sink.messages
    modifies context, newMessages, sink, sink.messages
    ensures sink.Valid() && sink.messages == old(sink.messages) && sink.base == old(sink.base)
    ensures var phase := ToolPhaseOf(sequentialMode, tools, script);
            && toolResults == phase.results && hasMoreToolCalls == phase.more
            && sink.trace == old(sink.trace) + phase.events
    ensures context.items == old(context.items) + AsMessages(toolResults)
    ensures newMessages.items == old(newMessages.items) + AsMessages(toolResults)
  {
    hide ReduceAll, BatchFor, ToolEventsOf;
    hasMoreToolCalls := false;
    toolResults := [];
    if |message.Calls()| > 0 {
      var batch := ExecuteToolCalls(sequentialMode, tools, script, sink);
      toolResults := batch.results;
      hasMoreToolCalls := !batch.terminate;
      PushAll(AsMessages(toolResults), context, newMessages);
    }
  }

  /** Open a turn: inject the pending messages and stream the response to them. */
  method OpenTurn(
      firstTurn: bool, pending: seq<Message>, context: MessageList, newMessages: MessageList,
      script: TurnScript, sink: AgentState)
    returns (message: AssistantMessage)
    requires sink.Valid()
    requires context != newMessages && context != sink.messages && newMessages != sink.messages
    modifies context, newMessages, sink, sink.messages
    ensures sink.Valid() && sink.messages == old(sink.messages) && sink.base == old(sink.base)
    ensures message == script.final
    ensures var streamed := Respond(old(context.items) + pending, script.stream, script.final);
            && context.items == streamed.context
            && sink.trace == old(sink.trace)
               + ((if firstTurn then [] else [TurnStart]) + (Brackets(pending) + streamed.events))
    ensures newMessages.items == old(newMessages.items) + (pending + [Assistant(message)])
  {
    hide ReduceAll, Respond, Brackets;
    ghost var before, start := sink.trace, if firstTurn then [] else [TurnStart];
    ghost var streamed := Respond(context.items + pending, script.stream, script.final);
    if !firstTurn {
      sink.Process(TurnStart);
    }
    InjectPending(pending, context, newMessages, sink);
    ghost var read;
    message, read := StreamAssistantResponse(context, script.stream, script.final, sink);
    newMessages.Push(Assistant(message));
    Associate(before + start, Brackets(pending), streamed.events);
    Associate(before, start, Brackets(pending) + streamed.events);
  }

  /** The body of the inner loop up to turn_end; a failed response skips its tool phase. */
  method RunTurn(
      firstTurn: bool, pending: seq<Message>, currentContext: AgentContext, newMessages: MessageList,
      sequentialMode: bool, script: TurnScript, sink: AgentState)
    returns (message: AssistantMessage, hasMoreToolCalls: bool, ghost turn: Turn)
    requires sink.Valid()
    requires currentContext.messages != newMessages
    requires sink.messages != currentContext.messages && sink.messages != newMessages
    modifies currentContext.messages, newMessages, sink, sink.messages
    ensures sink.Valid() && sink.messages == old(sink.messages) && sink.base == old(sink.base)
    ensures turn == TurnOf(sequentialMode, old(currentContext.Value()), pending, script)
    ensures message == turn.response && hasMoreToolCalls == turn.more
    ensures sink.trace == old(sink.trace) + ((if firstTurn then [] else [TurnStart]) + TurnEvents(turn))
    ensures currentContext.messages.items == Grown(old(currentContext.messages.items), pending, script, turn)
    ensures newMessages.items == old(newMessages.items) + MessagesOf(turn)
  {
    hide ReduceAll, Respond, BatchFor, ToolEventsOf, Brackets;
    turn := TurnOf(sequentialMode, currentContext.Value(), pending, script);
    ghost var before, start := sink.trace, if firstTurn then [] else [TurnStart];
    ghost var opening, first := Brackets(pending) + turn.responseEvents, newMessages.items;
    message := OpenTurn(firstTurn, pending, currentContext.messages, newMessages, script, sink);
    var toolResults;
    if message.Failed() {
      toolResults, hasMoreToolCalls := [], false;
      assert AsMessages([]) == [];
    } else {
      toolResults, hasMoreToolCalls := RunToolPhase(
        message, currentContext.messages, newMessages, sequentialMode, currentContext.tools, script, sink);
    }
    sink.Process(TurnEnd(message, toolResults));
    Regroup(before, start, opening, turn.toolEvents, [TurnEnd(message, toolResults)]);
    RegroupMessages(first, pending + [Assistant(message)], AsMessages(toolResults));
  }

  lemma Regroup(a: seq<Event>, s: seq<Event>, b: seq<Event>, c: seq<Event>, d: seq<Event>)
    ensures a + (s + b) + c + d == a + (s + (b + c + d))
    ensures a + (s + b) + [] + d == a + (s + b) + d
  {
  }

  lemma RegroupMessages(a: seq<Message>, b: seq<Message>, c: seq<Message>)
    ensures a + b + c == a + (b + c)
    ensures b + [] == b
  {
  }

  lemma PlayNothing(sequentialMode: bool, start: LoopState, scripts: seq<TurnScript>)
    ensures scripts[..0] == [] && Play(sequentialMode, start, scripts[..0]) == Run([], [], start)
    ensures LoopTrace([]) == []
  {
  }

  lemma PlayLength(sequentialMode: bool, start: LoopState, scripts: seq<TurnScript>, k: nat)
    requires k <= |scripts|
    ensures var run := Play(sequentialMode, start, scripts[..k]); run.state.exit.None? ==> |run.turns| == k
  {
  }

  /** What a turn and the steering poll leave, in the terms the method works with. */
  lemma UpToSteeringState(sequentialMode: bool, s: LoopState, script: TurnScript)
    ensures var step := UpToSteering(sequentialMode, s, script);
            var turn := TurnOf(sequentialMode, s.context, s.pending, script);
            var grown := Context(Grown(s.context.messages, s.pending, script, turn), s.context.tools);
            var queues := ApplyAll(s.queues, script.ops);
            && step.turn == turn
            && step.state.newMessages == s.newMessages + MessagesOf(turn)
            && step.state.exit == (if turn.response.Failed() then Some(ResponseFailed)
                                   else if script.shouldStop then Some(StoppedByHook) else None)
            && step.state.context == (if turn.response.Failed() then grown else Or(script.nextContext, grown))
            && (step.state.exit.Some? ==> step.state.pending == [] && step.state.queues == queues)
            && (step.state.exit.None? ==>
                  && step.state.pending == Drained(queues.steering)
                  && step.state.queues == queues.(steering := Rest(queues.steering)))
  {
    hide TurnOf, Grown, MessagesOf;
  }

  lemma {:induction false} PlayStops(sequentialMode: bool, start: LoopState, scripts: seq<TurnScript>, k: nat)
    requires k <= |scripts| && Play(sequentialMode, start, scripts[..k]).state.exit.Some?
    ensures Play(sequentialMode, start, scripts) == Play(sequentialMode, start, scripts[..k])
  {
    hide PlayTurn;
    if k == |scripts| {
      assert scripts[..k] == scripts;
    } else {
      var n := |scripts| - 1;
      assert scripts[..n][..k] == scripts[..k];
      PlayStops(sequentialMode, start, scripts[..n], k);
    }
  }

  /** Everything the loop's heap holds agrees with a state of the flat run. */
  ghost predicate Agrees(s: LoopState, context: AgentContext, newMessages: MessageList, config: LoopConfig)
    reads context.messages, newMessages, config.steering, config.followUp
  {
    && context.Value() == s.context
    && newMessages.items == s.newMessages
    && config.Queued() == s.queues
  }

  ghost predicate Apart(context: AgentContext, newMessages: MessageList, config: LoopConfig, sink: AgentState)
    reads sink
  {
    && context.messages != newMessages && context.messages != sink.messages && newMessages != sink.messages
    && config.steering != config.followUp
  }

  /**
   After a turn: queue calls that came in meanwhile, the prepareNextTurn and shouldStopAfterTurn hooks, and the
   steering poll. `stopped` says that the run ends before the poll.
   */
  method BetweenTurns(
      message: AssistantMessage, currentContext: AgentContext, config: LoopConfig, script: TurnScript)
    returns (nextContext: AgentContext, stopped: bool, pendingMessages: seq<Message>)
    requires !message.Failed() && config.steering != config.followUp && !config.skipInitialSteeringPoll
    modifies config, config.steering, config.followUp
    ensures !config.skipInitialSteeringPoll && stopped == script.shouldStop
    ensures nextContext == currentContext || fresh(nextContext.messages)
    ensures script.nextContext.None? ==> nextContext == currentContext
    ensures nextContext.Value() == Or(script.nextContext, currentContext.Value())
    ensures var queues := ApplyAll(old(config.Queued()), script.ops);
            if stopped then pendingMessages == [] && config.Queued() == queues
            else pendingMessages == Drained(queues.steering)
                 && config.Queued() == queues.(steering := Rest(queues.steering))
  {
    PerformOps(script.ops, config.steering, config.followUp);
    nextContext := currentContext;
    if script.nextContext.Some? {
      var messages := new MessageList(script.nextContext.value.messages);
      nextContext := new AgentContext(messages, script.nextContext.value.tools);
    }
    stopped := script.shouldStop;
    pendingMessages := [];
    if !stopped {
      pendingMessages := config.GetSteeringMessages();
    }
  }

  /**
   The body of the inner loop: a turn, then what happens before the next one. `ended` says that the run is over
   and agent_end has been emitted.
   */
  method TurnAndPoll(
      firstTurn: bool, pending: seq<Message>, currentContext: AgentContext, newMessages: MessageList,
      config: LoopConfig, script: TurnScript, sink: AgentState, ghost s: LoopState)
    returns (nextContext: AgentContext, ended: bool, hasMoreToolCalls: bool, pendingMessages: seq<Message>)
    requires sink.Valid() && Apart(currentContext, newMessages, config, sink)
    requires Agrees(s, currentContext, newMessages, config) && s.pending == pending
    requires !config.skipInitialSteeringPoll
    modifies currentContext.messages, newMessages, sink, sink.messages, config, config.steering, config.followUp
    ensures sink.Valid() && sink.messages == old(sink.messages) && sink.base == old(sink.base)
    ensures !config.skipInitialSteeringPoll
    ensures nextContext == currentContext || fresh(nextContext.messages)
    ensures script.nextContext.None? ==> nextContext == currentContext
    ensures var step := UpToSteering(config.sequentialMode, s, script);
            && Agrees(step.state, nextContext, newMessages, config)
            && ended == step.state.exit.Some?
            && hasMoreToolCalls == step.turn.more && pendingMessages == step.state.pending
            && sink.trace == old(sink.trace)
               + (((if firstTurn then [] else [TurnStart]) + TurnEvents(step.turn)) + Ending(step.state))
  {
    hide ReduceAll, TurnOf, TurnEvents, UpToSteering, MessagesOf, Grown;
    ghost var before := sink.trace;
    UpToSteeringState(config.sequentialMode, s, script);
    var message;
    ghost var turn;
    message, hasMoreToolCalls, turn := RunTurn(
      firstTurn, pending, currentContext, newMessages, config.sequentialMode, script, sink);
    ghost var events := (if firstTurn then [] else [TurnStart]) + TurnEvents(turn);
    if message.Failed() {
      PerformOps(script.ops, config.steering, config.followUp);
      nextContext, ended, pendingMessages := currentContext, true, [];
    } else {
      nextContext, ended, pendingMessages := BetweenTurns(message, currentContext, config, script);
    }
    if ended {
      Associate(before, events, [AgentEnd(newMessages.items)]);
      sink.Process(AgentEnd(newMessages.items));
    } else {
      assert events + [] == events;
    }
  }

  /** How the inner loop is left: scripts used up, run over, or nothing more to do without a follow-up. */
  datatype Leave = Unobserved | Over | Idle

  /** The heap is that of the flat run after `k` turns, and another turn is due. */
  ghost predicate Ready(
      run: Run, pending: seq<Message>, context: AgentContext, newMessages: MessageList, config: LoopConfig)
    reads context.messages, newMessages, config.steering, config.followUp
  {
    run.state.exit.None? && run.state.pending == pending && Agrees(run.state, context, newMessages, config)
  }

  /** The heap is that of a turn with its steering poll, which found nothing to go on with. */
  ghost predicate Pausing(step: Step, context: AgentContext, newMessages: MessageList, config: LoopConfig)
    reads context.messages, newMessages, config.steering, config.followUp
  {
    step.state.exit.None? && !GoesOn(step) && Agrees(step.state, context, newMessages, config)
  }

  /** The run has been observed this far: the heap and the emitted events are those of the flat run. */
  ghost predicate Observed(
      run: Run, context: AgentContext, newMessages: MessageList, config: LoopConfig, sink: AgentState,
      before: seq<Event>)
    reads context.messages, newMessages, config.steering, config.followUp, sink
  {
    && Agrees(run.state, context, newMessages, config)
    && sink.trace == before + (LoopTrace(run.turns) + Ending(run.state))
  }

  /** The context in use: the initial one until a hook replaces it. */
  ghost predicate InUse(context: AgentContext, initial: AgentContext, scripts: seq<TurnScript>, k: nat)
    requires k <= |scripts|
  {
    (forall i :: 0 <= i < k ==> scripts[i].nextContext.None?) ==> context == initial
  }

  /** What a turn adds to a trace, with the end of the run if it is the last. */
  lemma TraceOfTurn(before: seq<Event>, turns: seq<Turn>, turn: Turn, ending: seq<Event>)
    ensures var events := (if turns == [] then [] else [TurnStart]) + TurnEvents(turn);
            var after := before + LoopTrace(turns) + (events + ending);
            && after == before + (LoopTrace(turns + [turn]) + ending)
            && (ending == [] ==> after == before + LoopTrace(turns + [turn]))
  {
    hide TurnEvents, LoopTrace;
    var opening := if turns == [] then [] else [TurnStart];
    LoopTraceNext(turns, turn);
    Associate(LoopTrace(turns), opening, TurnEvents(turn));
    Regroup3(before, LoopTrace(turns), opening + TurnEvents(turn), ending);
  }

  /** The inner loop: turns follow each other while there are tool results or pending messages. */
  method RunTurns(
      first: nat, pending: seq<Message>, initialContext: AgentContext, newMessages: MessageList,
      config: LoopConfig, scripts: seq<TurnScript>, sink: AgentState, ghost start: LoopState,
      ghost before: seq<Event>)
    returns (k: nat, leave: Leave, currentContext: AgentContext)
    requires first <= |scripts| && !config.skipInitialSteeringPoll && start.exit.None?
    requires sink.Valid() && Apart(initialContext, newMessages, config, sink)
    requires Ready(Play(config.sequentialMode, start, scripts[..first]), pending, initialContext, newMessages, config)
    requires sink.trace == before + LoopTrace(Play(config.sequentialMode, start, scripts[..first]).turns)
    modifies initialContext.messages, newMessages, sink, sink.messages, config, config.steering, config.followUp
    ensures sink.Valid() && sink.messages == old(sink.messages) && sink.base == old(sink.base)
    ensures !config.skipInitialSteeringPoll
    ensures first <= k <= |scripts| && (leave.Idle? ==> first < k)
    ensures currentContext == initialContext || fresh(currentContext.messages)
    ensures InUse(currentContext, initialContext, scripts, k)
    ensures !leave.Idle? ==>
              var run := Play(config.sequentialMode, start, scripts[..k]);
              && (if leave.Over? then run.state.exit.Some? else k == |scripts| && run.state.exit.None?)
              && Observed(run, currentContext, newMessages, config, sink, before)
    ensures leave.Idle? ==>
              var run := Play(config.sequentialMode, start, scripts[..k - 1]);
              run.state.exit.None? &&
              var step := UpToSteering(config.sequentialMode, run.state, scripts[k - 1]);
              && Pausing(step, currentContext, newMessages, config)
              && sink.trace == before + LoopTrace(run.turns + [step.turn])
  {
    hide ReduceAll, TurnEvents, LoopTrace, Play, UpToSteering, Agrees;
    ghost var mode := config.sequentialMode;
    ghost var run := Play(mode, start, scripts[..first]);
    var hasMoreToolCalls, pendingMessages, firstTurn := true, pending, first == 0;
    k, currentContext := first, initialContext;
    while hasMoreToolCalls || |pendingMessages| > 0
      invariant first <= k <= |scripts| && !config.skipInitialSteeringPoll
      invariant k == first ==> hasMoreToolCalls
      invariant sink.Valid() && sink.messages == old(sink.messages) && sink.base == old(sink.base)
      invariant currentContext == initialContext || fresh(currentContext.messages)
      invariant InUse(currentContext, initialContext, scripts, k)
      invariant firstTurn == (k == 0)
      invariant hasMoreToolCalls || |pendingMessages| > 0 ==>
                  && run == Play(mode, start, scripts[..k])
                  && Ready(run, pendingMessages, currentContext, newMessages, config)
                  && sink.trace == before + LoopTrace(run.turns)
      invariant !hasMoreToolCalls && |pendingMessages| == 0 ==>
                  && run == Play(mode, start, scripts[..k - 1]) && run.state.exit.None?
                  && var step := UpToSteering(mode, run.state, scripts[k - 1]);
                  && Pausing(step, currentContext, newMessages, config)
                  && sink.trace == before + LoopTrace(run.turns + [step.turn])
      decreases |scripts| - k
    {
      if k == |scripts| {
        leave := Unobserved;
        assert LoopTrace(run.turns) + [] == LoopTrace(run.turns);
        return;
      }
      ghost var step := UpToSteering(mode, run.state, scripts[k]);
      PlayLength(mode, start, scripts, k);
      PlayNext(mode, start, scripts, k);
      TraceOfTurn(before, run.turns, step.turn, Ending(step.state));
      var ended;
      currentContext, ended, hasMoreToolCalls, pendingMessages := TurnAndPoll(
        firstTurn, pendingMessages, currentContext, newMessages, config, scripts[k], sink, run.state);
      firstTurn := false;
      k := k + 1;
      if ended {
        leave := Over;
        return;
      }
      if hasMoreToolCalls || |pendingMessages| > 0 {
        run := Play(mode, start, scripts[..k]);
      }
    }
    leave := Idle;
  }

  /** The loop would stop here: poll the follow-up queue, and end the run if it is empty too. */
  method PollFollowUpsOrEnd(
      k: nat, context: AgentContext, newMessages: MessageList, config: LoopConfig, scripts: seq<TurnScript>,
      sink: AgentState, ghost start: LoopState, ghost before: seq<Event>)
    returns (followUpMessages: seq<Message>)
    requires 0 < k <= |scripts| && start.exit.None?
    requires sink.Valid() && Apart(context, newMessages, config, sink)
    requires var run := Play(config.sequentialMode, start, scripts[..k - 1]);
             run.state.exit.None? &&
             var step := UpToSteering(config.sequentialMode, run.state, scripts[k - 1]);
             && Pausing(step, context, newMessages, config)
             && sink.trace == before + LoopTrace(run.turns + [step.turn])
    modifies config.steering, config.followUp, sink, sink.messages
    ensures sink.Valid() && sink.messages == old(sink.messages) && sink.base == old(sink.base)
    ensures var run := Play(config.sequentialMode, start, scripts[..k]);
            && Observed(run, context, newMessages, config, sink, before)
            && (followUpMessages == [] <==> run.state.exit.Some?)
            && run.state.pending == followUpMessages
  {
    hide ReduceAll, LoopTrace, Play, UpToSteering;
    ghost var earlier := Play(config.sequentialMode, start, scripts[..k - 1]);
    ghost var step := UpToSteering(config.sequentialMode, earlier.state, scripts[k - 1]);
    PlayNext(config.sequentialMode, start, scripts, k - 1);
    PerformOps(scripts[k - 1].lateOps, config.steering, config.followUp);
    followUpMessages := config.GetFollowUpMessages();
    ghost var trace := LoopTrace(earlier.turns + [step.turn]);
    if |followUpMessages| == 0 {
      Associate(before, trace, [AgentEnd(newMessages.items)]);
      sink.Process(AgentEnd(newMessages.items));
    } else {
      assert trace + [] == trace;
    }
  }

  /** The poll before the first turn: it leaves the state in which the flat run starts. */
  method EnterLoop(context: AgentContext, newMessages: MessageList, config: LoopConfig)
    returns (pendingMessages: seq<Message>)
    requires config.steering != config.followUp
    modifies config`skipInitialSteeringPoll, config.steering`messages
    ensures !config.skipInitialSteeringPoll
    ensures var start := Enter(context.Value(), newMessages.items, old(config.Queued()),
                               old(config.skipInitialSteeringPoll));
            Agrees(start, context, newMessages, config) && start.pending == pendingMessages
  {
    pendingMessages := config.GetSteeringMessages();
  }

  /** The body of the outer loop: turns until there is nothing more to do, then the follow-up poll. */
  method RunTurnsAndPoll(
      first: nat, pending: seq<Message>, initialContext: AgentContext, newMessages: MessageList, config: LoopConfig,
      scripts: seq<TurnScript>, sink: AgentState, ghost start: LoopState, ghost before: seq<Event>)
    returns (k: nat, leave: Leave, context: AgentContext, pendingMessages: seq<Message>)
    requires first <= |scripts| && !config.skipInitialSteeringPoll && start.exit.None?
    requires sink.Valid() && Apart(initialContext, newMessages, config, sink)
    requires var run := Play(config.sequentialMode, start, scripts[..first]);
             && run.state.exit.None? && run.state.pending == pending
             && Observed(run, initialContext, newMessages, config, sink, before)
    modifies initialContext.messages, newMessages, sink, sink.messages, config, config.steering, config.followUp
    ensures sink.Valid() && sink.messages == old(sink.messages) && sink.base == old(sink.base)
    ensures !config.skipInitialSteeringPoll && first <= k <= |scripts| && (leave.Idle? ==> first < k)
    ensures context == initialContext || fresh(context.messages)
    ensures InUse(context, initialContext, scripts, k)
    ensures var run := Play(config.sequentialMode, start, scripts[..k]);
            && Observed(run, context, newMessages, config, sink, before)
            && (leave.Over? <==> run.state.exit.Some?)
            && (leave.Unobserved? ==> k == |scripts|)
            && (leave.Idle? ==> run.state.pending == pendingMessages)
  {
    hide ReduceAll, LoopTrace, Play, UpToSteering, Agrees;
    ghost var run := Play(config.sequentialMode, start, scripts[..first]);
    assert LoopTrace(run.turns) + [] == LoopTrace(run.turns);
    k, leave, context := RunTurns(first, pending, initialContext, newMessages, config, scripts, sink, start, before);
    pendingMessages := [];
    if leave.Idle? {
      pendingMessages := PollFollowUpsOrEnd(k, context, newMessages, config, scripts, sink, start, before);
      if |pendingMessages| == 0 {
        leave := Over;
      }
    }
  }

  /**
   The nested loops. The run they produce is the flat run of its scripts: same turns, same polls, same events,
   same end.
   */
  method RunLoop(
      initialContext: AgentContext, newMessages: MessageList, config: LoopConfig, scripts: seq<TurnScript>,
      sink: AgentState)
    returns (ended: bool, ghost run: Run, ghost context: AgentContext)
    requires sink.Valid() && Apart(initialContext, newMessages, config, sink)
    modifies initialContext.messages, newMessages, sink, sink.messages, config, config.steering, config.followUp
    ensures sink.Valid() && sink.messages == old(sink.messages) && sink.base == old(sink.base)
    ensures run == Play(config.sequentialMode,
                        Enter(old(initialContext.Value()), old(newMessages.items), old(config.Queued()),
                              old(config.skipInitialSteeringPoll)),
                        scripts)
    ensures sink.trace == old(sink.trace) + (LoopTrace(run.turns) + Ending(run.state))
    ensures ended == run.state.exit.Some?
    ensures Agrees(run.state, context, newMessages, config)
    ensures InUse(context, initialContext, scripts, |scripts|)
    ensures context == initialContext || fresh(context.messages)
  {
    hide ReduceAll, LoopTrace, Play, UpToSteering, Agrees;
    ghost var mode, before := config.sequentialMode, sink.trace;
    ghost var start := Enter(initialContext.Value(), newMessages.items, config.Queued(),
                             config.skipInitialSteeringPoll);
    PlayNothing(mode, start, scripts);
    var currentContext := initialContext;
    var pendingMessages := EnterLoop(initialContext, newMessages, config);
    assert before == before + (LoopTrace([]) + Ending(start));
    var k, leave := 0, Idle;
    while leave.Idle?
      invariant k <= |scripts| && !config.skipInitialSteeringPoll && start.exit.None?
      invariant sink.Valid() && sink.messages == old(sink.messages) && sink.base == old(sink.base)
      invariant currentContext == initialContext || fresh(currentContext.messages)
      invariant InUse(currentContext, initialContext, scripts, k)
      invariant Observed(Play(mode, start, scripts[..k]), currentContext, newMessages, config, sink, before)
      invariant leave.Over? <==> Play(mode, start, scripts[..k]).state.exit.Some?
      invariant leave.Idle? ==> Play(mode, start, scripts[..k]).state.pending == pendingMessages
      invariant leave.Unobserved? ==> k == |scripts|
      decreases leave.Idle?, |scripts| - k
    {
      k, leave, currentContext, pendingMessages := RunTurnsAndPoll(
        k, pendingMessages, currentContext, newMessages, config, scripts, sink, start, before);
    }
    ended := leave.Over?;
    run, context := Play(mode, start, scripts[..k]), currentContext;
    if leave.Over? {
      PlayStops(mode, start, scripts, k);
    } else {
      assert scripts[..k] == scripts;
    }
  }

  lemma Regroup3(a: seq<Event>, b: seq<Event>, c: seq<Event>, d: seq<Event>)
    ensures a + b + (c + d) == a + ((b + c) + d)
    ensures d == [] ==> a + b + (c + d) == a + (b + c)
  {
  }

  method EmitOpening(prompts: seq<Message>, sink: AgentState)
    requires sink.Valid()
    modifies sink, sink.messages
    ensures sink.Valid() && sink.messages == old(sink.messages) && sink.base == old(sink.base)
    ensures sink.trace == old(sink.trace) + ([AgentStart, TurnStart] + Brackets(prompts))
  {
    hide ReduceAll;
    ghost var before := sink.trace;
    sink.Process(AgentStart);
    sink.Process(TurnStart);
    for k := 0 to |prompts|
      invariant sink.Valid() && sink.messages == old(sink.messages) && sink.base == old(sink.base)
      invariant sink.trace == before + ([AgentStart, TurnStart] + Brackets(prompts[..k]))
    {
      assert prompts[..k + 1][..k] == prompts[..k];
      Associate(before, [AgentStart, TurnStart] + Brackets(prompts[..k]), Bracket(prompts[k]));
      Associate([AgentStart, TurnStart], Brackets(prompts[..k]), Bracket(prompts[k]));
      sink.EmitBracket(prompts[k]);
    }
    assert prompts[..|prompts|] == prompts;
  }

  /** Start from new prompts. The caller's context is copied, not touched. */
  method RunAgentLoop(
      prompts: seq<Message>, context: AgentContext, config: LoopConfig, openingOps: seq<Op>,
      scripts: seq<TurnScript>, sink: AgentState)
    returns (newMessages: seq<Message>, ended: bool, ghost run: Run)
    requires sink.Valid() && config.steering != config.followUp
    modifies sink, sink.messages, config, config.steering, config.followUp
    ensures sink.Valid() && sink.messages == old(sink.messages) && sink.base == old(sink.base)
    ensures run == PlayPrompts(config.sequentialMode, old(context.Value()), prompts, old(config.Queued()),
                               openingOps, old(config.skipInitialSteeringPoll), scripts)
    ensures sink.trace == old(sink.trace) + RunTrace(prompts, run)
    ensures newMessages == run.state.newMessages && config.Queued() == run.state.queues
    ensures ended == run.state.exit.Some?
  {
    hide ReduceAll, LoopTrace, Play, Brackets;
    ghost var before := sink.trace;
    var list := new MessageList(prompts);
    var messages := new MessageList(context.messages.items + prompts);
    var currentContext := new AgentContext(messages, context.tools);
    EmitOpening(prompts, sink);
    PerformOps(openingOps, config.steering, config.followUp);
    ghost var ctx;
    ended, run, ctx := RunLoop(currentContext, list, config, scripts, sink);
    Associate(before, [AgentStart, TurnStart] + Brackets(prompts), LoopTrace(run.turns) + Ending(run.state));
    newMessages := list.items;
  }

  function ContinuationRefused(messages: seq<Message>): Option<Refusal> {
    if messages == [] then Some(NoMessages)
    else if messages[|messages| - 1].Assistant? then Some(LastIsAssistant)
    else None
  }

  /**
   Continue from the caller's context. The new context shares the caller's message array, so the run is
   appended to it; it must not be the array the sink appends to.
   */
  method RunAgentLoopContinue(
      context: AgentContext, config: LoopConfig, openingOps: seq<Op>, scripts: seq<TurnScript>, sink: AgentState)
    returns (refusal: Option<Refusal>, newMessages: seq<Message>, ended: bool, ghost run: Run)
    requires sink.Valid() && config.steering != config.followUp && context.messages != sink.messages
    modifies context.messages, sink, sink.messages, config, config.steering, config.followUp
    ensures sink.Valid() && sink.messages == old(sink.messages) && sink.base == old(sink.base)
    ensures refusal == ContinuationRefused(old(context.messages.items))
    ensures refusal == Some(NoMessages) <==> old(context.messages.items) == []
    ensures refusal == Some(LastIsAssistant) <==>
              var items := old(context.messages.items); items != [] && items[|items| - 1].Assistant?
    ensures refusal != Some(Busy)
    ensures run == PlayPrompts(config.sequentialMode, old(context.Value()), [], old(config.Queued()),
                               openingOps, old(config.skipInitialSteeringPoll), scripts)
    ensures refusal.Some? ==>
              && sink.trace == old(sink.trace) && newMessages == []
              && context.messages.items == old(context.messages.items) && config.Queued() == old(config.Queued())
    ensures refusal.None? ==>
              && sink.trace == old(sink.trace) + RunTrace([], run)
              && newMessages == run.state.newMessages && config.Queued() == run.state.queues
              && ended == run.state.exit.Some?
              && ((forall i :: 0 <= i < |scripts| ==> scripts[i].nextContext.None?)
                  ==> context.messages.items == run.state.context.messages)
  {
    hide ReduceAll, LoopTrace, Play;
    ghost var before := sink.trace;
    run := PlayPrompts(config.sequentialMode, context.Value(), [], config.Queued(), openingOps,
                       config.skipInitialSteeringPoll, scripts);
    newMessages, ended := [], false;
    refusal := ContinuationRefused(context.messages.items);
    if refusal.Some? {
      return;
    }
    assert context.messages.items + [] == context.messages.items;
    var list := new MessageList([]);
    var currentContext := new AgentContext(context.messages, context.tools);
    EmitOpening([], sink);
    PerformOps(openingOps, config.steering, config.followUp);
    ghost var ctx;
    ended, run, ctx := RunLoop(currentContext, list, config, scripts, sink);
    Associate(before, [AgentStart, TurnStart] + Brackets([]), LoopTrace(run.turns) + Ending(run.state));
    newMessages := list.items;
  }
}
