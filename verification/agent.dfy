/** The Agent: transcript, queues and one run at a time around the agent loop. */
module Agents {
  import opened Messages
  import opened Reducer
  import opened ToolCalls
  import opened Queues
  import opened LoopSpec
  import opened LoopProperties
  import opened AgentLoop
  import opened RunSteps
  import L = Lifecycle

  /** What the listeners of one event do: the calls that come in while they are awaited, and whether one throws. */
  datatype Listening = Listening(calls: seq<L.Call>, throws: bool)

  /** The first `n` steps of the failure handler, each followed by what its listeners do. */
  function HandlerCalls(listeners: nat -> Listening, n: nat): seq<L.Call> {
    if n == 0 then []
    else HandlerCalls(listeners, n - 1) + ([L.Proceed(listeners(n - 1).throws)] + listeners(n - 1).calls)
  }

  /** How many of its four events the failure handler comes to. */
  function Handled(listeners: nat -> Listening): (n: nat)
    ensures 0 < n <= 4
  {
    Reach(4, (k: nat) => listeners(k).throws)
  }

  lemma HandledIs(listeners: nat -> Listening, k: nat)
    requires 0 < k <= 4 && (forall i :: 0 <= i < k - 1 ==> !listeners(i).throws)
    requires k == 4 || listeners(k - 1).throws
    ensures Handled(listeners) == k
  {
    ReachStops(4, (i: nat) => listeners(i).throws, k);
  }

  class Agent {
    const state: AgentState
    const steeringQueue: PendingMessageQueue
    const followUpQueue: PendingMessageQueue
    const sequentialMode: bool
    var tools: seq<Tool>
    var activeRun: Option<L.ActiveRun>

    ghost predicate Valid()
      reads this, state, state.messages
    {
      state.Valid() && steeringQueue != followUpQueue
    }

    function Model(): L.AgentModel
      reads this, state, state.messages, steeringQueue, followUpQueue
    {
      L.AgentModel(state.Now(), Both(steeringQueue.Value(), followUpQueue.Value()), activeRun)
    }

    constructor (messages: seq<Message>, tools: seq<Tool>, sequentialMode: bool, steering: Mode, followUp: Mode)
      ensures Valid() && fresh(state) && fresh(state.messages) && fresh(steeringQueue) && fresh(followUpQueue)
      ensures Model() == L.AgentModel(View(messages, None, {}, None, false),
                                      Both(Queue([], steering), Queue([], followUp)), None)
      ensures this.tools == tools && this.sequentialMode == sequentialMode
    {
      this.state := new AgentState(messages);
      this.steeringQueue := new PendingMessageQueue(steering);
      this.followUpQueue := new PendingMessageQueue(followUp);
      this.tools, this.sequentialMode, this.activeRun := tools, sequentialMode, None;
    }

    method Enqueue(op: Op)
      requires Valid()
      modifies steeringQueue, followUpQueue
      ensures Valid() && Model() == L.Perform(old(Model()), L.Queue(op))
    {
      match op {
        case Steer(m) => steeringQueue.Enqueue(m);
        case FollowUp(m) => followUpQueue.Enqueue(m);
        case SetSteering(mode) => steeringQueue.mode := mode;
        case SetFollowUp(mode) => followUpQueue.mode := mode;
      }
    }

    method ClearSteeringQueue()
      requires Valid()
      modifies steeringQueue
      ensures Valid() && Model() == L.Perform(old(Model()), L.ClearSteering)
    {
      steeringQueue.Clear();
    }

    method ClearFollowUpQueue()
      requires Valid()
      modifies followUpQueue
      ensures Valid() && Model() == L.Perform(old(Model()), L.ClearFollowUps)
    {
      followUpQueue.Clear();
    }

    method HasQueuedMessages() returns (has: bool)
      ensures has <==> Model().queues.steering.messages != [] || Model().queues.followUp.messages != []
    {
      has := steeringQueue.HasItems();
      if !has {
        has := followUpQueue.HasItems();
      }
    }

    method AbortRun()
      requires Valid()
      modifies this`activeRun
      ensures Valid() && Model() == L.Perform(old(Model()), L.Abort)
    {
      if activeRun.Some? {
        activeRun := Some(activeRun.value.(aborted := true));
      }
    }

    method Reset()
      requires Valid()
      modifies this`activeRun, state, steeringQueue, followUpQueue
      ensures Valid() && Model() == L.Perform(old(Model()), L.Reset) && fresh(state.messages)
    {
      state.messages := new MessageList([]);
      state.isStreaming, state.streamingMessage, state.errorMessage := false, None, None;
      state.pendingToolCalls := {};
      state.Rebase();
      followUpQueue.Clear();
      steeringQueue.Clear();
      if activeRun.Some? {
        activeRun := Some(activeRun.value.(wasReset := true));
      }
    }

    /** The synchronous part of runWithLifecycle, before the executor is called. */
    method BeginRun(skipInitialSteeringPoll: bool)
      requires Valid() && activeRun.None?
      modifies this`activeRun, state
      ensures Valid() && Model() == L.Begin(old(Model()), skipInitialSteeringPoll)
      ensures state.messages == old(state.messages) && state.trace == [] && state.base == state.Now()
    {
      activeRun := Some(L.ActiveRun(false, skipInitialSteeringPoll, false, L.Executing));
      state.isStreaming, state.streamingMessage, state.errorMessage := true, None, None;
      state.Rebase();
    }

    method FinishRun()
      requires Valid()
      modifies this`activeRun, state
      ensures Valid() && Model() == L.Finish(old(Model())) && state.messages == old(state.messages)
    {
      state.isStreaming, state.streamingMessage := false, None;
      state.pendingToolCalls := {};
      state.Rebase();
      activeRun := None;
    }

    method EnterStage(stage: L.Stage)
      requires Valid() && activeRun.Some?
      modifies this`activeRun
      ensures Valid() && Model() == L.GoTo(old(Model()), stage)
    {
      activeRun := Some(activeRun.value.(stage := stage));
    }

    /** A step of the executor of the active run, or a call that comes in while it waits; prompts are refused. */
    method Meanwhile(call: L.Call)
      requires Valid() && activeRun.Some? && !call.Return? && !call.Throw? && !call.Proceed?
      modifies this`activeRun, state, state.messages, steeringQueue, followUpQueue
      ensures Valid() && activeRun.Some? && Model() == L.Perform(old(Model()), call)
      ensures state.messages == old(state.messages) || fresh(state.messages)
    {
      hide ReduceAll;
      match call {
        case Queue(op) => Enqueue(op);
        case ClearSteering => ClearSteeringQueue();
        case ClearFollowUps => ClearFollowUpQueue();
        case Abort => AbortRun();
        case Reset => Reset();
        case Emit(event) =>
          ReduceAppend(state.base, state.trace, event);
          state.Process(event);
        case PollSteering => PollSteeringQueue();
        case PollFollowUps => PollFollowUpQueue();
        case _ =>
      }
    }

    method PollSteeringQueue()
      requires Valid() && activeRun.Some?
      modifies this`activeRun, steeringQueue
      ensures Valid() && activeRun.Some? && Model() == L.Perform(old(Model()), L.PollSteering)
    {
      if activeRun.value.stage.Executing? {
        if activeRun.value.skipPoll {
          activeRun := Some(activeRun.value.(skipPoll := false));
        } else {
          var drained := steeringQueue.Drain();
        }
      }
    }

    method PollFollowUpQueue()
      requires Valid() && activeRun.Some?
      modifies followUpQueue
      ensures Valid() && Model() == L.Perform(old(Model()), L.PollFollowUps)
    {
      if activeRun.value.stage.Executing? {
        var drained := followUpQueue.Drain();
      }
    }

    method AllMeanwhile(calls: seq<L.Call>)
      requires Valid() && activeRun.Some? && L.AreMeanwhile(calls)
      modifies this`activeRun, state, state.messages, steeringQueue, followUpQueue
      ensures Valid() && Model() == L.PerformCalls(old(Model()), calls)
      ensures activeRun.Some? && activeRun.value.stage == old(activeRun.value.stage)
      ensures state.messages == old(state.messages) || fresh(state.messages)
    {
      hide L.Perform, ReduceAll;
      ghost var start := Model();
      for k := 0 to |calls|
        invariant Valid() && activeRun.Some? && Model() == L.PerformCalls(start, calls[..k])
        invariant state.messages == old(state.messages) || fresh(state.messages)
      {
        assert calls[..k + 1][..k] == calls[..k];
        Meanwhile(calls[k]);
      }
      assert calls[..|calls|] == calls;
      L.MeanwhileKeepsStage(start, calls);
    }

    /** One event of the failure handler, and what its listeners do before the handler goes on or gives up. */
    method HandleEvent(failure: AssistantMessage, k: L.HandlerEvent, listening: Listening)
      requires Valid() && activeRun.Some? && activeRun.value.stage == L.Handling(failure, k)
      requires L.AreMeanwhile(listening.calls)
      modifies this`activeRun, state, state.messages, steeringQueue, followUpQueue
      ensures Valid() && activeRun.Some?
      ensures Model() == L.PerformCalls(old(Model()), [L.Proceed(listening.throws)] + listening.calls)
      ensures activeRun.value.stage
              == if listening.throws || k == 3 then L.Closing else L.Handling(failure, k + 1)
      ensures state.messages == old(state.messages) || fresh(state.messages)
    {
      hide ReduceAll, L.PerformCalls;
      ghost var start := Model();
      L.PerformFirst(start, L.Proceed(listening.throws), listening.calls);
      ReduceAppend(state.base, state.trace, L.FailureEvents(failure)[k]);
      state.Process(L.FailureEvents(failure)[k]);
      EnterStage(if listening.throws || k == 3 then L.Closing else L.Handling(failure, k + 1));
      AllMeanwhile(listening.calls);
    }

    /**
     Process the failure handler's events one by one, with what the listeners of each do; a throwing listener leaves
     the rest unprocessed.
     */
    method HandleRunFailure(failure: AssistantMessage, listeners: nat -> Listening)
      requires Valid() && activeRun.Some? && activeRun.value.stage == L.Handling(failure, 0)
      requires forall k :: L.AreMeanwhile(listeners(k).calls)
      modifies this`activeRun, state, state.messages, steeringQueue, followUpQueue
      ensures Valid() && activeRun.Some? && activeRun.value.stage == L.Closing
      ensures Model() == L.PerformCalls(old(Model()), HandlerCalls(listeners, Handled(listeners)))
      ensures state.messages == old(state.messages) || fresh(state.messages)
    {
      hide ReduceAll, L.PerformCalls, L.AreMeanwhile;
      ghost var start := Model();
      var k: nat := 0;
      var thrown := false;
      L.PerformNone(start);
      while k < 4 && !thrown
        invariant k <= 4 && Valid() && activeRun.Some?
        invariant activeRun.value.stage == if thrown || k == 4 then L.Closing else L.Handling(failure, k)
        invariant forall i :: 0 <= i < k - 1 ==> !listeners(i).throws
        invariant thrown <==> k > 0 && listeners(k - 1).throws
        invariant Model() == L.PerformCalls(start, HandlerCalls(listeners, k))
        invariant state.messages == old(state.messages) || fresh(state.messages)
      {
        L.PerformAppend(start, HandlerCalls(listeners, k), [L.Proceed(listeners(k).throws)] + listeners(k).calls);
        HandleEvent(failure, k, listeners(k));
        thrown := listeners(k).throws;
        k := k + 1;
      }
      HandledIs(listeners, k);
    }

    /** The catch clause is entered: the failure is made up from what was thrown. */
    method EnterHandler(message: string) returns (failure: AssistantMessage)
      requires Valid() && activeRun.Some? && activeRun.value.stage == L.Executing
      modifies this`activeRun
      ensures Valid() && activeRun.Some? && activeRun.value.stage == L.Handling(failure, 0)
      ensures Model() == L.Perform(old(Model()), L.Throw(message))
    {
      failure := L.FailureMessage(message, activeRun.value.aborted);
      EnterStage(L.Handling(failure, 0));
    }

    /** The finally clause. */
    method CloseRun()
      requires Valid() && activeRun.Some? && activeRun.value.stage == L.Closing
      modifies this`activeRun, state
      ensures Valid() && activeRun.None? && state.messages == old(state.messages)
      ensures Model() == L.Perform(old(Model()), L.Proceed(false))
    {
      FinishRun();
    }

    /** A run that throws: what its executor does and what comes in until then, the failure handler, and the end. */
    method RunFailing(steps: seq<L.Call>, message: string, listeners: nat -> Listening)
      requires Valid() && activeRun.Some? && activeRun.value.stage == L.Executing && L.AreMeanwhile(steps)
      requires forall k :: L.AreMeanwhile(listeners(k).calls)
      modifies this`activeRun, state, state.messages, steeringQueue, followUpQueue
      ensures Valid() && activeRun.None?
      ensures Model()
              == L.PerformCalls(old(Model()), steps + [L.Throw(message)]
                                              + HandlerCalls(listeners, Handled(listeners)) + [L.Proceed(false)])
    {
      hide ReduceAll, L.PerformCalls, L.Perform, L.AreMeanwhile, HandlerCalls;
      ghost var start, handler := Model(), HandlerCalls(listeners, Handled(listeners));
      AllMeanwhile(steps);
      var failure := EnterHandler(message);
      L.PerformNext(start, steps, L.Throw(message));
      HandleRunFailure(failure, listeners);
      L.PerformAppend(start, steps + [L.Throw(message)], handler);
      CloseRun();
      L.PerformNext(start, steps + [L.Throw(message)] + handler, L.Proceed(false));
    }

    /** The loop works on a copy of the transcript, so the reducer appends to another array than the loop. */
    method CreateContextSnapshot() returns (context: AgentContext)
      requires Valid()
      ensures fresh(context.messages) && context.Value() == Context(state.messages.items, tools)
    {
      var messages := new MessageList(state.messages.items);
      context := new AgentContext(messages, tools);
    }

    /**
     After a run: the state is the reduction of the run's events, the transcript has grown by the run's messages,
     and an ended run leaves the agent idle.
     */
    ghost predicate Completed(before: View, prompts: seq<Message>, run: Run)
      reads this, state, state.messages, steeringQueue, followUpQueue
    {
      && state.Now() == AfterRun(before, prompts, run)
      && state.messages.items == before.messages + run.state.newMessages
      && Model().queues == run.state.queues
      && (if run.state.exit.Some? then
            activeRun.None? && !state.isStreaming && state.streamingMessage.None? && state.pendingToolCalls == {}
          else activeRun.Some? && state.isStreaming)
    }

    /** The end of runWithLifecycle, once the executor has returned. */
    method EndIfOver(ended: bool)
      requires Valid() && activeRun.Some?
      modifies this`activeRun, state
      ensures Valid() && state.messages == old(state.messages)
      ensures if ended then Model() == L.Finish(old(Model())) else Model() == old(Model())
    {
      if ended {
        EnterStage(L.Closing);
        CloseRun();
      }
    }

    /** Run the loop on new prompts to its end, or as far as the scripts show it. */
    method RunPromptMessages(
        messages: seq<Message>, openingOps: seq<Op>, skipInitialSteeringPoll: bool, scripts: seq<TurnScript>)
      returns (ghost run: Run)
      requires Valid() && activeRun.None?
      modifies this`activeRun, state, state.messages, steeringQueue, followUpQueue
      ensures Valid() && state.messages == old(state.messages)
      ensures run == PlayPrompts(sequentialMode, Context(old(state.messages.items), tools), messages,
                                 old(Model().queues), openingOps, skipInitialSteeringPoll, scripts)
      ensures Completed(old(state.Now()), messages, run)
    {
      hide ReduceAll, PlayPrompts, RunTrace;
      BeginRun(skipInitialSteeringPoll);
      var context := CreateContextSnapshot();
      var config := new LoopConfig(sequentialMode, steeringQueue, followUpQueue, skipInitialSteeringPoll);
      ghost var begun, queues := state.Now(), Model().queues;
      var newMessages, ended;
      newMessages, ended, run := RunAgentLoop(messages, context, config, openingOps, scripts, state);
      RunTranscript(sequentialMode, messages, Context(begun.messages, tools), queues, openingOps,
                    skipInitialSteeringPoll, scripts, begun);
      assert [] + RunTrace(messages, run) == RunTrace(messages, run);
      EndIfOver(ended);
    }

    method RunContinuation(openingOps: seq<Op>, scripts: seq<TurnScript>) returns (ghost run: Run)
      requires Valid() && activeRun.None?
      requires ContinuationRefused(state.messages.items).None?
      modifies this`activeRun, state, state.messages, steeringQueue, followUpQueue
      ensures Valid() && state.messages == old(state.messages)
      ensures run == PlayPrompts(sequentialMode, Context(old(state.messages.items), tools), [],
                                 old(Model().queues), openingOps, false, scripts)
      ensures Completed(old(state.Now()), [], run)
    {
      hide ReduceAll, PlayPrompts, RunTrace;
      BeginRun(false);
      var context := CreateContextSnapshot();
      var config := new LoopConfig(sequentialMode, steeringQueue, followUpQueue, false);
      ghost var begun, queues := state.Now(), Model().queues;
      var refusal, newMessages, ended;
      refusal, newMessages, ended, run := RunAgentLoopContinue(context, config, openingOps, scripts, state);
      RunTranscript(sequentialMode, [], Context(begun.messages, tools), queues, openingOps, false, scripts, begun);
      assert [] + RunTrace([], run) == RunTrace([], run);
      EndIfOver(ended);
    }

    /** prompt(): refused while a run is active, else one run on the given messages. */
    method Prompt(messages: seq<Message>, openingOps: seq<Op>, scripts: seq<TurnScript>)
      returns (refusal: Option<Refusal>, ghost run: Run)
      requires Valid()
      modifies this`activeRun, state, state.messages, steeringQueue, followUpQueue
      ensures Valid() && state.messages == old(state.messages)
      ensures refusal == (if old(activeRun).Some? then Some(Busy) else None)
      ensures refusal.Some? ==> Model() == old(Model())
      ensures run == PlayPrompts(sequentialMode, Context(old(state.messages.items), tools), messages,
                                 old(Model().queues), openingOps, false, scripts)
      ensures refusal.None? ==> Completed(old(state.Now()), messages, run)
      ensures refusal.None? && run.state.exit.Some? ==>
                Model() == L.PerformCalls(old(Model()), [L.Prompt(messages)]
                                                        + RunCalls(messages, openingOps, run, scripts))
    {
      hide PlayPrompts, ReduceAll, RunCalls, L.PerformCalls, AfterRun;
      run := PlayPrompts(sequentialMode, Context(state.messages.items, tools), messages, Model().queues,
                         openingOps, false, scripts);
      if activeRun.Some? {
        return Some(Busy), run;
      }
      refusal := None;
      PromptIsASequenceOfSteps(
        Model(), sequentialMode, Context(state.messages.items, tools), messages, openingOps, scripts);
      run := RunPromptMessages(messages, openingOps, false, scripts);
    }

    /**
     continue(): from the transcript if it does not end with an assistant message, else from drained messages.
     A refusal leaves everything as it was, although it has polled both queues.
     */
    method Continue(openingOps: seq<Op>, scripts: seq<TurnScript>)
      returns (refusal: Option<Refusal>, ghost run: Run)
      requires Valid()
      modifies this`activeRun, state, state.messages, steeringQueue, followUpQueue
      ensures Valid() && state.messages == old(state.messages)
      ensures refusal == (if L.Resume(old(Model())).Refused? then Some(L.Resume(old(Model())).reason) else None)
      ensures refusal.Some? ==> Model() == old(Model())
      ensures refusal.None? ==>
                && run == PlayContinued(old(Model()), sequentialMode, Context(old(state.messages.items), tools),
                                        openingOps, scripts)
                && Completed(old(state.Now()), ContinuedWith(old(Model())), run)
      ensures refusal.None? && run.state.exit.Some? ==>
                Model() == L.PerformCalls(old(Model()), [L.Continue]
                             + RunCalls(ContinuedWith(old(Model())), openingOps, run, scripts))
    {
      hide PlayPrompts, ReduceAll, RunCalls, L.PerformCalls, AfterRun;
      if !L.Resume(Model()).Refused? {
        ContinueIsASequenceOfSteps(
          Model(), sequentialMode, Context(state.messages.items, tools), openingOps, scripts);
      }
      run := Run([], [], LoopState([], Context([], []), [], Model().queues, None));
      refusal := None;
      if activeRun.Some? {
        return Some(Busy), run;
      }
      var messages := state.messages.items;
      if |messages| == 0 {
        return Some(NoMessages), run;
      }
      if messages[|messages| - 1].Assistant? {
        var queuedSteering := steeringQueue.Drain();
        if |queuedSteering| > 0 {
          run := RunPromptMessages(queuedSteering, openingOps, true, scripts);
          return;
        }
        var queuedFollowUps := followUpQueue.Drain();
        if |queuedFollowUps| > 0 {
          run := RunPromptMessages(queuedFollowUps, openingOps, false, scripts);
          return;
        }
        return Some(LastIsAssistant), run;
      }
      run := RunContinuation(openingOps, scripts);
    }
  }

  lemma RunTranscript(
      sequentialMode: bool, prompts: seq<Message>, context: Context, queues: Both, openingOps: seq<Op>, skip: bool,
      scripts: seq<TurnScript>, v: View)
    ensures var run := PlayPrompts(sequentialMode, context, prompts, queues, openingOps, skip, scripts);
            var after := ReduceAll(v, RunTrace(prompts, run));
            after.messages == v.messages + run.state.newMessages && after.isStreaming == v.isStreaming
  {
    hide Play, RunTrace, ReduceAll;
    var start := Enter(Context(context.messages + prompts, context.tools), prompts, ApplyAll(queues, openingOps), skip);
    HistoriesAgree(sequentialMode, prompts, start, scripts, v);
    TranscriptIsDelivered(v, RunTrace(prompts, Play(sequentialMode, start, scripts)));
  }
}
