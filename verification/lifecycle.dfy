/**
 The life of an Agent as a state machine over its public calls and the steps of the run in progress.

 Calls may come at any moment, also between two steps of a run or of its failure handler: every step reduces one event
 or less, and what listeners do while they are awaited are further calls. A run's executor may do anything: emit any
 events, poll, return, or throw.
 */
module Lifecycle {
  import opened Messages
  import opened Events
  import opened Reducer
  import opened Queues

  /** The position of an event among those of the failure handler. */
  type HandlerEvent = k: nat | k < 4

  /** What a run is about: its executor, the next event of its failure handler, or its end. */
  datatype Stage = Executing | Handling(failure: AssistantMessage, next: HandlerEvent) | Closing

  /** `skipPoll` is the steering poll still to be skipped; `wasReset` notes a reset() during the run. */
  datatype ActiveRun = ActiveRun(aborted: bool, skipPoll: bool, wasReset: bool, stage: Stage)

  datatype AgentModel = AgentModel(view: View, queues: Both, run: Option<ActiveRun>)

  /**
   - Emit: an event of the executor, or of a tool that outlives it; outside a run it is left out, and for the updates
     and ends of such tools this makes no difference (LateToolEventsChangeNothing)
   - PollSteering, PollFollowUps, Return, Throw: further steps of the executor
   - Proceed: the next step behind the executor; the failure handler reduces an event, and a listener may throw at
     it; in the end the run is closed
   */
  datatype Call =
    | Prompt(messages: seq<Message>)
    | Continue
    | Queue(op: Op)
    | ClearSteering
    | ClearFollowUps
    | Abort
    | Reset
    | Emit(event: Event)
    | PollSteering
    | PollFollowUps
    | Return
    | Throw(message: string)
    | Proceed(listenerThrows: bool)

  /** What continue() comes to: a refusal, a run on drained messages, or a run on the transcript as it is. */
  datatype Resumption =
    | Refused(reason: Refusal)
    | WithPrompts(prompts: seq<Message>, skipPoll: bool, queues: Both)
    | FromTranscript

  function Resume(a: AgentModel): Resumption {
    var messages := a.view.messages;
    if a.run.Some? then Refused(Busy)
    else if messages == [] then Refused(NoMessages)
    else if messages[|messages| - 1].Assistant? then
      var steering, followUps := Drained(a.queues.steering), Drained(a.queues.followUp);
      if steering != [] then
        WithPrompts(steering, true, a.queues.(steering := Rest(a.queues.steering)))
      else if followUps != [] then
        WithPrompts(followUps, false, a.queues.(followUp := Rest(a.queues.followUp)))
      else Refused(LastIsAssistant)
    else FromTranscript
  }

  function Begin(a: AgentModel, skipPoll: bool): AgentModel {
    a.(run := Some(ActiveRun(false, skipPoll, false, Executing)),
       view := a.view.(isStreaming := true, streaming := None, error := None))
  }

  function Finish(a: AgentModel): AgentModel {
    a.(run := None, view := a.view.(isStreaming := false, streaming := None, pending := {}))
  }

  function FailureMessage(message: string, aborted: bool): AssistantMessage {
    AssistantMessage([Text("")], if aborted then Aborted else Error, Some(message))
  }

  function FailureEvents(failure: AssistantMessage): (events: seq<Event>)
    ensures |events| == 4
  {
    [MessageStart(Assistant(failure)), MessageEnd(Assistant(failure)), TurnEnd(failure, []),
     AgentEnd([Assistant(failure)])]
  }

  predicate Executes(a: AgentModel) {
    a.run.Some? && a.run.value.stage.Executing?
  }

  function GoTo(a: AgentModel, stage: Stage): AgentModel
    requires a.run.Some?
  {
    a.(run := Some(a.run.value.(stage := stage)))
  }

  /** One step behind the executor. A throwing listener ends the handler, as its last event does. */
  function ProceedFrom(a: AgentModel, stage: Stage, listenerThrows: bool): AgentModel
    requires a.run.Some?
  {
    match stage
    case Executing => a
    case Handling(failure, next) =>
      GoTo(a.(view := Reduce(a.view, FailureEvents(failure)[next])),
           if listenerThrows || next == 3 then Closing else Handling(failure, next + 1))
    case Closing => Finish(a)
  }

  function Perform(a: AgentModel, call: Call): AgentModel {
    match call
    case Prompt(_) => if a.run.Some? then a else Begin(a, false)
    case Continue =>
      (match Resume(a)
       case Refused(_) => a
       case WithPrompts(_, skipPoll, queues) => Begin(a.(queues := queues), skipPoll)
       case FromTranscript => Begin(a, false))
    case Queue(op) => a.(queues := Apply(a.queues, op))
    case ClearSteering => a.(queues := a.queues.(steering := a.queues.steering.(messages := [])))
    case ClearFollowUps => a.(queues := a.queues.(followUp := a.queues.followUp.(messages := [])))
    case Abort => if a.run.Some? then a.(run := Some(a.run.value.(aborted := true))) else a
    case Reset =>
      AgentModel(View([], None, {}, None, false),
                 Both(a.queues.steering.(messages := []), a.queues.followUp.(messages := [])),
                 if a.run.Some? then Some(a.run.value.(wasReset := true)) else None)
    case Emit(event) => if a.run.Some? then a.(view := Reduce(a.view, event)) else a
    case PollSteering =>
      if !Executes(a) then a
      else if a.run.value.skipPoll then a.(run := Some(a.run.value.(skipPoll := false)))
      else a.(queues := a.queues.(steering := Rest(a.queues.steering)))
    case PollFollowUps =>
      if !Executes(a) then a else a.(queues := a.queues.(followUp := Rest(a.queues.followUp)))
    case Return => if Executes(a) then GoTo(a, Closing) else a
    case Throw(message) =>
      if Executes(a) then GoTo(a, Handling(FailureMessage(message, a.run.value.aborted), 0)) else a
    case Proceed(listenerThrows) =>
      if a.run.Some? then ProceedFrom(a, a.run.value.stage, listenerThrows) else a
  }

  function PerformCalls(a: AgentModel, calls: seq<Call>): AgentModel {
    if calls == [] then a
    else Perform(PerformCalls(a, calls[..|calls| - 1]), calls[|calls| - 1])
  }

  // ----- Safety over every sequence of calls -----

  /** Streaming only while a run is active, and all through it unless it was reset; idle means cleared. */
  predicate Sane(a: AgentModel) {
    && (a.view.isStreaming ==> a.run.Some?)
    && (a.run.Some? && !a.run.value.wasReset ==> a.view.isStreaming)
    && (a.run.None? ==> a.view.streaming.None? && a.view.pending == {})
  }

  /** How many runs the calls have begun, and how many they have brought to an end. */
  function Begun(a: AgentModel, calls: seq<Call>): nat {
    if calls == [] then 0
    else
      var before := PerformCalls(a, calls[..|calls| - 1]);
      Begun(a, calls[..|calls| - 1])
      + if before.run.None? && Perform(before, calls[|calls| - 1]).run.Some? then 1 else 0
  }

  function Over(a: AgentModel, calls: seq<Call>): nat {
    if calls == [] then 0
    else
      var before := PerformCalls(a, calls[..|calls| - 1]);
      Over(a, calls[..|calls| - 1])
      + if before.run.Some? && before.run.value.stage.Closing? && calls[|calls| - 1].Proceed? then 1 else 0
  }

  lemma SanityStep(a: AgentModel, call: Call)
    requires Sane(a)
    ensures Sane(Perform(a, call))
  {
    hide ReduceAll;
  }

  /** The reducer leaves an idle agent alone when a tool that has outlived its run reports progress or its end. */
  lemma LateToolEventsChangeNothing(a: AgentModel, event: Event)
    requires Sane(a) && a.run.None? && (event.ToolUpdate? || event.ToolEnd?)
    ensures Reduce(a.view, event) == a.view
  {
    if event.ToolEnd? {
      assert {} - {event.toolCallId} == {};
    }
  }

  /**
   Over every sequence of calls and steps: the agent stays sane, and at most one run is active, namely the only
   one begun and not over.
   */
  lemma {:induction false} AtMostOneRun(a: AgentModel, calls: seq<Call>)
    requires Sane(a) && a.run.None?
    ensures Sane(PerformCalls(a, calls))
    ensures Begun(a, calls) == Over(a, calls) + if PerformCalls(a, calls).run.Some? then 1 else 0
  {
    if calls == [] {
    } else {
      var n := |calls| - 1;
      AtMostOneRun(a, calls[..n]);
      SanityStep(PerformCalls(a, calls[..n]), calls[n]);
      RunsOnlyEndByTheirExecutor(PerformCalls(a, calls[..n]), calls[n]);
    }
  }

  /** Only prompt() and continue() begin a run; only its closing ends it, behind its executor's return or throw. */
  lemma RunsOnlyEndByTheirExecutor(a: AgentModel, call: Call)
    ensures var next := Perform(a, call);
            && (a.run.Some? && next.run.None? <==> a.run.Some? && a.run.value.stage.Closing? && call.Proceed?)
            && (a.run.None? && next.run.Some? ==> (call.Prompt? || call.Continue?) && Executes(next))
            && (Executes(a) && !Executes(next) ==> next.run.Some? && (call.Return? || call.Throw?))
  {
    hide ReduceAll, Reduce;
  }

  /**
   Whatever begins a run leaves the transcript and the pending calls, shows it as streaming with no message and no
   error, and lets no abort of an earlier run carry over. Only a continue() from the steering queue skips a poll.
   */
  lemma RunsStartFresh(a: AgentModel, call: Call)
    requires a.run.None? && Perform(a, call).run.Some?
    ensures var next := Perform(a, call);
            && next.view.messages == a.view.messages && next.view.pending == a.view.pending
            && next.view.streaming.None? && next.view.error.None? && next.view.isStreaming
            && !next.run.value.aborted && !next.run.value.wasReset && next.run.value.stage == Executing
            && (next.run.value.skipPoll <==>
                  && call.Continue? && a.view.messages[|a.view.messages| - 1].Assistant?
                  && a.queues.steering.messages != [])
  {
    hide Reduce;
    RunsOnlyEndByTheirExecutor(a, call);
  }

  /**
   prompt() is accepted exactly when no run is active, continue() exactly when none is active and there is
   something to continue from; a refused call changes neither the transcript nor the queues, nor anything else.
   */
  lemma RefusedCallsChangeNothing(a: AgentModel, messages: seq<Message>)
    ensures Perform(a, Prompt(messages)) == a <==> a.run.Some?
    ensures var last := a.view.messages;
            Resume(a).Refused? <==>
              || a.run.Some?
              || last == []
              || (last[|last| - 1].Assistant? && a.queues.steering.messages == a.queues.followUp.messages == [])
    ensures Resume(a).Refused? ==>
              Resume(a).reason
              == if a.run.Some? then Busy else if a.view.messages == [] then NoMessages else LastIsAssistant
    ensures Perform(a, Continue) == a <==> Resume(a).Refused?
  {
    if a.run.None? {
      assert Perform(a, Prompt(messages)).run.Some?;
    }
  }

  // ----- The end of a run, whatever calls come in between -----

  function Proceeds(calls: seq<Call>): nat {
    if calls == [] then 0
    else Proceeds(calls[..|calls| - 1]) + if calls[|calls| - 1].Proceed? then 1 else 0
  }

  function StepsLeft(run: ActiveRun): nat
    requires !run.stage.Executing?
  {
    if run.stage.Handling? then 5 - run.stage.next else 1
  }

  lemma {:induction false} PerformFirst(a: AgentModel, call: Call, calls: seq<Call>)
    ensures PerformCalls(a, [call] + calls) == PerformCalls(Perform(a, call), calls)
    ensures Proceeds([call] + calls) == (if call.Proceed? then 1 else 0) + Proceeds(calls)
  {
    hide Perform;
    if calls == [] {
      assert [call] + calls == [call] && [call][..0] == [];
    } else {
      var n := |calls| - 1;
      PerformFirst(a, call, calls[..n]);
      assert ([call] + calls)[..|[call] + calls| - 1] == [call] + calls[..n];
    }
  }

  lemma PerformNone(a: AgentModel)
    ensures PerformCalls(a, []) == a
  {
  }

  lemma PerformNext(a: AgentModel, calls: seq<Call>, call: Call)
    ensures PerformCalls(a, calls + [call]) == Perform(PerformCalls(a, calls), call)
  {
    assert (calls + [call])[..|calls|] == calls;
  }

  lemma {:induction false} PerformAppend(a: AgentModel, before: seq<Call>, calls: seq<Call>)
    ensures PerformCalls(a, before + calls) == PerformCalls(PerformCalls(a, before), calls)
  {
    hide Perform;
    if calls == [] {
      assert before + calls == before;
    } else {
      var n := |calls| - 1;
      PerformAppend(a, before, calls[..n]);
      assert (before + calls)[..|before + calls| - 1] == before + calls[..n];
    }
  }

  /** Calls that come in during a run, and steps of its executor other than its return or throw. */
  predicate AreMeanwhile(calls: seq<Call>) {
    forall k :: 0 <= k < |calls| ==> !calls[k].Return? && !calls[k].Throw? && !calls[k].Proceed?
  }

  lemma {:induction false} MeanwhileKeepsStage(a: AgentModel, calls: seq<Call>)
    requires a.run.Some? && AreMeanwhile(calls)
    ensures var after := PerformCalls(a, calls);
            after.run.Some? && after.run.value.stage == a.run.value.stage
  {
    if calls == [] {
    } else {
      hide Reduce;
      MeanwhileKeepsStage(a, calls[..|calls| - 1]);
    }
  }

  /** Behind the executor only the steps of the run itself bring its end nearer, and each does. */
  lemma StepTowardsTheEnd(a: AgentModel, call: Call)
    requires a.run.Some? && !Executes(a)
    ensures var next := Perform(a, call);
            && (next.run.Some? ==>
                  && !Executes(next)
                  && StepsLeft(next.run.value) + (if call.Proceed? then 1 else 0) <= StepsLeft(a.run.value))
            && (next.run.None? ==>
                  !next.view.isStreaming && next.view.streaming.None? && next.view.pending == {})
  {
    hide ReduceAll, Reduce;
  }

  /**
   Once its executor has returned or thrown, a run ends after at most five more steps of its own, and leaves the agent
   idle, whatever its listeners do, at which event one of them throws, and what calls come in between.
   */
  lemma {:induction false} EveryRunEndsIdle(a: AgentModel, calls: seq<Call>) returns (n: nat)
    requires a.run.Some? && !Executes(a) && Proceeds(calls) >= StepsLeft(a.run.value)
    ensures 0 < n <= |calls|
    ensures var over := PerformCalls(a, calls[..n]);
            && over.run.None? && !over.view.isStreaming && over.view.streaming.None? && over.view.pending == {}
    decreases |calls|
  {
    hide Perform;
    var call, rest := calls[0], calls[1..];
    assert calls == [call] + rest;
    PerformFirst(a, call, rest);
    StepTowardsTheEnd(a, call);
    if Perform(a, call).run.None? {
      n := 1;
      assert calls[..1] == [call] + [];
      PerformFirst(a, call, []);
    } else {
      var k := EveryRunEndsIdle(Perform(a, call), rest);
      n := k + 1;
      assert calls[..n] == [call] + rest[..k];
      PerformFirst(a, call, rest[..k]);
    }
  }

  // ----- What a failed run leaves in the transcript -----

  /** Whether a listener throws at the first event of the failure handler. */
  predicate FirstListenerThrows(calls: seq<Call>) {
    calls != [] &&
    var front, last := calls[..|calls| - 1], calls[|calls| - 1];
    if Proceeds(front) == 0 && last.Proceed? then last.listenerThrows else FirstListenerThrows(front)
  }

  predicate HasReset(calls: seq<Call>) {
    calls != [] && (calls[|calls| - 1].Reset? || HasReset(calls[..|calls| - 1]))
  }

  /** Whether reset() is called after the second event of the failure handler, which records the failure. */
  predicate ResetsLate(calls: seq<Call>) {
    calls != [] &&
    var front, last := calls[..|calls| - 1], calls[|calls| - 1];
    (last.Reset? && Proceeds(front) >= 2) || ResetsLate(front)
  }

  /** What is put into the transcript after the last reset() and not before the run has failed. */
  function Recorded(calls: seq<Call>, failure: AssistantMessage): seq<Message> {
    if calls == [] then []
    else
      var front := calls[..|calls| - 1];
      match calls[|calls| - 1]
      case Reset => []
      case Emit(MessageEnd(message)) => Recorded(front, failure) + [message]
      case Proceed(_) =>
        Recorded(front, failure)
        + if Proceeds(front) == 1 && !FirstListenerThrows(front) then [Assistant(failure)] else []
      case _ => Recorded(front, failure)
  }

  /** How far the failure handler is after some calls, as long as the run is active. */
  predicate InHandler(stage: Stage, calls: seq<Call>, failure: AssistantMessage) {
    var p := Proceeds(calls);
    || (p < 4 && stage == Handling(failure, p) && (p == 1 ==> !FirstListenerThrows(calls)))
    || (p > 0 && stage == Closing && (p == 1 ==> FirstListenerThrows(calls)))
  }

  lemma HandlerStep(a: AgentModel, calls: seq<Call>, call: Call, failure: AssistantMessage)
    requires a.run.Some? && InHandler(a.run.value.stage, calls, failure)
    ensures var next := Perform(a, call);
            && (next.run.Some? ==> InHandler(next.run.value.stage, calls + [call], failure))
            && (next.run.None? ==> Proceeds(calls + [call]) >= 2)
  {
    hide Reduce, FailureEvents, Apply;
    assert (calls + [call])[..|calls|] == calls;
  }

  lemma ReduceRecords(v: View, e: Event)
    ensures Reduce(v, e).messages == v.messages + if e.MessageEnd? then [e.message] else []
  {
  }

  /** What one call or step puts into the transcript. */
  lemma PerformRecords(a: AgentModel, call: Call)
    ensures !call.Reset? ==>
              Perform(a, call).view.messages
              == a.view.messages
                 + if a.run.None? then []
                   else match call
                        case Emit(MessageEnd(message)) => [message]
                        case Proceed(_) =>
                          if a.run.value.stage.Handling? && a.run.value.stage.next == 1
                          then [Assistant(a.run.value.stage.failure)] else []
                        case _ => []
    ensures call.Reset? ==> Perform(a, call).view.messages == []
  {
    hide Reduce;
    if call.Emit? {
      ReduceRecords(a.view, call.event);
    } else if call.Proceed? && a.run.Some? && a.run.value.stage.Handling? {
      ReduceRecords(a.view, FailureEvents(a.run.value.stage.failure)[a.run.value.stage.next]);
    }
  }

  lemma HandlerRecords(
      a: AgentModel, calls: seq<Call>, call: Call, failure: AssistantMessage, before: seq<Message>)
    requires a.run.Some? && InHandler(a.run.value.stage, calls, failure)
    requires a.view.messages == (if HasReset(calls) then [] else before) + Recorded(calls, failure)
    ensures Perform(a, call).view.messages
            == (if HasReset(calls + [call]) then [] else before) + Recorded(calls + [call], failure)
  {
    hide Perform;
    assert (calls + [call])[..|calls|] == calls;
    PerformRecords(a, call);
  }

  /**
   What a failed run leaves, whatever calls come in between: what was there, unless it was reset, and what has been
   recorded since.
   */
  lemma {:induction false} FailureTranscript(a: AgentModel, calls: seq<Call>, failure: AssistantMessage)
    requires a.run.Some? && a.run.value.stage == Handling(failure, 0)
    requires forall k :: 0 <= k < |calls| ==> PerformCalls(a, calls[..k]).run.Some?
    ensures var after := PerformCalls(a, calls);
            && after.view.messages
               == (if HasReset(calls) then [] else a.view.messages) + Recorded(calls, failure)
            && (after.run.Some? ==> InHandler(after.run.value.stage, calls, failure))
            && (after.run.None? ==> Proceeds(calls) >= 2)
  {
    if calls == [] {
    } else {
      hide Perform, InHandler, Recorded, HasReset;
      var n := |calls| - 1;
      var front := calls[..n];
      forall k | 0 <= k < n ensures PerformCalls(a, front[..k]).run.Some? {
        assert front[..k] == calls[..k];
      }
      FailureTranscript(a, front, failure);
      assert front + [calls[n]] == calls;
      HandlerStep(PerformCalls(a, front), front, calls[n], failure);
      HandlerRecords(PerformCalls(a, front), front, calls[n], failure, a.view.messages);
    }
  }

  /** Tools that outlive the executor emit no messages. */
  predicate OnlyToolsEmit(calls: seq<Call>) {
    forall k :: 0 <= k < |calls| ==> (calls[k].Emit? ==> calls[k].event.ToolUpdate? || calls[k].event.ToolEnd?)
  }

  lemma {:induction false} RecordedIsTheFailure(calls: seq<Call>, failure: AssistantMessage)
    requires OnlyToolsEmit(calls)
    ensures ResetsLate(calls) ==> HasReset(calls) && Proceeds(calls) >= 2
    ensures Recorded(calls, failure)
            == if Proceeds(calls) >= 2 && !FirstListenerThrows(calls) && !ResetsLate(calls)
               then [Assistant(failure)] else []
  {
    if calls == [] {
    } else {
      RecordedIsTheFailure(calls[..|calls| - 1], failure);
    }
  }

  /**
   A run that fails and ends has appended exactly one error or aborted assistant message, if and only if no listener
   throws at the first event of its failure handler, nobody resets the agent once the message is recorded, and nobody
   resets it before, unless the transcript was empty anyway.
   */
  lemma FailureAppendsOneMessage(a: AgentModel, message: string, calls: seq<Call>)
    requires Executes(a) && OnlyToolsEmit(calls)
    requires var thrown := Perform(a, Throw(message));
             && (forall k :: 0 <= k < |calls| ==> PerformCalls(thrown, calls[..k]).run.Some?)
             && PerformCalls(thrown, calls).run.None?
    ensures var failure := FailureMessage(message, a.run.value.aborted);
            && failure.stopReason == (if a.run.value.aborted then Aborted else Error)
            && failure.errorMessage == Some(message)
            && (PerformCalls(Perform(a, Throw(message)), calls).view.messages
                == a.view.messages + [Assistant(failure)]
                <==> && !FirstListenerThrows(calls) && !ResetsLate(calls)
                     && (HasReset(calls) ==> a.view.messages == []))
  {
    hide PerformCalls, FirstListenerThrows, ResetsLate, HasReset, Recorded, Proceeds;
    var failure := FailureMessage(message, a.run.value.aborted);
    FailureTranscript(Perform(a, Throw(message)), calls, failure);
    RecordedIsTheFailure(calls, failure);
    assert |a.view.messages + [Assistant(failure)]| == |a.view.messages| + 1;
    assert a.view.messages == [] ==> a.view.messages + [Assistant(failure)] == [] + [Assistant(failure)];
  }

  /** What an abort leaves behind in a run, whatever else happens before its executor returns or throws. */
  lemma {:induction false} AbortIsKept(a: AgentModel, calls: seq<Call>)
    requires Executes(a) && AreMeanwhile(calls)
    ensures var after := PerformCalls(a, calls);
            && Executes(after)
            && (after.run.value.aborted <==> a.run.value.aborted || Abort in calls)
  {
    if calls == [] {
    } else {
      hide Reduce;
      var n := |calls| - 1;
      assert calls == calls[..n] + [calls[n]];
      AbortIsKept(a, calls[..n]);
    }
  }

  /**
   A run whose executor throws hands its failure handler an empty assistant message with what was thrown, marked as
   aborted exactly if abort() has been called since the run began, and as an error otherwise.
   */
  lemma ThrownRunTellsWhy(a: AgentModel, begin: Call, calls: seq<Call>, message: string)
    requires a.run.None? && Perform(a, begin).run.Some? && AreMeanwhile(calls)
    ensures var thrown := Perform(PerformCalls(Perform(a, begin), calls), Throw(message));
            && thrown.run.Some?
            && thrown.run.value.stage
               == Handling(AssistantMessage([Text("")], if Abort in calls then Aborted else Error, Some(message)), 0)
  {
    RunsOnlyEndByTheirExecutor(a, begin);
    AbortIsKept(Perform(a, begin), calls);
  }

  /** The handler reports the failure as a message of its own, as a turn without results, and as the run's messages. */
  lemma FailureIsReported(v: View, failure: AssistantMessage)
    ensures var events := FailureEvents(failure);
            && events[2] == TurnEnd(failure, []) && events[3] == AgentEnd([Assistant(failure)])
            && ReduceAll(v, events)
               == View(v.messages + [Assistant(failure)], None, v.pending,
                       if failure.errorMessage.None? || failure.errorMessage.value == "" then v.error
                       else failure.errorMessage,
                       v.isStreaming)
  {
    var events := FailureEvents(failure);
    ReduceAppend(v, [], events[0]);
    ReduceAppend(v, [] + [events[0]], events[1]);
    ReduceAppend(v, [] + [events[0]] + [events[1]], events[2]);
    ReduceAppend(v, [] + [events[0]] + [events[1]] + [events[2]], events[3]);
    assert [] + [events[0]] + [events[1]] + [events[2]] + [events[3]] == events;
  }

  /** reset() empties the transcript, the run's state and both queues; the modes and the active run stay. */
  lemma ResetForgets(a: AgentModel)
    ensures var after := Perform(a, Reset);
            && after.view.messages == [] && after.view.streaming.None? && after.view.pending == {}
            && after.view.error.None? && !after.view.isStreaming
            && after.queues.steering.messages == after.queues.followUp.messages == []
            && after.queues.steering.mode == a.queues.steering.mode
            && after.queues.followUp.mode == a.queues.followUp.mode
            && (after.run.Some? <==> a.run.Some?)
            && (a.run.Some? ==> after.run.value.aborted == a.run.value.aborted
                                && after.run.value.skipPoll == a.run.value.skipPoll
                                && after.run.value.stage == a.run.value.stage)
  {
  }

  // ----- Queues over every sequence of calls -----

  /** The steering messages a call hands out, to a new run or to the one in progress. */
  function SteeringOut(a: AgentModel, call: Call): seq<Message> {
    match call
    case Continue => if Resume(a).WithPrompts? && Resume(a).skipPoll then Resume(a).prompts else []
    case PollSteering => if Executes(a) && !a.run.value.skipPoll then Drained(a.queues.steering) else []
    case _ => []
  }

  function FollowUpsOut(a: AgentModel, call: Call): seq<Message> {
    match call
    case Continue => if Resume(a).WithPrompts? && !Resume(a).skipPoll then Resume(a).prompts else []
    case PollFollowUps => if Executes(a) then Drained(a.queues.followUp) else []
    case _ => []
  }

  /** The steering messages a call throws away. */
  function SteeringDropped(a: AgentModel, call: Call): seq<Message> {
    if call in {ClearSteering, Reset} then a.queues.steering.messages else []
  }

  function FollowUpsDropped(a: AgentModel, call: Call): seq<Message> {
    if call in {ClearFollowUps, Reset} then a.queues.followUp.messages else []
  }

  function SteeringIn(call: Call): seq<Message> {
    if call.Queue? && call.op.Steer? then [call.op.message] else []
  }

  function FollowUpsIn(call: Call): seq<Message> {
    if call.Queue? && call.op.FollowUp? then [call.op.message] else []
  }

  /**
   Totals over a sequence of calls: what was put into a queue, what was handed to runs, and all that has left it,
   handed out or thrown away, in the order it left.
   */
  datatype Flow = Flow(steeringIn: seq<Message>, steeringOut: seq<Message>, steeringGone: seq<Message>,
                       followUpsIn: seq<Message>, followUpsOut: seq<Message>, followUpsGone: seq<Message>)

  function FlowOf(a: AgentModel, calls: seq<Call>): Flow {
    if calls == [] then Flow([], [], [], [], [], [])
    else
      var n := |calls| - 1;
      var before, flow := PerformCalls(a, calls[..n]), FlowOf(a, calls[..n]);
      Flow(flow.steeringIn + SteeringIn(calls[n]),
           flow.steeringOut + SteeringOut(before, calls[n]),
           flow.steeringGone + SteeringOut(before, calls[n]) + SteeringDropped(before, calls[n]),
           flow.followUpsIn + FollowUpsIn(calls[n]),
           flow.followUpsOut + FollowUpsOut(before, calls[n]),
           flow.followUpsGone + FollowUpsOut(before, calls[n]) + FollowUpsDropped(before, calls[n]))
  }

  predicate Clears(call: Call) {
    call.ClearSteering? || call.ClearFollowUps? || call.Reset?
  }

  lemma CallConserves(a: AgentModel, call: Call)
    ensures var next := Perform(a, call);
            && a.queues.steering.messages + SteeringIn(call)
               == SteeringOut(a, call) + SteeringDropped(a, call) + next.queues.steering.messages
            && a.queues.followUp.messages + FollowUpsIn(call)
               == FollowUpsOut(a, call) + FollowUpsDropped(a, call) + next.queues.followUp.messages
  {
    hide ReduceAll, Reduce;
  }

  /**
   Over every sequence of calls and runs: what was put into a queue is what has left it, in order, followed by what
   is still queued. What has left it was handed to runs, or thrown away by a clear or a reset.
   */
  lemma {:induction false} CallsConserveQueues(a: AgentModel, calls: seq<Call>)
    ensures var after, flow := PerformCalls(a, calls), FlowOf(a, calls);
            && a.queues.steering.messages + flow.steeringIn == flow.steeringGone + after.queues.steering.messages
            && a.queues.followUp.messages + flow.followUpsIn == flow.followUpsGone + after.queues.followUp.messages
  {
    hide Perform, SteeringIn, SteeringOut, FollowUpsIn, FollowUpsOut, SteeringDropped, FollowUpsDropped;
    if calls == [] {
      assert a.queues.steering.messages + [] == a.queues.steering.messages;
      assert a.queues.followUp.messages + [] == a.queues.followUp.messages;
    } else {
      var n := |calls| - 1;
      var before, flow := PerformCalls(a, calls[..n]), FlowOf(a, calls[..n]);
      CallsConserveQueues(a, calls[..n]);
      CallConserves(before, calls[n]);
      var after := Perform(before, calls[n]);
      var steeringGone := SteeringOut(before, calls[n]) + SteeringDropped(before, calls[n]);
      var followUpsGone := FollowUpsOut(before, calls[n]) + FollowUpsDropped(before, calls[n]);
      Shift(a.queues.steering.messages, flow.steeringIn, flow.steeringGone, before.queues.steering.messages,
            SteeringIn(calls[n]), steeringGone, after.queues.steering.messages);
      Shift(a.queues.followUp.messages, flow.followUpsIn, flow.followUpsGone, before.queues.followUp.messages,
            FollowUpsIn(calls[n]), followUpsGone, after.queues.followUp.messages);
      assert flow.steeringGone + steeringGone == FlowOf(a, calls).steeringGone;
      assert flow.followUpsGone + followUpsGone == FlowOf(a, calls).followUpsGone;
    }
  }

  /** Barring clear and reset, everything that leaves a queue is handed to a run. */
  lemma {:induction false} OnlyClearsLoseMessages(a: AgentModel, calls: seq<Call>)
    requires forall i :: 0 <= i < |calls| ==> !Clears(calls[i])
    ensures FlowOf(a, calls).steeringGone == FlowOf(a, calls).steeringOut
    ensures FlowOf(a, calls).followUpsGone == FlowOf(a, calls).followUpsOut
  {
    if calls == [] {
    } else {
      hide Perform, SteeringIn, SteeringOut, FollowUpsIn, FollowUpsOut;
      OnlyClearsLoseMessages(a, calls[..|calls| - 1]);
    }
  }

  lemma Shift(
      q: seq<Message>, inn: seq<Message>, out: seq<Message>, left: seq<Message>,
      innNow: seq<Message>, outNow: seq<Message>, leftNow: seq<Message>)
    requires q + inn == out + left && left + innNow == outNow + leftNow
    ensures q + (inn + innNow) == (out + outNow) + leftNow
  {
    assert q + (inn + innNow) == (q + inn) + innNow;
    assert (out + left) + innNow == out + (left + innNow);
    assert out + (outNow + leftNow) == (out + outNow) + leftNow;
  }
}
