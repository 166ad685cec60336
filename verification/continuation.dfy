/** What becomes of the queues when a run is started by prompt() or continue(). */
module Continuation {
  import opened Messages
  import opened Queues
  import opened LoopSpec
  import opened LoopProperties
  import opened RunProperties
  import L = Lifecycle

  /**
   A run from prompts, with the queue calls of its opening: the messages ever put into a queue are those delivered from
   it, then those drained and pending, then those still queued.
   */
  lemma RunConserves(
      sequentialMode: bool, context: Context, prompts: seq<Message>, queues: Both, openingOps: seq<Op>, skip: bool,
      scripts: seq<TurnScript>)
    ensures var run := PlayPrompts(sequentialMode, context, prompts, queues, openingOps, skip, scripts);
            var applied := openingOps + AllApplied(run.polls, scripts);
            && queues.steering.messages + Steered(applied)
               == SteeringDelivered(run.turns, run.polls)
                  + (if CameFromFollowUps(run.polls) then [] else run.state.pending)
                  + run.state.queues.steering.messages
            && queues.followUp.messages + FollowedUp(applied)
               == FollowUpsDelivered(run.turns, run.polls)
                  + (if CameFromFollowUps(run.polls) then run.state.pending else [])
                  + run.state.queues.followUp.messages
  {
    hide Play, Steered, FollowedUp, SteeringDelivered, FollowUpsDelivered, AllApplied, ApplyAll;
    var before := ApplyAll(queues, openingOps);
    var start := Context(context.messages + prompts, context.tools);
    var run := Play(sequentialMode, Enter(start, prompts, before, skip), scripts);
    var applied := AllApplied(run.polls, scripts);
    OpsAppend(queues, openingOps);
    QueuesAreConserved(sequentialMode, start, prompts, before, skip, scripts);
    SteeredAppend(openingOps, applied);
    JoinMessages(queues.steering.messages, Steered(openingOps), Steered(applied));
    JoinMessages(queues.followUp.messages, FollowedUp(openingOps), FollowedUp(applied));
  }

  /**
   A continue() on drained messages loses, doubles and reorders nothing: what was ever put into a queue is what
   continue() itself has taken from it and put into the transcript, then what the run has delivered from it, then what
   is pending, then what is still queued.
   */
  lemma ContinueConserves(
      a: L.AgentModel, sequentialMode: bool, context: Context, openingOps: seq<Op>, scripts: seq<TurnScript>)
    requires L.Resume(a).WithPrompts?
    ensures var r := L.Resume(a);
            var run := PlayPrompts(sequentialMode, context, r.prompts, r.queues, openingOps, r.skipPoll, scripts);
            var applied := openingOps + AllApplied(run.polls, scripts);
            && r.prompts <= run.state.newMessages
            && a.queues.steering.messages + Steered(applied)
               == (if r.skipPoll then r.prompts else [])
                  + (SteeringDelivered(run.turns, run.polls)
                     + (if CameFromFollowUps(run.polls) then [] else run.state.pending)
                     + run.state.queues.steering.messages)
            && a.queues.followUp.messages + FollowedUp(applied)
               == (if r.skipPoll then [] else r.prompts)
                  + (FollowUpsDelivered(run.turns, run.polls)
                     + (if CameFromFollowUps(run.polls) then run.state.pending else [])
                     + run.state.queues.followUp.messages)
  {
    hide Play, Steered, FollowedUp, SteeringDelivered, FollowUpsDelivered, AllApplied, Transcript;
    var r := L.Resume(a);
    var run := PlayPrompts(sequentialMode, context, r.prompts, r.queues, openingOps, r.skipPoll, scripts);
    var applied := openingOps + AllApplied(run.polls, scripts);
    RunConserves(sequentialMode, context, r.prompts, r.queues, openingOps, r.skipPoll, scripts);
    PromptsComeFirst(sequentialMode, context, r.prompts, r.queues, openingOps, r.skipPoll, scripts);
    ResumeTakes(a);
    hide L.Resume;
    if r.skipPoll {
      JoinMessages(r.prompts, r.queues.steering.messages, Steered(applied));
    } else {
      JoinMessages(r.prompts, r.queues.followUp.messages, FollowedUp(applied));
    }
    NothingBefore(a.queues.steering.messages + Steered(applied));
    NothingBefore(a.queues.followUp.messages + FollowedUp(applied));
  }

  lemma NothingBefore(messages: seq<Message>)
    ensures [] + messages == messages
  {
  }

  /** What continue() takes from the queues: the oldest messages of one of them. */
  lemma ResumeTakes(a: L.AgentModel)
    requires L.Resume(a).WithPrompts?
    ensures var r := L.Resume(a);
            && r.prompts != []
            && (r.skipPoll ==> a.queues.steering.messages == r.prompts + r.queues.steering.messages
                               && r.queues.followUp == a.queues.followUp)
            && (!r.skipPoll ==> a.queues.followUp.messages == r.prompts + r.queues.followUp.messages
                                && r.queues.steering == a.queues.steering)
            && (r.skipPoll && a.queues.steering.mode == OneAtATime ==> |r.prompts| == 1)
            && (!r.skipPoll && a.queues.followUp.mode == OneAtATime ==> |r.prompts| == 1)
  {
  }

  lemma PromptsComeFirst(
      sequentialMode: bool, context: Context, prompts: seq<Message>, queues: Both, openingOps: seq<Op>, skip: bool,
      scripts: seq<TurnScript>)
    ensures var run := PlayPrompts(sequentialMode, context, prompts, queues, openingOps, skip, scripts);
            run.state.newMessages == prompts + Transcript(run.turns)
  {
    hide Play, Transcript;
    LoopDelivers(sequentialMode,
                 Enter(Context(context.messages + prompts, context.tools), prompts, ApplyAll(queues, openingOps), skip),
                 scripts);
  }

  lemma {:induction false} TranscriptBegins(turns: seq<Turn>)
    requires turns != []
    ensures MessagesOf(turns[0]) <= Transcript(turns)
  {
    hide MessagesOf;
    var n := |turns| - 1;
    if n == 0 {
      assert turns[..0] == [];
    } else {
      TranscriptBegins(turns[..n]);
    }
  }

  /** The first turn injects what was pending when the loop was entered. */
  lemma {:induction false} FirstInjection(sequentialMode: bool, start: LoopState, scripts: seq<TurnScript>)
    ensures var turns := Play(sequentialMode, start, scripts).turns;
            turns != [] ==> turns[0].injected == start.pending
  {
    if scripts == [] || start.exit.Some? {
    } else {
      hide PlayTurn;
      var n := |scripts| - 1;
      FirstInjection(sequentialMode, start, scripts[..n]);
      var earlier := Play(sequentialMode, start, scripts[..n]);
      if earlier.turns == [] && earlier.state.exit.None? {
        assert n == 0 && earlier == Run([], [], start);
        PlayTurnTurn(sequentialMode, start, scripts[n]);
        InjectsPending(sequentialMode, start.context, start.pending, scripts[n]);
      }
    }
  }

  /**
   A continue() served from steering: the oldest steering messages, in one-at-a-time mode exactly one, are all that the
   run delivers before its first response, although callers may have queued more meanwhile; the first poll drains none.
   */
  lemma ContinueFromSteeringDeliversOnce(
      a: L.AgentModel, sequentialMode: bool, context: Context, openingOps: seq<Op>, scripts: seq<TurnScript>)
    requires a.run.None? && a.view.messages != [] && a.view.messages[|a.view.messages| - 1].Assistant?
    requires a.queues.steering.messages != []
    ensures L.Resume(a).WithPrompts? && L.Resume(a).skipPoll
    ensures var r, begun := L.Resume(a), L.Perform(a, L.Continue);
            && L.Executes(begun) && begun.queues == r.queues
            && a.queues.steering.messages == r.prompts + begun.queues.steering.messages
            && (a.queues.steering.mode == OneAtATime ==> |r.prompts| == 1)
            && L.Perform(begun, L.PollSteering).queues == begun.queues
            && begun.queues.followUp == a.queues.followUp
    ensures var r := L.Resume(a);
            var run := PlayPrompts(sequentialMode, context, r.prompts, r.queues, openingOps, r.skipPoll, scripts);
            run.turns != [] ==>
              && run.turns[0].injected == []
              && r.prompts + [Assistant(run.turns[0].response)] <= run.state.newMessages
  {
    hide Play, Transcript, ApplyAll;
    var r := L.Resume(a);
    ResumeTakes(a);
    var start := Enter(
      Context(context.messages + r.prompts, context.tools), r.prompts, ApplyAll(r.queues, openingOps), r.skipPoll);
    var run := Play(sequentialMode, start, scripts);
    FirstInjection(sequentialMode, start, scripts);
    PromptsComeFirst(sequentialMode, context, r.prompts, r.queues, openingOps, r.skipPoll, scripts);
    if run.turns != [] {
      TranscriptBegins(run.turns);
      ResponseComesFirst(run.turns[0]);
    }
  }

  lemma ResponseComesFirst(turn: Turn)
    requires turn.injected == []
    ensures [Assistant(turn.response)] <= MessagesOf(turn)
  {
  }
}
