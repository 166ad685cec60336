/** The runs of the loop as steps of the agent's life: what a run does is a sequence of calls of the state machine. */
module RunSteps {
  import opened Messages
  import opened Events
  import opened Reducer
  import opened Queues
  import opened LoopSpec
  import L = Lifecycle

  /** The state after a run that began in the state `v`. */
  function AfterRun(v: View, prompts: seq<Message>, run: Run): View {
    var reduced := ReduceAll(v.(isStreaming := true, streaming := None, error := None), RunTrace(prompts, run));
    if run.state.exit.Some? then reduced.(isStreaming := false, streaming := None, pending := {}) else reduced
  }

  // ----- The steps -----

  function Emits(events: seq<Event>): seq<L.Call> {
    if events == [] then [] else Emits(events[..|events| - 1]) + [L.Emit(events[|events| - 1])]
  }

  function QueueCalls(ops: seq<Op>): seq<L.Call> {
    if ops == [] then [] else QueueCalls(ops[..|ops| - 1]) + [L.Queue(ops[|ops| - 1])]
  }

  /** The polls behind a turn, with the queue calls that come in between them. */
  function PollCalls(polls: Polls, script: TurnScript): seq<L.Call> {
    (if polls.steering.Some? then [L.PollSteering] else [])
    + if polls.followUp.Some? then QueueCalls(script.lateOps) + [L.PollFollowUps] else []
  }

  function TurnSteps(first: bool, turn: Turn, polls: Polls, script: TurnScript): seq<L.Call> {
    Emits((if first then [] else [TurnStart]) + TurnEvents(turn)) + (QueueCalls(script.ops) + PollCalls(polls, script))
  }

  function LoopSteps(turns: seq<Turn>, polls: seq<Polls>, scripts: seq<TurnScript>): seq<L.Call>
    requires |turns| == |polls| <= |scripts|
  {
    if turns == [] then []
    else
      var n := |turns| - 1;
      LoopSteps(turns[..n], polls[..n], scripts) + TurnSteps(n == 0, turns[n], polls[n], scripts[n])
  }

  function OpeningSteps(prompts: seq<Message>, openingOps: seq<Op>): seq<L.Call> {
    Emits([AgentStart, TurnStart] + Brackets(prompts)) + (QueueCalls(openingOps) + [L.PollSteering])
  }

  function EndingSteps(state: LoopState): seq<L.Call> {
    if state.exit.Some? then Emits(Ending(state)) + [L.Return, L.Proceed(false)] else []
  }

  /** All steps of a run, from its first event to its closing. */
  function RunCalls(prompts: seq<Message>, openingOps: seq<Op>, run: Run, scripts: seq<TurnScript>): seq<L.Call>
    requires |run.turns| == |run.polls| <= |scripts|
  {
    OpeningSteps(prompts, openingOps) + (LoopSteps(run.turns, run.polls, scripts) + EndingSteps(run.state))
  }

  // ----- What the steps do -----

  lemma {:induction false} EmitsReduce(a: L.AgentModel, events: seq<Event>)
    requires a.run.Some?
    ensures L.PerformCalls(a, Emits(events)) == a.(view := ReduceAll(a.view, events))
  {
    if events == [] {
    } else {
      hide Reduce;
      var n := |events| - 1;
      EmitsReduce(a, events[..n]);
      L.PerformNext(a, Emits(events[..n]), L.Emit(events[n]));
    }
  }

  lemma {:induction false} QueueCallsApply(a: L.AgentModel, ops: seq<Op>)
    ensures L.PerformCalls(a, QueueCalls(ops)) == a.(queues := ApplyAll(a.queues, ops))
  {
    if ops == [] {
    } else {
      hide Apply;
      var n := |ops| - 1;
      QueueCallsApply(a, ops[..n]);
      L.PerformNext(a, QueueCalls(ops[..n]), L.Queue(ops[n]));
    }
  }

  lemma OneCall(a: L.AgentModel, call: L.Call)
    ensures L.PerformCalls(a, [call]) == L.Perform(a, call)
  {
    hide L.Perform;
    L.PerformNone(a);
    L.PerformNext(a, [], call);
    assert [] + [call] == [call];
  }

  /** The queues behind a turn are those its polls leave. */
  lemma PollsLeave(a: L.AgentModel, sequentialMode: bool, s: LoopState, script: TurnScript)
    requires L.Executes(a) && !a.run.value.skipPoll && a.queues == ApplyAll(s.queues, script.ops)
    ensures var step := PlayTurn(sequentialMode, s, script);
            L.PerformCalls(a, PollCalls(step.polls, script)) == a.(queues := step.state.queues)
  {
    hide TurnOf, Grown, MessagesOf, ApplyAll, L.PerformCalls, Rest, Drained;
    var step := PlayTurn(sequentialMode, s, script);
    L.PerformNone(a);
    if step.polls.steering.Some? {
      var b := a.(queues := a.queues.(steering := Rest(a.queues.steering)));
      OneCall(a, L.PollSteering);
      if step.polls.followUp.Some? {
        var late := QueueCalls(script.lateOps);
        QueueCallsApply(b, script.lateOps);
        L.PerformNext(b, late, L.PollFollowUps);
        L.PerformAppend(a, [L.PollSteering], late + [L.PollFollowUps]);
      } else {
        assert [L.PollSteering] + [] == [L.PollSteering];
      }
    } else {
      assert PollCalls(step.polls, script) == [] && step.state.queues == a.queues;
    }
  }

  lemma TurnStepsPlay(a: L.AgentModel, sequentialMode: bool, s: LoopState, script: TurnScript, first: bool)
    requires L.Executes(a) && !a.run.value.skipPoll && a.queues == s.queues
    ensures var step := PlayTurn(sequentialMode, s, script);
            L.PerformCalls(a, TurnSteps(first, step.turn, step.polls, script))
            == a.(view := ReduceAll(a.view, (if first then [] else [TurnStart]) + TurnEvents(step.turn)),
                  queues := step.state.queues)
  {
    hide PlayTurn, TurnEvents, ReduceAll, ApplyAll, L.PerformCalls, PollCalls, Emits, QueueCalls;
    var step := PlayTurn(sequentialMode, s, script);
    var events := (if first then [] else [TurnStart]) + TurnEvents(step.turn);
    var emitted := a.(view := ReduceAll(a.view, events));
    EmitsReduce(a, events);
    QueueCallsApply(emitted, script.ops);
    PollsLeave(emitted.(queues := ApplyAll(a.queues, script.ops)), sequentialMode, s, script);
    L.PerformAppend(emitted, QueueCalls(script.ops), PollCalls(step.polls, script));
    L.PerformAppend(a, Emits(events), QueueCalls(script.ops) + PollCalls(step.polls, script));
  }

  lemma {:induction false} StepsPrefix(turns: seq<Turn>, polls: seq<Polls>, scripts: seq<TurnScript>, n: nat)
    requires |turns| == |polls| <= n <= |scripts|
    ensures LoopSteps(turns, polls, scripts[..n]) == LoopSteps(turns, polls, scripts)
  {
    if turns == [] {
    } else {
      StepsPrefix(turns[..|turns| - 1], polls[..|polls| - 1], scripts, n);
    }
  }

  lemma StepsNext(turns: seq<Turn>, polls: seq<Polls>, turn: Turn, p: Polls, scripts: seq<TurnScript>)
    requires |turns| == |polls| < |scripts|
    ensures LoopSteps(turns + [turn], polls + [p], scripts)
            == LoopSteps(turns, polls, scripts) + TurnSteps(turns == [], turn, p, scripts[|turns|])
  {
    assert (turns + [turn])[..|turns|] == turns && (polls + [p])[..|polls|] == polls;
  }

  lemma {:induction false} LoopStepsPlay(
      a: L.AgentModel, sequentialMode: bool, start: LoopState, scripts: seq<TurnScript>)
    requires L.Executes(a) && !a.run.value.skipPoll && a.queues == start.queues
    ensures var run := Play(sequentialMode, start, scripts);
            L.PerformCalls(a, LoopSteps(run.turns, run.polls, scripts))
            == a.(view := ReduceAll(a.view, LoopTrace(run.turns)), queues := run.state.queues)
  {
    if scripts == [] || start.exit.Some? {
    } else {
      hide PlayTurn, TurnSteps, TurnEvents, ReduceAll, LoopTrace, LoopSteps, L.PerformCalls;
      var n := |scripts| - 1;
      var earlier := Play(sequentialMode, start, scripts[..n]);
      LoopStepsPlay(a, sequentialMode, start, scripts[..n]);
      StepsPrefix(earlier.turns, earlier.polls, scripts, n);
      if earlier.state.exit.None? {
        LoopStepsNext(a, sequentialMode, earlier, scripts, n);
      }
    }
  }

  lemma LoopStepsNext(
      a: L.AgentModel, sequentialMode: bool, earlier: Run, scripts: seq<TurnScript>, n: nat)
    requires L.Executes(a) && !a.run.value.skipPoll
    requires |earlier.turns| == |earlier.polls| == n < |scripts|
    requires L.PerformCalls(a, LoopSteps(earlier.turns, earlier.polls, scripts))
             == a.(view := ReduceAll(a.view, LoopTrace(earlier.turns)), queues := earlier.state.queues)
    ensures var step := PlayTurn(sequentialMode, earlier.state, scripts[n]);
            L.PerformCalls(a, LoopSteps(earlier.turns + [step.turn], earlier.polls + [step.polls], scripts))
            == a.(view := ReduceAll(a.view, LoopTrace(earlier.turns + [step.turn])), queues := step.state.queues)
  {
    hide PlayTurn, TurnSteps, TurnEvents, ReduceAll, LoopTrace, LoopSteps, L.PerformCalls;
    var step := PlayTurn(sequentialMode, earlier.state, scripts[n]);
    var opening := if earlier.turns == [] then [] else [TurnStart];
    var b := a.(view := ReduceAll(a.view, LoopTrace(earlier.turns)), queues := earlier.state.queues);
    StepsNext(earlier.turns, earlier.polls, step.turn, step.polls, scripts);
    TurnStepsPlay(b, sequentialMode, earlier.state, scripts[n], earlier.turns == []);
    L.PerformAppend(a, LoopSteps(earlier.turns, earlier.polls, scripts),
                    TurnSteps(earlier.turns == [], step.turn, step.polls, scripts[n]));
    LoopTraceNext(earlier.turns, step.turn);
    Associate(LoopTrace(earlier.turns), opening, TurnEvents(step.turn));
    ReduceAllAppend(a.view, LoopTrace(earlier.turns), opening + TurnEvents(step.turn));
  }

  lemma OpeningStepsPlay(b: L.AgentModel, context: Context, prompts: seq<Message>, openingOps: seq<Op>)
    requires L.Executes(b)
    ensures var start := Enter(context, prompts, ApplyAll(b.queues, openingOps), b.run.value.skipPoll);
            L.PerformCalls(b, OpeningSteps(prompts, openingOps))
            == L.AgentModel(ReduceAll(b.view, [AgentStart, TurnStart] + Brackets(prompts)), start.queues,
                            Some(b.run.value.(skipPoll := false)))
  {
    hide ReduceAll, ApplyAll, Rest, Brackets, Emits, QueueCalls, L.PerformCalls;
    var events := [AgentStart, TurnStart] + Brackets(prompts);
    var emitted := b.(view := ReduceAll(b.view, events));
    EmitsReduce(b, events);
    QueueCallsApply(emitted, openingOps);
    L.PerformNext(emitted, QueueCalls(openingOps), L.PollSteering);
    L.PerformAppend(b, Emits(events), QueueCalls(openingOps) + [L.PollSteering]);
  }

  lemma EndingStepsPlay(b: L.AgentModel, state: LoopState)
    requires L.Executes(b)
    ensures L.PerformCalls(b, EndingSteps(state))
            == var reduced := b.(view := ReduceAll(b.view, Ending(state)));
               if state.exit.Some? then L.Finish(reduced) else reduced
  {
    hide ReduceAll, Emits, L.PerformCalls;
    L.PerformNone(b);
    if state.exit.Some? {
      var reduced := b.(view := ReduceAll(b.view, Ending(state)));
      EmitsReduce(b, Ending(state));
      L.PerformNext(reduced, [L.Return], L.Proceed(false));
      OneCall(reduced, L.Return);
      assert [L.Return] + [L.Proceed(false)] == [L.Return, L.Proceed(false)];
      L.PerformAppend(b, Emits(Ending(state)), [L.Return, L.Proceed(false)]);
    } else {
      ReduceNothing(b.view);
    }
  }

  lemma ReduceNothing(v: View)
    ensures ReduceAll(v, []) == v
  {
  }

  lemma ThreeParts(a: L.AgentModel, opening: seq<L.Call>, loop: seq<L.Call>, ending: seq<L.Call>)
    ensures L.PerformCalls(a, opening + (loop + ending))
            == L.PerformCalls(L.PerformCalls(L.PerformCalls(a, opening), loop), ending)
  {
    hide L.PerformCalls;
    L.PerformAppend(a, opening, loop + ending);
    L.PerformAppend(L.PerformCalls(a, opening), loop, ending);
  }

  lemma ReduceThreeParts(v: View, opening: seq<Event>, loop: seq<Event>, ending: seq<Event>)
    ensures ReduceAll(v, opening + (loop + ending)) == ReduceAll(ReduceAll(ReduceAll(v, opening), loop), ending)
  {
    hide ReduceAll;
    ReduceAllAppend(v, opening, loop + ending);
    ReduceAllAppend(ReduceAll(v, opening), loop, ending);
  }

  /** From the beginning of a run to its end, or as far as it has been observed. */
  lemma RunCallsPlay(
      b: L.AgentModel, sequentialMode: bool, context: Context, prompts: seq<Message>, openingOps: seq<Op>,
      scripts: seq<TurnScript>)
    requires L.Executes(b)
    ensures var skip := b.run.value.skipPoll;
            var run := PlayPrompts(sequentialMode, context, prompts, b.queues, openingOps, skip, scripts);
            var reduced := L.AgentModel(ReduceAll(b.view, RunTrace(prompts, run)), run.state.queues,
                                        Some(b.run.value.(skipPoll := false)));
            L.PerformCalls(b, RunCalls(prompts, openingOps, run, scripts))
            == if run.state.exit.Some? then L.Finish(reduced) else reduced
  {
    hide ReduceAll, Play, ApplyAll, LoopTrace, LoopSteps, OpeningSteps, EndingSteps, Ending, L.PerformCalls;
    var joined := Context(context.messages + prompts, context.tools);
    var start := Enter(joined, prompts, ApplyAll(b.queues, openingOps), b.run.value.skipPoll);
    var run := Play(sequentialMode, start, scripts);
    var opening := [AgentStart, TurnStart] + Brackets(prompts);
    var entered := L.AgentModel(ReduceAll(b.view, opening), start.queues, Some(b.run.value.(skipPoll := false)));
    OpeningStepsPlay(b, joined, prompts, openingOps);
    LoopStepsPlay(entered, sequentialMode, start, scripts);
    EndingStepsPlay(
      entered.(view := ReduceAll(entered.view, LoopTrace(run.turns)), queues := run.state.queues), run.state);
    ThreeParts(b, OpeningSteps(prompts, openingOps), LoopSteps(run.turns, run.polls, scripts), EndingSteps(run.state));
    ReduceThreeParts(b.view, opening, LoopTrace(run.turns), Ending(run.state));
  }

  // ----- prompt() and continue() -----

  /** What an agent has come to when a run that began at `a` has been played so far. */
  function Ran(a: L.AgentModel, prompts: seq<Message>, run: Run): L.AgentModel {
    L.AgentModel(AfterRun(a.view, prompts, run), run.state.queues,
                 if run.state.exit.Some? then None else Some(L.ActiveRun(false, false, false, L.Executing)))
  }

  /** prompt() with its run is a sequence of steps of the agent's life. */
  lemma PromptIsASequenceOfSteps(
      a: L.AgentModel, sequentialMode: bool, context: Context, prompts: seq<Message>, openingOps: seq<Op>,
      scripts: seq<TurnScript>)
    requires a.run.None?
    ensures var run := PlayPrompts(sequentialMode, context, prompts, a.queues, openingOps, false, scripts);
            L.PerformCalls(a, [L.Prompt(prompts)] + RunCalls(prompts, openingOps, run, scripts))
            == Ran(a, prompts, run)
  {
    hide ReduceAll, Play, RunCalls, RunTrace, L.PerformCalls;
    var run := PlayPrompts(sequentialMode, context, prompts, a.queues, openingOps, false, scripts);
    RunCallsPlay(L.Begin(a, false), sequentialMode, context, prompts, openingOps, scripts);
    L.PerformFirst(a, L.Prompt(prompts), RunCalls(prompts, openingOps, run, scripts));
  }

  /** The run that continue() starts when it is not refused: its prompts, and its course. */
  function ContinuedWith(a: L.AgentModel): (prompts: seq<Message>)
    requires !L.Resume(a).Refused?
  {
    if L.Resume(a).WithPrompts? then L.Resume(a).prompts else []
  }

  function PlayContinued(
      a: L.AgentModel, sequentialMode: bool, context: Context, openingOps: seq<Op>, scripts: seq<TurnScript>): Run
    requires !L.Resume(a).Refused?
  {
    var r := L.Resume(a);
    if r.WithPrompts? then
      PlayPrompts(sequentialMode, context, r.prompts, r.queues, openingOps, r.skipPoll, scripts)
    else
      PlayPrompts(sequentialMode, context, [], a.queues, openingOps, false, scripts)
  }

  /** So is continue(), unless it is refused. */
  lemma ContinueIsASequenceOfSteps(
      a: L.AgentModel, sequentialMode: bool, context: Context, openingOps: seq<Op>, scripts: seq<TurnScript>)
    requires !L.Resume(a).Refused?
    ensures var run := PlayContinued(a, sequentialMode, context, openingOps, scripts);
            && |run.turns| == |run.polls| <= |scripts|
            && L.PerformCalls(a, [L.Continue] + RunCalls(ContinuedWith(a), openingOps, run, scripts))
               == Ran(a, ContinuedWith(a), run)
  {
    hide ReduceAll, Play, RunCalls, RunTrace, L.PerformCalls;
    var run := PlayContinued(a, sequentialMode, context, openingOps, scripts);
    var r := L.Resume(a);
    var begun := if r.WithPrompts? then L.Begin(a.(queues := r.queues), r.skipPoll) else L.Begin(a, false);
    RunCallsPlay(begun, sequentialMode, context, ContinuedWith(a), openingOps, scripts);
    L.PerformFirst(a, L.Continue, RunCalls(ContinuedWith(a), openingOps, run, scripts));
  }
}
