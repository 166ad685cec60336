/**
 What turns come to, with the source's own conditions written out: stop reasons, tool modes, terminate flags, hooks and
 replaced contexts.
 */
module TurnOutcomes {
  import opened Messages
  import opened Events
  import opened Streaming
  import opened ToolCalls
  import opened SequentialBatch
  import opened ParallelBatch
  import opened ParallelTrace
  import opened LoopSpec
  import opened LoopProperties
  import opened RunProperties
  import opened CallOutcomes

  // ----- Stop reasons -----

  lemma ReasonsDecideTurn(sequentialMode: bool, s: LoopState, script: TurnScript)
    ensures var step := PlayTurn(sequentialMode, s, script);
            var reason := step.turn.response.stopReason;
            && step.turn.response == script.final
            && (reason == Error || reason == Aborted ==>
                  step.turn.toolEvents == [] && step.turn.results == [] && step.state.exit == Some(ResponseFailed))
            && (reason == Stop || reason == Length || reason == ToolUse ==>
                  && step.state.exit != Some(ResponseFailed)
                  && (step.turn.response.Calls() != [] ==> step.turn.results != [])
                  && (step.state.exit == Some(StoppedByHook) <==> script.shouldStop))
            && (step.state.exit == Some(StoppedByHook) ==> script.shouldStop)
  {
    hide Grown, MessagesOf, Respond, ToolEventsOf, BatchFor;
    PlayTurnTurn(sequentialMode, s, script);
    TurnAnswersItsCalls(sequentialMode, s.context, s.pending, script);
  }

  /** What the stop reason of a response and the hook after it decide about the turn and its run. */
  predicate DecidedByReason(turn: Turn, script: TurnScript, isLast: bool, exit: Option<Exit>) {
    var reason := turn.response.stopReason;
    && turn.response == script.final
    && (reason == Error || reason == Aborted ==>
          isLast && exit == Some(ResponseFailed) && turn.toolEvents == [] && turn.results == [])
    && (reason == Stop || reason == Length || reason == ToolUse ==>
          && (isLast ==> exit != Some(ResponseFailed))
          && (turn.response.Calls() != [] ==> turn.results != [])
          && (script.shouldStop <==> isLast && exit == Some(StoppedByHook)))
  }

  lemma StepIsDecided(sequentialMode: bool, s: LoopState, script: TurnScript)
    ensures var step := PlayTurn(sequentialMode, s, script);
            DecidedByReason(step.turn, script, true, step.state.exit)
  {
    hide PlayTurn;
    ReasonsDecideTurn(sequentialMode, s, script);
  }

  ghost predicate AllDecided(turns: seq<Turn>, scripts: seq<TurnScript>, exit: Option<Exit>)
    requires |turns| <= |scripts|
  {
    forall i :: 0 <= i < |turns| ==> DecidedByReason(turns[i], scripts[i], i == |turns| - 1, exit)
  }

  lemma DecidedStays(turn: Turn, script: TurnScript, isLast: bool, exit: Option<Exit>)
    requires DecidedByReason(turn, script, isLast, None)
    ensures DecidedByReason(turn, script, false, exit)
  {
  }

  lemma DecidedNext(turns: seq<Turn>, scripts: seq<TurnScript>, turn: Turn, exit: Option<Exit>)
    requires |turns| < |scripts| && AllDecided(turns, scripts[..|turns|], None)
    requires DecidedByReason(turn, scripts[|turns|], true, exit)
    ensures AllDecided(turns + [turn], scripts, exit)
  {
    hide DecidedByReason;
    forall i | 0 <= i < |turns| ensures DecidedByReason(turns[i], scripts[i], false, exit) {
      assert scripts[..|turns|][i] == scripts[i];
      DecidedStays(turns[i], scripts[i], i == |turns| - 1, exit);
    }
  }

  lemma DecidedPrefix(turns: seq<Turn>, scripts: seq<TurnScript>, n: nat, exit: Option<Exit>)
    requires |turns| <= n <= |scripts| && AllDecided(turns, scripts[..n], exit)
    ensures AllDecided(turns, scripts, exit)
  {
    hide DecidedByReason;
    assert forall i :: 0 <= i < |turns| ==> scripts[..n][i] == scripts[i];
  }

  /**
   A response that ended in an error or was aborted is the last of its run: it has no tool events and no results, and
   the run ends for it. No other response ends the run in this way, and each other one that calls tools has results.
   A run ends for its hook exactly at the first other response for which the hook says so.
   */
  lemma {:induction false} StopReasonsDecide(sequentialMode: bool, start: LoopState, scripts: seq<TurnScript>)
    requires start.exit.None?
    ensures var run := Play(sequentialMode, start, scripts);
            AllDecided(run.turns, scripts, run.state.exit)
  {
    if scripts == [] {
    } else {
      hide PlayTurn, AllDecided, DecidedByReason;
      var n := |scripts| - 1;
      var earlier := Play(sequentialMode, start, scripts[..n]);
      StopReasonsDecide(sequentialMode, start, scripts[..n]);
      if earlier.state.exit.None? {
        var step := PlayTurn(sequentialMode, earlier.state, scripts[n]);
        StepIsDecided(sequentialMode, earlier.state, scripts[n]);
        DecidedNext(earlier.turns, scripts, step.turn, step.state.exit);
      } else {
        DecidedPrefix(earlier.turns, scripts, n, earlier.state.exit);
      }
    }
  }

  // ----- Tool modes -----

  /** The batch must not run concurrently: the mode says so, or the tool that one of the calls is for. */
  ghost predicate MustNotOverlap(sequentialMode: bool, tools: seq<Tool>, calls: seq<ToolCall>) {
    sequentialMode
    || exists i, k: nat :: 0 <= i < |calls| && IsFirstNamed(tools, k, calls[i].name) && tools[k].sequential
  }

  lemma OverlapExactly(sequentialMode: bool, tools: seq<Tool>, calls: seq<ToolCall>)
    ensures RunsSequentially(sequentialMode, tools, calls) <==> MustNotOverlap(sequentialMode, tools, calls)
  {
    forall i | 0 <= i < |calls|
      ensures NeedsSequential(tools, calls[i])
              <==> exists k: nat :: IsFirstNamed(tools, k, calls[i].name) && tools[k].sequential
    {
      FindsTheFirst(tools, calls[i].name);
    }
  }

  /** The calls of such a batch never overlap: at every point of the turn's tool phase at most one is running. */
  lemma SequentialToolsNeverOverlap(
      sequentialMode: bool, tools: seq<Tool>, script: TurnScript, turns: nat, n: nat)
    requires MustNotOverlap(sequentialMode, tools, script.final.Calls())
    requires n <= |ToolPhaseOf(sequentialMode, tools, script).events|
    ensures var at := Watch(InTurn(turns, false, {}), ToolPhaseOf(sequentialMode, tools, script).events[..n]);
            at.InTurn? && |at.running| <= 1
  {
    hide Watch, BatchFor, SequentialEvents, ParallelEvents;
    OverlapExactly(sequentialMode, tools, script.final.Calls());
    var events := ToolPhaseOf(sequentialMode, tools, script).events;
    if events == [] {
      assert events[..n] == [];
      WatchNothing(InTurn(turns, false, {}));
    } else {
      SequentialCallsNeverOverlap(
        turns, tools, ReachedCalls(sequentialMode, tools, script), script.calls, n);
    }
  }

  /** Every other batch runs concurrently: all starts, updates and ends come before the first result message. */
  lemma ConcurrentToolsEndBeforeResults(sequentialMode: bool, tools: seq<Tool>, script: TurnScript)
    returns (split: nat)
    requires !MustNotOverlap(sequentialMode, tools, script.final.Calls())
    ensures var events := ToolPhaseOf(sequentialMode, tools, script).events;
            && split <= |events|
            && (forall i :: 0 <= i < split ==> events[i].ToolStart? || events[i].ToolUpdate? || events[i].ToolEnd?)
            && (forall i :: split <= i < |events| ==> events[i].MessageStart? || events[i].MessageEnd?)
  {
    hide BatchFor, SequentialEvents, ParallelEvents;
    OverlapExactly(sequentialMode, tools, script.final.Calls());
    split := 0;
    if ToolPhaseOf(sequentialMode, tools, script).events != [] {
      split := StartsInOrderResultsLast(
        tools, ReachedCalls(sequentialMode, tools, script), script.calls, script.schedule);
    }
  }

  // ----- Results and terminate flags -----

  /** The results of a turn are the outcomes of its reached calls, field by field, in call order. */
  lemma ResultsAreOutcomes(sequentialMode: bool, tools: seq<Tool>, script: TurnScript, i: nat)
    requires !script.final.Failed() && i < |ReachedCalls(sequentialMode, tools, script)|
    ensures var phase := ToolPhaseOf(sequentialMode, tools, script);
            var call := ReachedCalls(sequentialMode, tools, script)[i];
            var f := OutcomeOf(tools, call, script.calls(i));
            && |phase.results| == |ReachedCalls(sequentialMode, tools, script)|
            && phase.results[i]
               == ToolResultMessage(call.id, call.name, f.output.content, f.output.details, f.isError)
            && f.End() == ToolEnd(call.id, call.name, f.output, f.isError)
  {
    hide OutcomeOf, ToolEventsOf, ReachedCalls;
    ReachesAPrefix(sequentialMode, tools, script);
  }

  /**
   Whether a response asks for another turn: exactly if it reaches some call whose answer, after its hook, does not ask
   to terminate.
   */
  lemma TurnGoesOnExactly(sequentialMode: bool, tools: seq<Tool>, script: TurnScript)
    requires !script.final.Failed()
    ensures var calls := ReachedCalls(sequentialMode, tools, script);
            ToolPhaseOf(sequentialMode, tools, script).more
            <==> exists i :: 0 <= i < |calls|
                             && OutcomeOf(tools, calls[i], script.calls(i)).output.terminate != Some(true)
  {
    hide OutcomeOf, ToolEventsOf, ReachedCalls;
    ReachesAPrefix(sequentialMode, tools, script);
    var calls := ReachedCalls(sequentialMode, tools, script);
    var outcomes := Outcomes(tools, calls, script.calls);
    if exists i :: 0 <= i < |calls| && OutcomeOf(tools, calls[i], script.calls(i)).output.terminate != Some(true) {
      var i :| 0 <= i < |calls| && OutcomeOf(tools, calls[i], script.calls(i)).output.terminate != Some(true);
      assert outcomes[i].output.terminate != Some(true);
    } else {
      assert forall i :: 0 <= i < |calls| ==> outcomes[i].output.terminate == Some(true);
    }
  }

  // ----- Replaced contexts -----

  /** The context after some turns: it grows by their messages, and a hook may put another one in its place. */
  function ContextAfter(context: Context, turns: seq<Turn>, scripts: seq<TurnScript>): Context
    requires |turns| <= |scripts|
  {
    if turns == [] then context
    else
      var n := |turns| - 1;
      var before := ContextAfter(context, turns[..n], scripts);
      var reason := turns[n].response.stopReason;
      if scripts[n].nextContext.Some? && reason != Error && reason != Aborted then scripts[n].nextContext.value
      else Context(before.messages + MessagesOf(turns[n]), before.tools)
  }

  lemma {:induction false} ContextAfterPrefix(context: Context, turns: seq<Turn>, scripts: seq<TurnScript>, n: nat)
    requires |turns| <= n <= |scripts|
    ensures ContextAfter(context, turns, scripts[..n]) == ContextAfter(context, turns, scripts)
  {
    if turns == [] {
    } else {
      ContextAfterPrefix(context, turns[..|turns| - 1], scripts, n);
    }
  }

  lemma ContextOfTurn(sequentialMode: bool, s: LoopState, script: TurnScript)
    requires Protocol(script.stream)
    ensures var step := PlayTurn(sequentialMode, s, script);
            var reason := step.turn.response.stopReason;
            step.state.context
            == if script.nextContext.Some? && reason != Error && reason != Aborted then script.nextContext.value
               else Context(s.context.messages + MessagesOf(step.turn), s.context.tools)
  {
    hide ToolPhaseOf, Respond;
    var turn := TurnOf(sequentialMode, s.context, s.pending, script);
    StreamingIsAtomicAppend(s.context.messages + s.pending, script.stream, script.final);
    JoinMessages(s.context.messages, s.pending, [Assistant(script.final)]);
    JoinMessages(s.context.messages, s.pending + [Assistant(script.final)], AsMessages(turn.results));
  }

  /** Under the protocol, that is the context of every run, whatever contexts its hooks put in place. */
  lemma {:induction false} ContextIsTheReplacedOneGrown(
      sequentialMode: bool, start: LoopState, scripts: seq<TurnScript>)
    requires forall i :: 0 <= i < |scripts| ==> Protocol(scripts[i].stream)
    ensures var run := Play(sequentialMode, start, scripts);
            run.state.context == ContextAfter(start.context, run.turns, scripts)
  {
    if scripts == [] || start.exit.Some? {
    } else {
      hide PlayTurn, MessagesOf, Protocol;
      var n := |scripts| - 1;
      var earlier := Play(sequentialMode, start, scripts[..n]);
      ContextIsTheReplacedOneGrown(sequentialMode, start, scripts[..n]);
      ContextAfterPrefix(start.context, earlier.turns, scripts, n);
      if earlier.state.exit.None? {
        var turn := PlayTurn(sequentialMode, earlier.state, scripts[n]).turn;
        ContextOfTurn(sequentialMode, earlier.state, scripts[n]);
        assert (earlier.turns + [turn])[..n] == earlier.turns;
      }
    }
  }
}
