/** What every run of the loop keeps, for every provider, tool, hook and caller. */
module LoopProperties {
  import opened Messages
  import opened Events
  import opened Reducer
  import opened Streaming
  import opened ToolCalls
  import opened SequentialBatch
  import opened ParallelBatch
  import opened ParallelTrace
  import opened LoopSpec

  /**
   The ids of a response's calls tell its running calls apart: they run one after the other, or no reached call bears
   the id of an earlier one that was not settled during preparation.
   */
  ghost predicate IdsTell(sequentialMode: bool, tools: seq<Tool>, script: TurnScript) {
    || script.final.Failed()
    || RunsSequentially(sequentialMode, tools, script.final.Calls())
    || FreshIds(Entries(tools, ReachedCalls(sequentialMode, tools, script), script.calls))
  }

  /** The tools of a turn: those of the last context a hook has put in place before it. */
  function ToolsAt(tools: seq<Tool>, scripts: seq<TurnScript>, n: nat): seq<Tool>
    requires n <= |scripts|
  {
    if n == 0 then tools
    else if scripts[n - 1].nextContext.Some? then scripts[n - 1].nextContext.value.tools
    else ToolsAt(tools, scripts, n - 1)
  }

  /** In a turn the provider has kept to its protocol, and has given ids that tell its calls apart. */
  ghost predicate BehavedAt(sequentialMode: bool, tools: seq<Tool>, scripts: seq<TurnScript>, i: nat)
    requires i < |scripts|
  {
    Protocol(scripts[i].stream) && IdsTell(sequentialMode, ToolsAt(tools, scripts, i), scripts[i])
  }

  ghost predicate Behaved(sequentialMode: bool, tools: seq<Tool>, scripts: seq<TurnScript>, n: nat)
    requires n <= |scripts|
  {
    forall i :: 0 <= i < n ==> BehavedAt(sequentialMode, tools, scripts, i)
  }

  // ----- The tool phase of a turn -----

  lemma ToolPhaseEvents(sequentialMode: bool, tools: seq<Tool>, script: TurnScript, turns: nat)
    ensures var phase := ToolPhaseOf(sequentialMode, tools, script);
            && Delivered(phase.events) == AsMessages(phase.results)
            && Watch(InTurn(turns, false, {}), phase.events)
               == if IdsTell(sequentialMode, tools, script) then InTurn(turns, false, {}) else Rejected
  {
    hide OutcomeOf, SequentialEvents, ParallelEvents, FreshIds;
    var calls := ReachedCalls(sequentialMode, tools, script);
    if script.final.Failed() {
      assert AsMessages([]) == [];
    } else if script.final.Calls() == [] {
      assert AsMessages([]) == [];
      assert calls == [] && Entries(tools, calls, script.calls) == [];
      FreshNothing();
    } else if RunsSequentially(sequentialMode, tools, script.final.Calls()) {
      SequentialDelivers(tools, calls, script.calls);
      WatchSequential(turns, tools, calls, script.calls);
    } else {
      ParallelDelivers(tools, calls, script.calls, script.schedule);
      WatchParallel(turns, tools, calls, script.calls, script.schedule);
    }
  }

  lemma FreshNothing()
    ensures FreshIds([])
  {
  }

  lemma TurnDelivers(sequentialMode: bool, context: Context, pending: seq<Message>, script: TurnScript)
    ensures var turn := TurnOf(sequentialMode, context, pending, script);
            Delivered(TurnEvents(turn)) == MessagesOf(turn)
  {
    hide ToolPhaseOf, Respond, Brackets, Delivered;
    var turn := TurnOf(sequentialMode, context, pending, script);
    var end := [TurnEnd(turn.response, turn.results)];
    DeliveredBrackets(pending);
    ResponseDeliversItsMessage(context.messages + pending, script.stream, script.final);
    ToolPhaseEvents(sequentialMode, context.tools, script, 0);
    DeliveredAppend(Brackets(pending), turn.responseEvents);
    DeliveredAppend(Brackets(pending) + turn.responseEvents, turn.toolEvents);
    DeliveredAppend(Brackets(pending) + turn.responseEvents + turn.toolEvents, end);
    DeliversNothing(end);
  }

  lemma TurnIsBracketed(
      sequentialMode: bool, context: Context, pending: seq<Message>, script: TurnScript, turns: nat)
    ensures var turn := TurnOf(sequentialMode, context, pending, script);
            Watch(InTurn(turns, false, {}), TurnEvents(turn))
            == if Protocol(script.stream) && IdsTell(sequentialMode, context.tools, script) then
                 BetweenTurns(turns + 1)
               else Rejected
  {
    hide ToolPhaseOf, Respond, Brackets, Watch, IdsTell;
    var turn := TurnOf(sequentialMode, context, pending, script);
    var m, end := InTurn(turns, false, {}), TurnEnd(turn.response, turn.results);
    WatchBrackets(turns, pending);
    ResponseIsBracketed(context.messages + pending, script.stream, script.final, turns);
    ToolPhaseEvents(sequentialMode, context.tools, script, turns);
    WatchAppend(m, Brackets(pending), turn.responseEvents);
    WatchAppend(m, Brackets(pending) + turn.responseEvents, turn.toolEvents);
    WatchAppend(m, Brackets(pending) + turn.responseEvents + turn.toolEvents, [end]);
    StaysRejected(turn.toolEvents);
    StaysRejected([end]);
    WatchOne(m, end);
  }

  // ----- Whole-run event grammar -----

  /** Turns in full: each begins with its turn_start. */
  function WholeTurns(turns: seq<Turn>): seq<Event> {
    if turns == [] then []
    else
      var n := |turns| - 1;
      WholeTurns(turns[..n]) + ([TurnStart] + TurnEvents(turns[n]))
  }

  /** The prompts belong to the first turn: they come before the messages that were pending. */
  function WithPrompts(prompts: seq<Message>, turns: seq<Turn>): seq<Turn>
    requires turns != []
  {
    [turns[0].(injected := prompts + turns[0].injected)] + turns[1..]
  }

  lemma PromptsJoinTheFirstTurn(prompts: seq<Message>, turn: Turn)
    ensures [TurnStart] + Brackets(prompts) + TurnEvents(turn)
            == [TurnStart] + TurnEvents(turn.(injected := prompts + turn.injected))
  {
    BracketsAppend(prompts, turn.injected);
    hide Brackets;
    var rest := turn.responseEvents + turn.toolEvents + [TurnEnd(turn.response, turn.results)];
    assert TurnEvents(turn) == Brackets(turn.injected) + rest;
    assert TurnEvents(turn.(injected := prompts + turn.injected)) == Brackets(prompts) + Brackets(turn.injected) + rest;
  }

  lemma WholeNext(turns: seq<Turn>, turn: Turn)
    ensures WholeTurns(turns + [turn]) == WholeTurns(turns) + ([TurnStart] + TurnEvents(turn))
    ensures turns != [] ==> LoopTrace(turns + [turn]) == LoopTrace(turns) + ([TurnStart] + TurnEvents(turn))
    ensures LoopTrace([turn]) == TurnEvents(turn)
  {
    hide TurnEvents;
    assert (turns + [turn])[..|turns|] == turns;
    assert [turn][..0] == [];
    Associate(LoopTrace(turns), [TurnStart], TurnEvents(turn));
  }

  lemma {:induction false} OpeningAndLoopAreTurns(prompts: seq<Message>, turns: seq<Turn>)
    requires turns != []
    ensures [TurnStart] + Brackets(prompts) + LoopTrace(turns) == WholeTurns(WithPrompts(prompts, turns))
  {
    hide TurnEvents, LoopTrace, Brackets;
    var n := |turns| - 1;
    WholeNext(turns[..n], turns[n]);
    assert turns[..n] + [turns[n]] == turns;
    if n == 0 {
      var merged := turns[0].(injected := prompts + turns[0].injected);
      PromptsJoinTheFirstTurn(prompts, turns[0]);
      assert turns == [turns[0]] && WithPrompts(prompts, turns) == [merged];
      WholeNext([], merged);
      assert [] + [merged] == [merged];
    } else {
      hide WholeTurns;
      OpeningAndLoopAreTurns(prompts, turns[..n]);
      assert WithPrompts(prompts, turns) == WithPrompts(prompts, turns[..n]) + [turns[n]];
      WholeNext(WithPrompts(prompts, turns[..n]), turns[n]);
      Associate([TurnStart] + Brackets(prompts), LoopTrace(turns[..n]), [TurnStart] + TurnEvents(turns[n]));
    }
  }

  /**
   From either entry point a run emits agent_start, then its turns, then agent_end exactly if it has ended;
   turn_start is emitted once for each turn.
   */
  lemma RunGrammar(prompts: seq<Message>, run: Run)
    requires run.turns != []
    ensures RunTrace(prompts, run)
            == [AgentStart] + WholeTurns(WithPrompts(prompts, run.turns)) + Ending(run.state)
  {
    hide Brackets, LoopTrace, WholeTurns, WithPrompts;
    OpeningAndLoopAreTurns(prompts, run.turns);
    assert [AgentStart, TurnStart] + Brackets(prompts) == [AgentStart] + ([TurnStart] + Brackets(prompts));
    Associate([AgentStart] + ([TurnStart] + Brackets(prompts)), LoopTrace(run.turns), Ending(run.state));
    Associate([AgentStart], [TurnStart] + Brackets(prompts), LoopTrace(run.turns));
  }

  lemma WatchEmptyLoop(m: Monitor)
    ensures Watch(m, LoopTrace([])) == m
  {
  }

  /** What the monitor makes of the first `n` turns. */
  ghost function AfterTurns(sequentialMode: bool, tools: seq<Tool>, scripts: seq<TurnScript>, n: nat): Monitor
    requires n <= |scripts|
  {
    if n == 0 then InTurn(0, false, {})
    else if Behaved(sequentialMode, tools, scripts, n) then BetweenTurns(n)
    else Rejected
  }

  lemma AfterOneMore(sequentialMode: bool, tools: seq<Tool>, scripts: seq<TurnScript>, n: nat)
    requires n < |scripts|
    ensures AfterTurns(sequentialMode, tools, scripts, n + 1)
            == if AfterTurns(sequentialMode, tools, scripts, n).Rejected?
                  || !BehavedAt(sequentialMode, tools, scripts, n) then Rejected
               else BetweenTurns(n + 1)
  {
    hide BehavedAt;
  }

  lemma {:induction false} ToolsPrefix(tools: seq<Tool>, scripts: seq<TurnScript>, k: nat, n: nat)
    requires k <= n <= |scripts|
    ensures ToolsAt(tools, scripts[..n], k) == ToolsAt(tools, scripts, k)
  {
    if k == 0 {
    } else {
      ToolsPrefix(tools, scripts, k - 1, n);
    }
  }

  lemma AfterPrefix(sequentialMode: bool, tools: seq<Tool>, scripts: seq<TurnScript>, k: nat, n: nat)
    requires k <= n <= |scripts|
    ensures AfterTurns(sequentialMode, tools, scripts[..n], k) == AfterTurns(sequentialMode, tools, scripts, k)
  {
    hide Protocol, IdsTell, ToolsAt;
    forall i | 0 <= i < k
      ensures BehavedAt(sequentialMode, tools, scripts[..n], i) <==> BehavedAt(sequentialMode, tools, scripts, i)
    {
      ToolsPrefix(tools, scripts, i, n);
    }
  }

  /** The tools a run has come to. */
  lemma {:induction false} RunHasToolsAt(sequentialMode: bool, start: LoopState, scripts: seq<TurnScript>)
    ensures var run := Play(sequentialMode, start, scripts);
            run.state.exit.None? ==> run.state.context.tools == ToolsAt(start.context.tools, scripts, |scripts|)
  {
    if scripts == [] || start.exit.Some? {
    } else {
      hide PlayTurn;
      var n := |scripts| - 1;
      RunHasToolsAt(sequentialMode, start, scripts[..n]);
      ToolsPrefix(start.context.tools, scripts, n, n);
      TurnKeepsTools(sequentialMode, Play(sequentialMode, start, scripts[..n]).state, scripts[n]);
    }
  }

  lemma TurnKeepsTools(sequentialMode: bool, s: LoopState, script: TurnScript)
    ensures var state := PlayTurn(sequentialMode, s, script).state;
            state.exit.None? ==>
              state.context.tools
              == if script.nextContext.Some? then script.nextContext.value.tools else s.context.tools
  {
    hide TurnOf, Grown, MessagesOf;
  }

  lemma {:induction false} WatchLoop(sequentialMode: bool, start: LoopState, scripts: seq<TurnScript>)
    ensures var turns := Play(sequentialMode, start, scripts).turns;
            Watch(InTurn(0, false, {}), LoopTrace(turns))
            == AfterTurns(sequentialMode, start.context.tools, scripts, |turns|)
  {
    hide TurnEvents, Watch, LoopTrace, PlayTurn, BehavedAt, TurnOf;
    if scripts == [] || start.exit.Some? {
      WatchEmptyLoop(InTurn(0, false, {}));
    } else {
      hide AfterTurns;
      var n, tools := |scripts| - 1, start.context.tools;
      var earlier := Play(sequentialMode, start, scripts[..n]);
      WatchLoop(sequentialMode, start, scripts[..n]);
      AfterPrefix(sequentialMode, tools, scripts, |earlier.turns|, n);
      if earlier.state.exit.None? {
        RunHasToolsAt(sequentialMode, start, scripts[..n]);
        ToolsPrefix(tools, scripts, n, n);
        PlayTurnTurn(sequentialMode, earlier.state, scripts[n]);
        WatchNextTurn(sequentialMode, earlier.state, tools, scripts, earlier.turns);
      }
    }
  }

  lemma PlayTurnTurn(sequentialMode: bool, s: LoopState, script: TurnScript)
    ensures PlayTurn(sequentialMode, s, script).turn == TurnOf(sequentialMode, s.context, s.pending, script)
  {
    hide TurnOf, Grown;
  }

  lemma WatchNextTurn(
      sequentialMode: bool, s: LoopState, tools: seq<Tool>, scripts: seq<TurnScript>, turns: seq<Turn>)
    requires |turns| < |scripts| && s.context.tools == ToolsAt(tools, scripts, |turns|)
    requires Watch(InTurn(0, false, {}), LoopTrace(turns)) == AfterTurns(sequentialMode, tools, scripts, |turns|)
    ensures var turn := TurnOf(sequentialMode, s.context, s.pending, scripts[|turns|]);
            Watch(InTurn(0, false, {}), LoopTrace(turns + [turn]))
            == AfterTurns(sequentialMode, tools, scripts, |turns| + 1)
  {
    hide TurnEvents, Watch, TurnOf, LoopTrace, Protocol, Behaved, IdsTell;
    var n := |turns|;
    var turn := TurnOf(sequentialMode, s.context, s.pending, scripts[n]);
    LoopTraceNext(turns, turn);
    var m, opening := InTurn(0, false, {}), if turns == [] then [] else [TurnStart];
    AfterOneMore(sequentialMode, tools, scripts, n);
    TurnIsBracketed(sequentialMode, s.context, s.pending, scripts[n], n);
    WatchAppend(m, LoopTrace(turns) + opening, TurnEvents(turn));
    WatchAppend(m, LoopTrace(turns), opening);
    if turns == [] {
      WatchNothing(m);
    } else if Behaved(sequentialMode, tools, scripts, n) {
      WatchOne(BetweenTurns(n), TurnStart);
    } else {
      StaysRejected(opening);
      StaysRejected(TurnEvents(turn));
    }
  }

  /**
   The monitor accepts a run exactly when no response had a second start event and the ids of every response told its
   running calls apart: then brackets never overlap, no tool runs while a message is open, none is left running at a
   turn_end, and agent_end is the last event, emitted exactly when the run is over.
   */
  lemma RunIsAccepted(
      sequentialMode: bool, start: LoopState, scripts: seq<TurnScript>, prompts: seq<Message>)
    requires start.exit.None?
    ensures var run := Play(sequentialMode, start, scripts);
            Watch(Fresh, RunTrace(prompts, run))
            == if !Behaved(sequentialMode, start.context.tools, scripts, |run.turns|) then Rejected
               else if run.state.exit.Some? then Ended
               else if scripts == [] then InTurn(0, false, {}) else BetweenTurns(|scripts|)
  {
    hide Watch, LoopTrace, Brackets, BehavedAt, Play;
    var run := Play(sequentialMode, start, scripts);
    var m, loop := InTurn(0, false, {}), AfterTurns(sequentialMode, start.context.tools, scripts, |run.turns|);
    WatchOpening(prompts);
    WatchAppend(Fresh, [AgentStart, TurnStart] + Brackets(prompts), LoopTrace(run.turns) + Ending(run.state));
    WatchLoop(sequentialMode, start, scripts);
    WatchAppend(m, LoopTrace(run.turns), Ending(run.state));
    if run.state.exit.Some? {
      EndedAfterATurn(sequentialMode, start, scripts);
      WatchOne(loop, AgentEnd(run.state.newMessages));
    } else {
      WatchNothing(loop);
    }
  }

  lemma WatchOpening(prompts: seq<Message>)
    ensures Watch(Fresh, [AgentStart, TurnStart] + Brackets(prompts)) == InTurn(0, false, {})
  {
    hide Watch, Brackets;
    WatchOne(Fresh, AgentStart);
    WatchOne(BetweenTurns(0), TurnStart);
    WatchAppend(Fresh, [AgentStart], [TurnStart]);
    assert [AgentStart] + [TurnStart] == [AgentStart, TurnStart];
    WatchBrackets(0, prompts);
    WatchAppend(Fresh, [AgentStart, TurnStart], Brackets(prompts));
  }

  lemma {:induction false} EndedAfterATurn(sequentialMode: bool, start: LoopState, scripts: seq<TurnScript>)
    requires start.exit.None? && Play(sequentialMode, start, scripts).state.exit.Some?
    ensures Play(sequentialMode, start, scripts).turns != []
  {
    hide PlayTurn;
    var n := |scripts| - 1;
    if scripts == [] || Play(sequentialMode, start, scripts[..n]).state.exit.None? {
    } else {
      EndedAfterATurn(sequentialMode, start, scripts[..n]);
    }
  }

  /**
   At every event of a run that the monitor has not rejected by then, the reduced state shows exactly the open message
   and the running calls. In a run without a second start event or an id shared by running calls, that is every event.
   */
  lemma RunIsMirrored(
      sequentialMode: bool, start: LoopState, scripts: seq<TurnScript>, prompts: seq<Message>, v: View, n: nat)
    requires start.exit.None? && Mirrors(v, Fresh)
    requires n <= |RunTrace(prompts, Play(sequentialMode, start, scripts))|
    ensures var run := Play(sequentialMode, start, scripts);
            var seen := RunTrace(prompts, run)[..n];
            && (!Watch(Fresh, seen).Rejected? ==> Mirrors(ReduceAll(v, seen), Watch(Fresh, seen)))
            && (Behaved(sequentialMode, start.context.tools, scripts, |run.turns|) ==>
                  !Watch(Fresh, seen).Rejected?)
  {
    hide Play, RunTrace, Watch, ReduceAll, Behaved;
    var trace := RunTrace(prompts, Play(sequentialMode, start, scripts));
    RunIsAccepted(sequentialMode, start, scripts, prompts);
    if !Watch(Fresh, trace).Rejected? {
      AcceptancePrefix(Fresh, trace, n);
    }
    if !Watch(Fresh, trace[..n]).Rejected? {
      assert trace[..n][..n] == trace[..n];
      ReducerMirrorsMonitor(v, Fresh, trace[..n], n);
    }
  }

  // ----- Transcript agreement -----

  function Transcript(turns: seq<Turn>): seq<Message> {
    if turns == [] then []
    else Transcript(turns[..|turns| - 1]) + MessagesOf(turns[|turns| - 1])
  }

  lemma {:induction false} LoopDelivers(sequentialMode: bool, start: LoopState, scripts: seq<TurnScript>)
    ensures var run := Play(sequentialMode, start, scripts);
            && Delivered(LoopTrace(run.turns)) == Transcript(run.turns)
            && run.state.newMessages == start.newMessages + Transcript(run.turns)
  {
    hide TurnEvents, MessagesOf, Delivered, PlayTurn, LoopTrace;
    if scripts == [] || start.exit.Some? {
      EmptyLoopDelivers();
    } else {
      var n := |scripts| - 1;
      var earlier := Play(sequentialMode, start, scripts[..n]);
      LoopDelivers(sequentialMode, start, scripts[..n]);
      if earlier.state.exit.None? {
        var turn := PlayTurn(sequentialMode, earlier.state, scripts[n]).turn;
        StepAppends(sequentialMode, earlier.state, scripts[n]);
        DeliversNextTurn(earlier.turns, turn);
        JoinMessages(start.newMessages, Transcript(earlier.turns), MessagesOf(turn));
      }
    }
  }

  lemma JoinMessages(a: seq<Message>, b: seq<Message>, c: seq<Message>)
    ensures a + b + c == a + (b + c)
  {
  }

  lemma EmptyLoopDelivers()
    ensures Delivered(LoopTrace([])) == Transcript([])
  {
  }

  lemma DeliversNextTurn(turns: seq<Turn>, turn: Turn)
    requires Delivered(LoopTrace(turns)) == Transcript(turns) && Delivered(TurnEvents(turn)) == MessagesOf(turn)
    ensures Delivered(LoopTrace(turns + [turn])) == Transcript(turns + [turn])
    ensures Transcript(turns + [turn]) == Transcript(turns) + MessagesOf(turn)
  {
    hide TurnEvents, MessagesOf, Delivered;
    assert (turns + [turn])[..|turns|] == turns;
    var opening := if turns == [] then [] else [TurnStart];
    DeliveredAppend(LoopTrace(turns) + opening, TurnEvents(turn));
    DeliveredAppend(LoopTrace(turns), opening);
    DeliversNothing(opening);
  }

  lemma StepAppends(sequentialMode: bool, s: LoopState, script: TurnScript)
    ensures var step := PlayTurn(sequentialMode, s, script);
            && Delivered(TurnEvents(step.turn)) == MessagesOf(step.turn)
            && step.state.newMessages == s.newMessages + MessagesOf(step.turn)
  {
    hide TurnEvents, TurnOf, Grown, Delivered;
    TurnDelivers(sequentialMode, s.context, s.pending, script);
  }

  /** How many stale partial messages a stream leaves in the context. */
  function Stale(script: TurnScript): nat {
    var starts := Starts(Consumed(script.stream));
    if starts <= 1 then 0 else starts - 1
  }

  function AllStale(scripts: seq<TurnScript>): nat {
    if scripts == [] then 0 else AllStale(scripts[..|scripts| - 1]) + Stale(scripts[|scripts| - 1])
  }

  lemma {:induction false} NoneStaleMeansProtocol(scripts: seq<TurnScript>)
    ensures AllStale(scripts) == 0 <==> forall i :: 0 <= i < |scripts| ==> Protocol(scripts[i].stream)
  {
    if scripts == [] {
    } else {
      NoneStaleMeansProtocol(scripts[..|scripts| - 1]);
    }
  }

  lemma NothingStale()
    ensures AllStale([]) == 0 && Transcript([]) == []
  {
  }

  lemma StaleNext(scripts: seq<TurnScript>)
    requires scripts != []
    ensures AllStale(scripts) == AllStale(scripts[..|scripts| - 1]) + Stale(scripts[|scripts| - 1])
    ensures Stale(scripts[|scripts| - 1]) == 0 <==> Protocol(scripts[|scripts| - 1].stream)
  {
  }

  lemma TranscriptNext(turns: seq<Turn>, turn: Turn)
    ensures Transcript(turns + [turn]) == Transcript(turns) + MessagesOf(turn)
  {
    hide MessagesOf;
    assert (turns + [turn])[..|turns|] == turns;
  }

  lemma StepGrowsContext(sequentialMode: bool, s: LoopState, script: TurnScript)
    requires script.nextContext.None?
    ensures var step := PlayTurn(sequentialMode, s, script);
            && |step.state.context.messages| == |s.context.messages| + |MessagesOf(step.turn)| + Stale(script)
            && step.state.context.tools == s.context.tools
            && (Protocol(script.stream) ==>
                  step.state.context.messages == s.context.messages + MessagesOf(step.turn))
  {
    hide ToolPhaseOf, ReceiveAll;
    var turn := TurnOf(sequentialMode, s.context, s.pending, script);
    StreamingIsAtomicAppend(s.context.messages + s.pending, script.stream, script.final);
    ReceiveGrowsByStarts(s.context.messages + s.pending, Consumed(script.stream));
    JoinMessages(s.context.messages, s.pending, [Assistant(script.final)]);
    JoinMessages(s.context.messages, s.pending + [Assistant(script.final)], AsMessages(turn.results));
  }

  lemma {:induction false} ContextGrows(sequentialMode: bool, start: LoopState, scripts: seq<TurnScript>)
    requires forall i :: 0 <= i < |scripts| ==> scripts[i].nextContext.None?
    ensures var run := Play(sequentialMode, start, scripts);
            && |run.state.context.messages|
               == |start.context.messages| + |Transcript(run.turns)| + AllStale(scripts[..|run.turns|])
            && run.state.context.tools == start.context.tools
            && (AllStale(scripts[..|run.turns|]) == 0 ==>
                  run.state.context.messages == start.context.messages + Transcript(run.turns))
  {
    hide MessagesOf, PlayTurn, AllStale, Transcript;
    if scripts == [] || start.exit.Some? {
      assert scripts[..0] == [];
      NothingStale();
      assert start.context.messages + [] == start.context.messages;
    } else {
      var n := |scripts| - 1;
      var earlier := Play(sequentialMode, start, scripts[..n]);
      ContextGrows(sequentialMode, start, scripts[..n]);
      assert scripts[..n][..|earlier.turns|] == scripts[..|earlier.turns|];
      if earlier.state.exit.None? {
        var turn := PlayTurn(sequentialMode, earlier.state, scripts[n]).turn;
        TranscriptNext(earlier.turns, turn);
        StaleNext(scripts);
        assert scripts[..n + 1] == scripts;
        StepGrowsContext(sequentialMode, earlier.state, scripts[n]);
        JoinMessages(start.context.messages, Transcript(earlier.turns), MessagesOf(turn));
      }
    }
  }

  /**
   Without a replaced context, the model sees the same history as the caller exactly when every stream of the
   run kept to the protocol: each further start event leaves a stale partial message in the context for good.
   */
  lemma ContextAgreesExactlyUnderProtocol(sequentialMode: bool, start: LoopState, scripts: seq<TurnScript>)
    requires forall i :: 0 <= i < |scripts| ==> scripts[i].nextContext.None?
    ensures var run := Play(sequentialMode, start, scripts);
            run.state.context == Context(start.context.messages + Transcript(run.turns), start.context.tools)
            <==> forall i :: 0 <= i < |run.turns| ==> Protocol(scripts[i].stream)
  {
    hide Transcript, AllStale, Play;
    var run := Play(sequentialMode, start, scripts);
    var played := scripts[..|run.turns|];
    ContextGrows(sequentialMode, start, scripts);
    NoneStaleMeansProtocol(played);
    assert forall i :: 0 <= i < |run.turns| ==> played[i] == scripts[i];
  }

  /**
   The histories agree: the payloads of the message_end events, the messages the loop returns and reports in
   agent_end, and the transcript the reducer rebuilds.
   */
  lemma HistoriesAgree(
      sequentialMode: bool, prompts: seq<Message>, start: LoopState, scripts: seq<TurnScript>, v: View)
    requires start.newMessages == prompts
    ensures var run := Play(sequentialMode, start, scripts);
            && Delivered(RunTrace(prompts, run)) == run.state.newMessages
            && run.state.newMessages == prompts + Transcript(run.turns)
            && ReduceAll(v, RunTrace(prompts, run)).messages == v.messages + run.state.newMessages
  {
    hide Play, LoopTrace, Brackets, Delivered, ReduceAll, Transcript;
    var run := Play(sequentialMode, start, scripts);
    LoopDelivers(sequentialMode, start, scripts);
    DeliversNothing([AgentStart, TurnStart]);
    DeliveredBrackets(prompts);
    DeliversNothing(Ending(run.state));
    DeliveredAppend([AgentStart, TurnStart], Brackets(prompts));
    DeliveredAppend(LoopTrace(run.turns), Ending(run.state));
    DeliveredAppend([AgentStart, TurnStart] + Brackets(prompts), LoopTrace(run.turns) + Ending(run.state));
    TranscriptIsDelivered(v, RunTrace(prompts, run));
  }
}
