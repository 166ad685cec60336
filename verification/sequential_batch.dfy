/** A batch of tool calls run one after the other. */
module SequentialBatch {
  import opened Messages
  import opened Events
  import opened Reducer
  import opened ToolCalls

  /** The lifecycle of one call: start, progress, end, then its result message. */
  function CallEvents(tools: seq<Tool>, call: ToolCall, s: CallScript): seq<Event> {
    var f := OutcomeOf(tools, call, s);
    ToolPart(tools, call, s) + Bracket(ToolResult(f.Result()))
  }

  function ToolPart(tools: seq<Tool>, call: ToolCall, s: CallScript): seq<Event> {
    [ToolStart(call)] + ProgressEvents(tools, call, s) + [OutcomeOf(tools, call, s).End()]
  }

  /** A call that was settled during preparation makes no progress events. */
  function ProgressEvents(tools: seq<Tool>, call: ToolCall, s: CallScript): seq<Event> {
    if Prepare(tools, call, s).Prepared? then CallUpdates(call, s.updates) else []
  }

  function SequentialEvents(tools: seq<Tool>, calls: seq<ToolCall>, scripts: nat -> CallScript): seq<Event> {
    if calls == [] then []
    else
      var n := |calls| - 1;
      SequentialEvents(tools, calls[..n], scripts) + CallEvents(tools, calls[n], scripts(n))
  }

  function StopsAfterCall(scripts: nat -> CallScript): nat -> bool {
    (i: nat) => scripts(i).abortedAfterCall
  }

  /** The batch breaks after the first call that finds the signal aborted. */
  function SequentialReach(calls: seq<ToolCall>, scripts: nat -> CallScript): (reached: nat)
    ensures reached <= |calls|
    ensures |calls| > 0 ==> reached > 0
    ensures reached == |calls| <==> forall i :: 0 <= i < |calls| - 1 ==> !scripts(i).abortedAfterCall
  {
    assert forall i: nat :: StopsAfterCall(scripts)(i) == scripts(i).abortedAfterCall;
    Reach(|calls|, StopsAfterCall(scripts))
  }

  function SequentialBatchOf(tools: seq<Tool>, calls: seq<ToolCall>, scripts: nat -> CallScript): Batch {
    BatchOf(Outcomes(tools, calls[..SequentialReach(calls, scripts)], scripts))
  }

  /** What the loop has done after `n` calls. */
  lemma OutcomesNext(tools: seq<Tool>, calls: seq<ToolCall>, scripts: nat -> CallScript, n: nat)
    requires n < |calls|
    ensures Outcomes(tools, calls[..n + 1], scripts)
            == Outcomes(tools, calls[..n], scripts) + [OutcomeOf(tools, calls[n], scripts(n))]
    ensures Results(Outcomes(tools, calls[..n + 1], scripts))
            == Results(Outcomes(tools, calls[..n], scripts)) + [OutcomeOf(tools, calls[n], scripts(n)).Result()]
    ensures SequentialEvents(tools, calls[..n + 1], scripts)
            == SequentialEvents(tools, calls[..n], scripts) + CallEvents(tools, calls[n], scripts(n))
  {
    assert calls[..n + 1][..n] == calls[..n];
  }

  lemma ResultMessagesNext(tools: seq<Tool>, calls: seq<ToolCall>, scripts: nat -> CallScript, n: nat)
    requires n < |calls|
    ensures AsMessages(Results(Outcomes(tools, calls[..n + 1], scripts)))
            == AsMessages(Results(Outcomes(tools, calls[..n], scripts)))
               + [ToolResult(OutcomeOf(tools, calls[n], scripts(n)).Result())]
  {
    hide OutcomeOf;
    OutcomesNext(tools, calls, scripts, n);
  }

  /** One call from start to result message. */
  method RunCall(tools: seq<Tool>, call: ToolCall, s: CallScript, sink: AgentState) returns (finalized: Finalized)
    requires sink.Valid()
    modifies sink, sink.messages
    ensures sink.Valid() && sink.messages == old(sink.messages) && sink.base == old(sink.base)
    ensures finalized == OutcomeOf(tools, call, s)
    ensures sink.trace == old(sink.trace) + CallEvents(tools, call, s)
  {
    hide ReduceAll;
    ghost var before, progress := sink.trace, ProgressEvents(tools, call, s);
    sink.Process(ToolStart(call));
    match Prepare(tools, call, s) {
      case Immediate(output, isError) =>
        finalized := Finalized(call, output, isError);
      case Prepared(_, _) =>
        var executed := ExecutePreparedToolCall(call, s, sink);
        finalized := Finalize(call, executed, s);
    }
    Associate(before, [ToolStart(call)], progress);
    assert sink.trace == before + ([ToolStart(call)] + progress);
    sink.Process(finalized.End());
    Associate(before, [ToolStart(call)] + progress, [finalized.End()]);
    sink.EmitBracket(ToolResult(finalized.Result()));
    Associate(before, ToolPart(tools, call, s), Bracket(ToolResult(finalized.Result())));
  }

  method ExecuteToolCallsSequential(
      tools: seq<Tool>, calls: seq<ToolCall>, scripts: nat -> CallScript, sink: AgentState)
    returns (batch: Batch)
    requires sink.Valid()
    modifies sink, sink.messages
    ensures sink.Valid() && sink.messages == old(sink.messages) && sink.base == old(sink.base)
    ensures batch == SequentialBatchOf(tools, calls, scripts)
    ensures sink.trace
            == old(sink.trace) + SequentialEvents(tools, calls[..SequentialReach(calls, scripts)], scripts)
  {
    hide ReduceAll, OutcomeOf, CallEvents;
    ghost var before := sink.trace;
    var finalizedCalls: seq<Finalized> := [];
    var messages: seq<ToolResultMessage> := [];
    var k := 0;
    var aborted := false;
    assert calls[..0] == [];
    while k < |calls| && !aborted
      invariant k <= |calls|
      invariant sink.Valid() && sink.messages == old(sink.messages) && sink.base == old(sink.base)
      invariant finalizedCalls == Outcomes(tools, calls[..k], scripts)
      invariant messages == Results(finalizedCalls)
      invariant sink.trace == before + SequentialEvents(tools, calls[..k], scripts)
      invariant forall i :: 0 <= i < k - 1 ==> !scripts(i).abortedAfterCall
      invariant k == 0 ==> !aborted
      invariant k > 0 ==> aborted == scripts(k - 1).abortedAfterCall
    {
      OutcomesNext(tools, calls, scripts, k);
      Associate(before, SequentialEvents(tools, calls[..k], scripts), CallEvents(tools, calls[k], scripts(k)));
      var finalized := RunCall(tools, calls[k], scripts(k), sink);
      finalizedCalls := finalizedCalls + [finalized];
      messages := messages + [finalized.Result()];
      aborted := scripts(k).abortedAfterCall;
      k := k + 1;
    }
    if k > 0 {
      ReachStops(|calls|, StopsAfterCall(scripts), k);
    }
    batch := Batch(messages, ShouldTerminate(finalizedCalls));
  }

  // ----- Properties of the event sequence -----

  /** A batch delivers its result messages, in call order. */
  lemma {:induction false} SequentialDelivers(tools: seq<Tool>, calls: seq<ToolCall>, scripts: nat -> CallScript)
    ensures Delivered(SequentialEvents(tools, calls, scripts))
            == AsMessages(Results(Outcomes(tools, calls, scripts)))
  {
    if calls == [] {
    } else {
      hide CallEvents, OutcomeOf, Delivered, AsMessages, Results, Outcomes;
      var n := |calls| - 1;
      SequentialDelivers(tools, calls[..n], scripts);
      CallDelivers(tools, calls[n], scripts(n));
      DeliveredAppend(SequentialEvents(tools, calls[..n], scripts), CallEvents(tools, calls[n], scripts(n)));
      assert calls[..n + 1] == calls;
      ResultMessagesNext(tools, calls, scripts, n);
    }
  }

  lemma ToolPartIsQuiet(tools: seq<Tool>, call: ToolCall, s: CallScript)
    ensures forall e :: e in ToolPart(tools, call, s) ==> e.ForTool(call.id)
    ensures forall e :: e in ToolPart(tools, call, s) ==> !e.MessageEnd? && e.Inner()
  {
    CallUpdatesAreUpdates(call, s.updates);
  }

  lemma CallDelivers(tools: seq<Tool>, call: ToolCall, s: CallScript)
    ensures Delivered(CallEvents(tools, call, s)) == [ToolResult(OutcomeOf(tools, call, s).Result())]
  {
    var message := ToolResult(OutcomeOf(tools, call, s).Result());
    ToolPartIsQuiet(tools, call, s);
    DeliversNothing(ToolPart(tools, call, s));
    DeliveredAppend(ToolPart(tools, call, s), Bracket(message));
    DeliveredBrackets([message]);
    assert [message][..0] == [];
  }

  lemma {:induction false} WatchCallUpdates(m: Monitor, call: ToolCall, partials: seq<string>)
    requires m.InTurn? && call.id in m.running
    ensures Watch(m, CallUpdates(call, partials)) == m
  {
    if partials == [] {
    } else {
      var n := |partials| - 1;
      WatchCallUpdates(m, call, partials[..n]);
      WatchAppend(m, CallUpdates(call, partials[..n]), [ToolUpdate(call, partials[n])]);
      WatchOne(m, ToolUpdate(call, partials[n]));
    }
  }

  lemma WatchProgress(m: Monitor, tools: seq<Tool>, call: ToolCall, s: CallScript)
    requires m.InTurn? && call.id in m.running
    ensures Watch(m, ProgressEvents(tools, call, s)) == m
  {
    hide Prepare;
    WatchCallUpdates(m, call, s.updates);
  }

  lemma WatchCall(turns: nat, tools: seq<Tool>, call: ToolCall, s: CallScript)
    ensures Watch(InTurn(turns, false, {}), CallEvents(tools, call, s)) == InTurn(turns, false, {})
  {
    hide OutcomeOf, Watch, Brackets, ProgressEvents;
    var m, busy := InTurn(turns, false, {}), InTurn(turns, false, {call.id});
    var progress, f := ProgressEvents(tools, call, s), OutcomeOf(tools, call, s);
    WatchOne(m, ToolStart(call));
    assert {} + {call.id} == {call.id};
    WatchAppend(m, [ToolStart(call)], progress);
    WatchProgress(busy, tools, call, s);
    WatchAppend(m, [ToolStart(call)] + progress, [f.End()]);
    WatchOne(busy, f.End());
    assert {call.id} - {call.id} == {};
    assert Watch(m, ToolPart(tools, call, s)) == m;
    WatchAppend(m, ToolPart(tools, call, s), Bracket(ToolResult(f.Result())));
    WatchBrackets(turns, [ToolResult(f.Result())]);
    OneBracket(ToolResult(f.Result()));
  }

  /** The monitor accepts every sequential batch, whatever the call ids. */
  lemma {:induction false} WatchSequential(
      turns: nat, tools: seq<Tool>, calls: seq<ToolCall>, scripts: nat -> CallScript)
    ensures Watch(InTurn(turns, false, {}), SequentialEvents(tools, calls, scripts)) == InTurn(turns, false, {})
  {
    if calls == [] {
    } else {
      var n := |calls| - 1;
      WatchSequential(turns, tools, calls[..n], scripts);
      WatchCall(turns, tools, calls[n], scripts(n));
      WatchAppend(InTurn(turns, false, {}), SequentialEvents(tools, calls[..n], scripts),
                  CallEvents(tools, calls[n], scripts(n)));
    }
  }

  lemma {:induction false} RunningStaysWithin(m: Monitor, trace: seq<Event>, id: string, n: nat)
    requires m.InTurn? && m.running <= {id} && n <= |trace|
    requires forall e :: e in trace ==>
               e.Inner() && (e.MessageStart? || e.MessageUpdate? || e.MessageEnd? || e.ForTool(id))
    ensures var after := Watch(m, trace[..n]);
            after.Rejected? || (after.InTurn? && after.running <= {id})
  {
    if n == 0 {
    } else {
      RunningStaysWithin(m, trace, id, n - 1);
      assert trace[..n][..n - 1] == trace[..n - 1];
      assert trace[n - 1] in trace;
    }
  }

  /** In sequential mode no two lifecycles overlap: at every point of the batch at most one call is running. */
  lemma {:induction false} SequentialCallsNeverOverlap(
      turns: nat, tools: seq<Tool>, calls: seq<ToolCall>, scripts: nat -> CallScript, n: nat)
    requires n <= |SequentialEvents(tools, calls, scripts)|
    ensures var at := Watch(InTurn(turns, false, {}), SequentialEvents(tools, calls, scripts)[..n]);
            at.InTurn? && |at.running| <= 1
  {
    var m := InTurn(turns, false, {});
    if calls == [] {
    } else {
      var last := |calls| - 1;
      var earlier := SequentialEvents(tools, calls[..last], scripts);
      var events := CallEvents(tools, calls[last], scripts(last));
      if n <= |earlier| {
        SequentialCallsNeverOverlap(turns, tools, calls[..last], scripts, n);
        assert (earlier + events)[..n] == earlier[..n];
      } else {
        var k := n - |earlier|;
        assert (earlier + events)[..n] == earlier + events[..k];
        WatchAppend(m, earlier, events[..k]);
        WatchSequential(turns, tools, calls[..last], scripts);
        CallNeverOverlaps(turns, tools, calls[last], scripts(last), k);
      }
    }
  }

  lemma CallNeverOverlaps(turns: nat, tools: seq<Tool>, call: ToolCall, s: CallScript, n: nat)
    requires n <= |CallEvents(tools, call, s)|
    ensures var at := Watch(InTurn(turns, false, {}), CallEvents(tools, call, s)[..n]);
            at.InTurn? && |at.running| <= 1
  {
    hide OutcomeOf, Watch, ToolPart;
    var m, events := InTurn(turns, false, {}), CallEvents(tools, call, s);
    ToolPartIsQuiet(tools, call, s);
    WatchCall(turns, tools, call, s);
    AcceptancePrefix(m, events, n);
    RunningStaysWithin(m, events, call.id, n);
    SubsetOfOne(Watch(m, events[..n]).running, call.id);
  }

  lemma SubsetOfOne(s: set<string>, id: string)
    requires s <= {id}
    ensures |s| <= 1
  {
    if id in s {
      assert s == {id};
    } else {
      assert s == {};
    }
  }

  /** The lifecycles of the calls with one id, in call order. */
  function PartsWithId(tools: seq<Tool>, calls: seq<ToolCall>, scripts: nat -> CallScript, id: string): seq<Event> {
    if calls == [] then []
    else
      var n := |calls| - 1;
      PartsWithId(tools, calls[..n], scripts, id)
      + if calls[n].id == id then ToolPart(tools, calls[n], scripts(n)) else []
  }

  /**
   The events of an id are the lifecycles of the calls that bear it, one behind the other: each reached call has one
   start, then its updates, then one end, also when other calls share its id.
   */
  lemma {:induction false} SequentialBracketing(
      tools: seq<Tool>, calls: seq<ToolCall>, scripts: nat -> CallScript, id: string)
    ensures ToolEvents(SequentialEvents(tools, calls, scripts), id) == PartsWithId(tools, calls, scripts, id)
  {
    if calls == [] {
      NoToolEvents([], id);
    } else {
      hide CallEvents, ToolPart, ToolEvents;
      var n := |calls| - 1;
      SequentialBracketing(tools, calls[..n], scripts, id);
      ToolEventsAppend(SequentialEvents(tools, calls[..n], scripts), CallEvents(tools, calls[n], scripts(n)), id);
      CallBracketing(tools, calls[n], scripts(n), id);
    }
  }

  lemma CallBracketing(tools: seq<Tool>, call: ToolCall, s: CallScript, id: string)
    ensures ToolEvents(CallEvents(tools, call, s), id) == if call.id == id then ToolPart(tools, call, s) else []
  {
    hide OutcomeOf, ToolPart, ToolEvents;
    var bracket := Bracket(ToolResult(OutcomeOf(tools, call, s).Result()));
    ToolEventsAppend(ToolPart(tools, call, s), bracket, id);
    NoToolEvents(bracket, id);
    ToolPartIsQuiet(tools, call, s);
    if call.id == id {
      AllToolEvents(ToolPart(tools, call, s), id);
    } else {
      NoToolEvents(ToolPart(tools, call, s), id);
    }
  }

  lemma {:induction false} AllToolEvents(trace: seq<Event>, id: string)
    requires forall e :: e in trace ==> e.ForTool(id)
    ensures ToolEvents(trace, id) == trace
  {
    if trace == [] {
    } else {
      var front, last := trace[..|trace| - 1], trace[|trace| - 1];
      forall e | e in front ensures e.ForTool(id) {
        assert e in trace;
      }
      AllToolEvents(front, id);
      assert last in trace && trace == front + [last];
    }
  }
}
