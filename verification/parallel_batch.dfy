/**
 A batch of tool calls prepared one after the other and then run concurrently.

 The concurrent part is a state machine over small steps. A schedule is any list of steps chosen by the
 environment; a step that is not possible when it is chosen does nothing. Every call settles in the end, so a
 schedule is completed by steps that bring the calls it left unfinished to their end. Every interleaving of the
 program is such a schedule. There are more: the program invokes all tools before any of them can finish, and a
 schedule need not.
 */
module ParallelBatch {
  import opened Messages
  import opened Events
  import opened Reducer
  import opened ToolCalls
  import opened SequentialBatch

  /** What preparation leaves behind: a settled outcome, or a call still to be run. */
  datatype Entry = Completed(finalized: Finalized) | Deferred(call: ToolCall, script: CallScript) {
    function Id(): string {
      if Completed? then finalized.call.id else call.id
    }

    function TheCall(): ToolCall {
      if Completed? then finalized.call else call
    }

    function Outcome(): (f: Finalized)
      ensures f.call == TheCall()
    {
      if Completed? then finalized else Finalize(call, Execute(script), script)
    }
  }

  function EntryOf(tools: seq<Tool>, call: ToolCall, s: CallScript): (entry: Entry)
    ensures entry.Outcome() == OutcomeOf(tools, call, s)
    ensures entry.TheCall() == call
  {
    match Prepare(tools, call, s)
    case Immediate(output, isError) => Completed(Finalized(call, output, isError))
    case Prepared(_, _) => Deferred(call, s)
  }

  function Entries(tools: seq<Tool>, calls: seq<ToolCall>, scripts: nat -> CallScript): (entries: seq<Entry>)
    ensures |entries| == |calls|
    ensures forall i :: 0 <= i < |calls| ==> entries[i] == EntryOf(tools, calls[i], scripts(i))
  {
    seq(|calls|, i requires 0 <= i < |calls| => EntryOf(tools, calls[i], scripts(i)))
  }

  function StopsAfterPreparation(scripts: nat -> CallScript): nat -> bool {
    (i: nat) => scripts(i).abortedAfterPreparation
  }

  /** Preparation breaks after the first call that finds the signal aborted. */
  function ParallelReach(calls: seq<ToolCall>, scripts: nat -> CallScript): (reached: nat)
    ensures reached <= |calls|
    ensures |calls| > 0 ==> reached > 0
    ensures reached == |calls| <==> forall i :: 0 <= i < |calls| - 1 ==> !scripts(i).abortedAfterPreparation
  {
    assert forall i: nat :: StopsAfterPreparation(scripts)(i) == scripts(i).abortedAfterPreparation;
    Reach(|calls|, StopsAfterPreparation(scripts))
  }

  // ----- The machine -----

  datatype Phase = Waiting | Running | Settled(executed: Executed) | Finished(finalized: Finalized)

  datatype Action = Invoke(i: nat) | Callback(i: nat, partial: string) | Settle(i: nat) | Finish(i: nat)

  /** The phases after some steps, and the events those steps emitted. */
  datatype Machine = Machine(phases: seq<Phase>, events: seq<Event>)

  function Initial(entries: seq<Entry>): (phases: seq<Phase>)
    ensures |phases| == |entries|
    ensures forall i :: 0 <= i < |entries| ==>
              phases[i] == if entries[i].Completed? then Finished(entries[i].finalized) else Waiting
  {
    seq(|entries|, i requires 0 <= i < |entries| =>
      if entries[i].Completed? then Finished(entries[i].finalized) else Waiting)
  }

  function Act(entries: seq<Entry>, phases: seq<Phase>, a: Action): Machine {
    if a.i >= |entries| || a.i >= |phases| || entries[a.i].Completed? then Machine(phases, [])
    else
      var call, script := entries[a.i].call, entries[a.i].script;
      match (a, phases[a.i])
      case (Invoke(i), Waiting) => Machine(phases[i := Running], [])
      case (Callback(i, partial), Running) => Machine(phases, [ToolUpdate(call, partial)])
      case (Settle(i), Running) => Machine(phases[i := Settled(Execute(script))], [])
      case (Finish(i), Settled(executed)) =>
        var finalized := Finalize(call, executed, script);
        Machine(phases[i := Finished(finalized)], [finalized.End()])
      case _ => Machine(phases, [])
  }

  function RunAll(entries: seq<Entry>, phases: seq<Phase>, schedule: seq<Action>): Machine {
    if schedule == [] then Machine(phases, [])
    else
      var earlier := RunAll(entries, phases, schedule[..|schedule| - 1]);
      var step := Act(entries, earlier.phases, schedule[|schedule| - 1]);
      Machine(step.phases, earlier.events + step.events)
  }

  /** Steps that bring the first `n` calls to their end, from any state. */
  function Flush(n: nat): seq<Action> {
    if n == 0 then [] else Flush(n - 1) + [Invoke(n - 1), Settle(n - 1), Finish(n - 1)]
  }

  function Final(entries: seq<Entry>, schedule: seq<Action>): Machine {
    RunAll(entries, Initial(entries), schedule + Flush(|entries|))
  }

  /** The slots of the finished calls, in call order. */
  function Collect(phases: seq<Phase>): seq<Finalized> {
    if phases == [] then []
    else
      var n := |phases| - 1;
      Collect(phases[..n]) + (if phases[n].Finished? then [phases[n].finalized] else [])
  }

  function ParallelBatchOf(
      tools: seq<Tool>, calls: seq<ToolCall>, scripts: nat -> CallScript, schedule: seq<Action>): Batch {
    BatchOf(Collect(Final(Entries(tools, calls[..ParallelReach(calls, scripts)], scripts), schedule).phases))
  }

  // ----- What every schedule keeps -----

  ghost predicate Sound(entries: seq<Entry>, phases: seq<Phase>) {
    && |phases| == |entries|
    && forall i :: 0 <= i < |entries| ==> SoundPhase(entries[i], phases[i])
  }

  predicate SoundPhase(entry: Entry, phase: Phase) {
    match phase
    case Settled(executed) => entry.Deferred? && executed == Execute(entry.script)
    case Finished(finalized) => finalized == entry.Outcome()
    case _ => entry.Deferred?
  }

  lemma {:induction false} RunStaysSound(entries: seq<Entry>, phases: seq<Phase>, schedule: seq<Action>)
    requires Sound(entries, phases)
    ensures Sound(entries, RunAll(entries, phases, schedule).phases)
    ensures forall i :: 0 <= i < |entries| && phases[i].Finished? ==>
              RunAll(entries, phases, schedule).phases[i] == phases[i]
  {
    if schedule == [] {
    } else {
      hide Execute, Finalize;
      RunStaysSound(entries, phases, schedule[..|schedule| - 1]);
    }
  }

  lemma {:induction false} RunAppend(entries: seq<Entry>, phases: seq<Phase>, a: seq<Action>, b: seq<Action>)
    ensures var first := RunAll(entries, phases, a);
            var second := RunAll(entries, first.phases, b);
            RunAll(entries, phases, a + b) == Machine(second.phases, first.events + second.events)
  {
    if b == [] {
      assert a + b == a;
    } else {
      hide Act;
      var n := |b| - 1;
      RunAppend(entries, phases, a, b[..n]);
      assert (a + b)[..|a + b| - 1] == a + b[..n];
      var first := RunAll(entries, phases, a);
      var earlier := RunAll(entries, first.phases, b[..n]);
      Associate(first.events, earlier.events, Act(entries, earlier.phases, b[n]).events);
    }
  }

  lemma RunNext(entries: seq<Entry>, phases: seq<Phase>, schedule: seq<Action>, a: Action)
    ensures var earlier := RunAll(entries, phases, schedule);
            var step := Act(entries, earlier.phases, a);
            RunAll(entries, phases, schedule + [a]) == Machine(step.phases, earlier.events + step.events)
  {
    hide Act;
    assert (schedule + [a])[..|schedule|] == schedule;
  }

  /** From any sound state, three steps bring a call to its end. */
  lemma ThreeStepsFinish(entries: seq<Entry>, phases: seq<Phase>, i: nat)
    requires Sound(entries, phases) && i < |entries|
    ensures var done := RunAll(entries, phases, [Invoke(i), Settle(i), Finish(i)]).phases;
            |done| == |entries| && done[i].Finished?
  {
    hide Execute, Finalize, RunAll;
    RunNothing(entries, phases);
    RunNext(entries, phases, [], Invoke(i));
    RunNext(entries, phases, [Invoke(i)], Settle(i));
    RunNext(entries, phases, [Invoke(i), Settle(i)], Finish(i));
    assert [] + [Invoke(i)] == [Invoke(i)];
    assert [Invoke(i)] + [Settle(i)] == [Invoke(i), Settle(i)];
    assert [Invoke(i), Settle(i)] + [Finish(i)] == [Invoke(i), Settle(i), Finish(i)];
  }

  lemma RunNothing(entries: seq<Entry>, phases: seq<Phase>)
    ensures RunAll(entries, phases, []) == Machine(phases, [])
  {
  }

  lemma {:induction false} FlushFinishes(entries: seq<Entry>, phases: seq<Phase>, n: nat)
    requires Sound(entries, phases) && n <= |entries|
    ensures Sound(entries, RunAll(entries, phases, Flush(n)).phases)
    ensures forall i :: 0 <= i < n ==> RunAll(entries, phases, Flush(n)).phases[i].Finished?
  {
    hide Act, Execute, Finalize, RunAll;
    if n == 0 {
      RunNothing(entries, phases);
    } else {
      FlushFinishes(entries, phases, n - 1);
      var mid := RunAll(entries, phases, Flush(n - 1)).phases;
      var last := [Invoke(n - 1), Settle(n - 1), Finish(n - 1)];
      RunAppend(entries, phases, Flush(n - 1), last);
      RunStaysSound(entries, mid, last);
      ThreeStepsFinish(entries, mid, n - 1);
    }
  }

  /** Under every schedule each slot ends with the outcome of its own call. */
  lemma FinalPhases(entries: seq<Entry>, schedule: seq<Action>)
    ensures var phases := Final(entries, schedule).phases;
            && |phases| == |entries|
            && forall i :: 0 <= i < |entries| ==> phases[i] == Finished(entries[i].Outcome())
  {
    var first := RunAll(entries, Initial(entries), schedule);
    RunStaysSound(entries, Initial(entries), schedule);
    RunAppend(entries, Initial(entries), schedule, Flush(|entries|));
    FlushFinishes(entries, first.phases, |entries|);
  }

  lemma {:induction false} CollectFinished(phases: seq<Phase>, all: seq<Finalized>)
    requires |phases| == |all|
    requires forall i :: 0 <= i < |phases| ==> phases[i] == Finished(all[i])
    ensures Collect(phases) == all
  {
    if phases == [] {
    } else {
      CollectFinished(phases[..|phases| - 1], all[..|all| - 1]);
    }
  }

  /** Every schedule hands back the outcomes of the reached calls, in call order. */
  lemma ScheduleDoesNotMatter(
      tools: seq<Tool>, calls: seq<ToolCall>, scripts: nat -> CallScript, schedule: seq<Action>)
    ensures Collect(Final(Entries(tools, calls, scripts), schedule).phases) == Outcomes(tools, calls, scripts)
  {
    hide OutcomeOf;
    var entries := Entries(tools, calls, scripts);
    FinalPhases(entries, schedule);
    CollectFinished(Final(entries, schedule).phases, Outcomes(tools, calls, scripts));
  }

  lemma OutcomesPrefix(
      tools: seq<Tool>, calls: seq<ToolCall>, scripts: nat -> CallScript, p: nat, q: nat)
    requires p <= q <= |calls|
    ensures BatchOf(Outcomes(tools, calls[..p], scripts)).results
            <= BatchOf(Outcomes(tools, calls[..q], scripts)).results
    ensures |BatchOf(Outcomes(tools, calls[..p], scripts)).results| == p
    ensures |BatchOf(Outcomes(tools, calls[..q], scripts)).results| == q
  {
    hide OutcomeOf;
  }

  /**
   Parallel refines sequential. For every schedule, the two modes agree on the calls both reach; when no abort
   is seen at the loop checks they hand back the same results and the same terminate flag.
   */
  lemma ParallelRefinesSequential(
      tools: seq<Tool>, calls: seq<ToolCall>, scripts: nat -> CallScript, schedule: seq<Action>)
    ensures var parallel := ParallelBatchOf(tools, calls, scripts, schedule);
            var sequential := SequentialBatchOf(tools, calls, scripts);
            && (parallel.results <= sequential.results || sequential.results <= parallel.results)
            && ((forall i :: 0 <= i < |calls| ==>
                   !scripts(i).abortedAfterPreparation && !scripts(i).abortedAfterCall)
                ==> parallel == sequential && |parallel.results| == |calls|)
            && (ParallelReach(calls, scripts) == SequentialReach(calls, scripts) ==> parallel == sequential)
  {
    hide OutcomeOf, BatchOf, Final, Outcomes;
    var p, q := ParallelReach(calls, scripts), SequentialReach(calls, scripts);
    ScheduleDoesNotMatter(tools, calls[..p], scripts, schedule);
    if p <= q {
      OutcomesPrefix(tools, calls, scripts, p, q);
    } else {
      OutcomesPrefix(tools, calls, scripts, q, p);
    }
  }

  // ----- The events of a parallel batch -----

  /** Preparation announces each reached call, and ends those it settles. */
  function AnnounceEvents(entries: seq<Entry>): seq<Event> {
    if entries == [] then []
    else
      var n := |entries| - 1;
      AnnounceEvents(entries[..n]) + Announcement(entries[n])
  }

  function Announcement(entry: Entry): seq<Event> {
    [ToolStart(entry.TheCall())] + if entry.Completed? then [entry.finalized.End()] else []
  }

  function ParallelToolPart(entries: seq<Entry>, schedule: seq<Action>): seq<Event> {
    AnnounceEvents(entries) + Final(entries, schedule).events
  }

  function ParallelEvents(
      tools: seq<Tool>, calls: seq<ToolCall>, scripts: nat -> CallScript, schedule: seq<Action>): seq<Event> {
    ParallelToolPart(Entries(tools, calls, scripts), schedule)
    + Brackets(AsMessages(Results(Outcomes(tools, calls, scripts))))
  }

  // ----- The method -----

  /** Announce and prepare one call. */
  method PrepareEntry(tools: seq<Tool>, call: ToolCall, s: CallScript, sink: AgentState) returns (entry: Entry)
    requires sink.Valid()
    modifies sink, sink.messages
    ensures sink.Valid() && sink.messages == old(sink.messages) && sink.base == old(sink.base)
    ensures entry == EntryOf(tools, call, s)
    ensures sink.trace == old(sink.trace) + Announcement(entry)
  {
    hide ReduceAll;
    sink.Process(ToolStart(call));
    match Prepare(tools, call, s) {
      case Immediate(output, isError) =>
        var finalized := Finalized(call, output, isError);
        sink.Process(finalized.End());
        entry := Completed(finalized);
      case Prepared(_, _) =>
        entry := Deferred(call, s);
    }
  }

  lemma AnnounceNext(tools: seq<Tool>, calls: seq<ToolCall>, scripts: nat -> CallScript, k: nat)
    requires k < |calls|
    ensures var entry := EntryOf(tools, calls[k], scripts(k));
            var earlier := Entries(tools, calls[..k], scripts);
            && Entries(tools, calls[..k + 1], scripts) == earlier + [entry]
            && AnnounceEvents(earlier + [entry]) == AnnounceEvents(earlier) + Announcement(entry)
  {
    hide EntryOf, Announcement;
    var entry, earlier := EntryOf(tools, calls[k], scripts(k)), Entries(tools, calls[..k], scripts);
    assert (earlier + [entry])[..k] == earlier;
  }

  method PrepareAll(tools: seq<Tool>, calls: seq<ToolCall>, scripts: nat -> CallScript, sink: AgentState)
    returns (entries: seq<Entry>)
    requires sink.Valid()
    modifies sink, sink.messages
    ensures sink.Valid() && sink.messages == old(sink.messages) && sink.base == old(sink.base)
    ensures entries == Entries(tools, calls[..ParallelReach(calls, scripts)], scripts)
    ensures sink.trace == old(sink.trace) + AnnounceEvents(entries)
  {
    hide ReduceAll, EntryOf, Announcement;
    ghost var before := sink.trace;
    entries := [];
    var k := 0;
    var aborted := false;
    while k < |calls| && !aborted
      invariant k <= |calls|
      invariant sink.Valid() && sink.messages == old(sink.messages) && sink.base == old(sink.base)
      invariant entries == Entries(tools, calls[..k], scripts)
      invariant sink.trace == before + AnnounceEvents(entries)
      invariant forall i :: 0 <= i < k - 1 ==> !scripts(i).abortedAfterPreparation
      invariant k == 0 ==> !aborted
      invariant k > 0 ==> aborted == scripts(k - 1).abortedAfterPreparation
    {
      AnnounceNext(tools, calls, scripts, k);
      var entry := PrepareEntry(tools, calls[k], scripts(k), sink);
      Associate(before, AnnounceEvents(entries), Announcement(entry));
      entries := entries + [entry];
      aborted := scripts(k).abortedAfterPreparation;
      k := k + 1;
    }
    if k > 0 {
      ReachStops(|calls|, StopsAfterPreparation(scripts), k);
    }
  }

  /** One step of one concurrent call. `phases` holds each call's progress and its acceptance of updates. */
  method Perform(entries: seq<Entry>, phases: seq<Phase>, a: Action, sink: AgentState)
    returns (next: seq<Phase>)
    requires sink.Valid() && |phases| == |entries|
    modifies sink, sink.messages
    ensures sink.Valid() && sink.messages == old(sink.messages) && sink.base == old(sink.base)
    ensures next == Act(entries, phases, a).phases && |next| == |entries|
    ensures sink.trace == old(sink.trace) + Act(entries, phases, a).events
  {
    hide ReduceAll;
    next := phases;
    if a.i >= |entries| || entries[a.i].Completed? {
      return;
    }
    var call, script := entries[a.i].call, entries[a.i].script;
    match a {
      case Invoke(i) =>
        if phases[i].Waiting? {
          next := phases[i := Running];
        }
      case Callback(i, partial) =>
        OnUpdate(call, partial, phases[i].Running?, sink);
      case Settle(i) =>
        if phases[i].Running? {
          next := phases[i := Settled(Execute(script))];
        }
      case Finish(i) =>
        if phases[i].Settled? {
          var finalized := Finalize(call, phases[i].executed, script);
          sink.Process(finalized.End());
          next := phases[i := Finished(finalized)];
        }
    }
  }

  /** Wait for all calls, whatever the order in which their steps happen. */
  method AwaitAll(entries: seq<Entry>, schedule: seq<Action>, sink: AgentState) returns (all: seq<Finalized>)
    requires sink.Valid()
    modifies sink, sink.messages
    ensures sink.Valid() && sink.messages == old(sink.messages) && sink.base == old(sink.base)
    ensures all == Collect(Final(entries, schedule).phases)
    ensures sink.trace == old(sink.trace) + Final(entries, schedule).events
  {
    hide ReduceAll, Act;
    ghost var before := sink.trace;
    var complete := schedule + Flush(|entries|);
    var phases := Initial(entries);
    ghost var events := [];
    for k := 0 to |complete|
      invariant sink.Valid() && sink.messages == old(sink.messages) && sink.base == old(sink.base)
      invariant |phases| == |entries|
      invariant Machine(phases, events) == RunAll(entries, Initial(entries), complete[..k])
      invariant sink.trace == before + events
    {
      assert complete[..k + 1][..k] == complete[..k];
      Associate(before, events, Act(entries, phases, complete[k]).events);
      events := events + Act(entries, phases, complete[k]).events;
      phases := Perform(entries, phases, complete[k], sink);
    }
    assert complete[..|complete|] == complete;
    all := Collect(phases);
  }

  lemma BracketsNext(finalized: seq<Finalized>, k: nat)
    requires k < |finalized|
    ensures Results(finalized[..k + 1]) == Results(finalized[..k]) + [finalized[k].Result()]
    ensures Brackets(AsMessages(Results(finalized[..k + 1])))
            == Brackets(AsMessages(Results(finalized[..k]))) + Bracket(ToolResult(finalized[k].Result()))
  {
    var m := ToolResult(finalized[k].Result());
    BracketsAppend(AsMessages(Results(finalized[..k])), [m]);
    OneBracket(m);
    assert AsMessages(Results(finalized[..k + 1])) == AsMessages(Results(finalized[..k])) + [m];
  }

  method EmitResults(finalized: seq<Finalized>, sink: AgentState) returns (messages: seq<ToolResultMessage>)
    requires sink.Valid()
    modifies sink, sink.messages
    ensures sink.Valid() && sink.messages == old(sink.messages) && sink.base == old(sink.base)
    ensures messages == Results(finalized)
    ensures sink.trace == old(sink.trace) + Brackets(AsMessages(messages))
  {
    hide ReduceAll, Brackets;
    ghost var before := sink.trace;
    messages := [];
    assert AsMessages(Results(finalized[..0])) == [];
    NoBrackets();
    for k := 0 to |finalized|
      invariant sink.Valid() && sink.messages == old(sink.messages) && sink.base == old(sink.base)
      invariant messages == Results(finalized[..k])
      invariant sink.trace == before + Brackets(AsMessages(messages))
    {
      BracketsNext(finalized, k);
      Associate(before, Brackets(AsMessages(messages)), Bracket(ToolResult(finalized[k].Result())));
      sink.EmitBracket(ToolResult(finalized[k].Result()));
      messages := messages + [finalized[k].Result()];
    }
    assert finalized[..|finalized|] == finalized;
  }

  method ExecuteToolCallsParallel(
      tools: seq<Tool>, calls: seq<ToolCall>, scripts: nat -> CallScript, schedule: seq<Action>, sink: AgentState)
    returns (batch: Batch)
    requires sink.Valid()
    modifies sink, sink.messages
    ensures sink.Valid() && sink.messages == old(sink.messages) && sink.base == old(sink.base)
    ensures batch == ParallelBatchOf(tools, calls, scripts, schedule)
    ensures sink.trace
            == old(sink.trace) + ParallelEvents(tools, calls[..ParallelReach(calls, scripts)], scripts, schedule)
  {
    hide ReduceAll, Final;
    ghost var before := sink.trace;
    ghost var reached := calls[..ParallelReach(calls, scripts)];
    var entries := PrepareAll(tools, calls, scripts, sink);
    var finalized := AwaitAll(entries, schedule, sink);
    Associate(before, AnnounceEvents(entries), Final(entries, schedule).events);
    ScheduleDoesNotMatter(tools, reached, scripts, schedule);
    var messages := EmitResults(finalized, sink);
    Associate(before, ParallelToolPart(entries, schedule), Brackets(AsMessages(messages)));
    batch := Batch(messages, ShouldTerminate(finalized));
  }
}
