/** What the events of a parallel batch look like under every schedule. */
module ParallelTrace {
  import opened Messages
  import opened Events
  import opened ToolCalls
  import opened ParallelBatch

  // ----- A schedule seen by one call -----

  datatype Progress = NotInvoked | Executing | HasSettled

  /** How far a schedule has brought call `i`, looking at no other call. */
  function ProgressOf(schedule: seq<Action>, i: nat): Progress {
    if schedule == [] then NotInvoked
    else
      var n := |schedule| - 1;
      var earlier := ProgressOf(schedule[..n], i);
      if schedule[n] == Invoke(i) && earlier.NotInvoked? then Executing
      else if schedule[n] == Settle(i) && earlier.Executing? then HasSettled
      else earlier
  }

  /** The callbacks call `i` makes while its tool executes; earlier and later ones do not count. */
  function Accepted(schedule: seq<Action>, i: nat): seq<string> {
    if schedule == [] then []
    else
      var n := |schedule| - 1;
      var last := schedule[n];
      Accepted(schedule[..n], i)
      + if last.Callback? && last.i == i && ProgressOf(schedule[..n], i).Executing? then [last.partial] else []
  }

  lemma {:induction false} FlushAcceptsNothing(schedule: seq<Action>, tail: seq<Action>, i: nat)
    requires forall a :: a in tail ==> !a.Callback?
    ensures Accepted(schedule + tail, i) == Accepted(schedule, i)
  {
    if tail == [] {
      assert schedule + tail == schedule;
    } else {
      var n := |tail| - 1;
      FlushAcceptsNothing(schedule, tail[..n], i);
      assert (schedule + tail)[..|schedule + tail| - 1] == schedule + tail[..n];
      assert tail[n] in tail;
    }
  }

  lemma {:induction false} FlushHasNoCallbacks(n: nat)
    ensures forall a :: a in Flush(n) ==> !a.Callback?
  {
    if n == 0 {
    } else {
      FlushHasNoCallbacks(n - 1);
    }
  }

  // ----- One call's events -----

  /**
   An event and the call it is about, by position. Calls of one message may share an id, so the id in an event does
   not always tell whose event it is.
   */
  datatype Marked = Marked(call: nat, event: Event)

  function Mark(call: nat, events: seq<Event>): (marked: seq<Marked>)
    ensures |marked| == |events|
    ensures forall k :: 0 <= k < |events| ==> marked[k] == Marked(call, events[k])
  {
    seq(|events|, k requires 0 <= k < |events| => Marked(call, events[k]))
  }

  function Unmarked(marked: seq<Marked>): (events: seq<Event>)
    ensures |events| == |marked|
    ensures forall k :: 0 <= k < |events| ==> events[k] == marked[k].event
  {
    seq(|marked|, k requires 0 <= k < |marked| => marked[k].event)
  }

  /** The events of the call at position `i`. */
  function OfCall(marked: seq<Marked>, i: nat): seq<Event> {
    if marked == [] then []
    else
      var last := marked[|marked| - 1];
      OfCall(marked[..|marked| - 1], i) + if last.call == i then [last.event] else []
  }

  function MarkedAnnouncements(entries: seq<Entry>): seq<Marked> {
    if entries == [] then []
    else
      var n := |entries| - 1;
      MarkedAnnouncements(entries[..n]) + Mark(n, Announcement(entries[n]))
  }

  function MarkedRun(entries: seq<Entry>, phases: seq<Phase>, schedule: seq<Action>): seq<Marked> {
    if schedule == [] then []
    else
      var n := |schedule| - 1;
      var earlier := RunAll(entries, phases, schedule[..n]);
      MarkedRun(entries, phases, schedule[..n])
      + Mark(schedule[n].i, Act(entries, earlier.phases, schedule[n]).events)
  }

  function MarkedToolPart(entries: seq<Entry>, schedule: seq<Action>): seq<Marked> {
    MarkedAnnouncements(entries) + MarkedRun(entries, Initial(entries), schedule + Flush(|entries|))
  }

  lemma {:induction false} OfCallAppend(a: seq<Marked>, b: seq<Marked>, i: nat)
    ensures OfCall(a + b, i) == OfCall(a, i) + OfCall(b, i)
  {
    if b == [] {
      assert a + b == a;
    } else {
      OfCallAppend(a, b[..|b| - 1], i);
      assert (a + b)[..|a + b| - 1] == a + b[..|b| - 1];
    }
  }

  lemma {:induction false} OfCallMark(call: nat, events: seq<Event>, i: nat)
    ensures OfCall(Mark(call, events), i) == if call == i then events else []
  {
    if events == [] {
    } else {
      var n := |events| - 1;
      OfCallMark(call, events[..n], i);
      MarkNext(call, events);
      hide Mark, OfCall;
      OfCallAppend(Mark(call, events[..n]), [Marked(call, events[n])], i);
      OfCallOne(Marked(call, events[n]), i);
      assert events == events[..n] + [events[n]];
    }
  }

  lemma MarkNext(call: nat, events: seq<Event>)
    requires events != []
    ensures var n := |events| - 1;
            Mark(call, events) == Mark(call, events[..n]) + [Marked(call, events[n])]
  {
  }

  lemma OfCallOne(marked: Marked, i: nat)
    ensures OfCall([marked], i) == if marked.call == i then [marked.event] else []
  {
    assert [marked][..0] == [];
  }

  lemma {:induction false} MarksOfAnnouncements(entries: seq<Entry>)
    ensures Unmarked(MarkedAnnouncements(entries)) == AnnounceEvents(entries)
  {
    if entries == [] {
    } else {
      hide Announcement;
      MarksOfAnnouncements(entries[..|entries| - 1]);
    }
  }

  lemma {:induction false} MarksOfRun(entries: seq<Entry>, phases: seq<Phase>, schedule: seq<Action>)
    ensures Unmarked(MarkedRun(entries, phases, schedule)) == RunAll(entries, phases, schedule).events
  {
    if schedule == [] {
    } else {
      hide Act;
      MarksOfRun(entries, phases, schedule[..|schedule| - 1]);
    }
  }

  /** What the concurrent part has emitted about a deferred call so far. */
  function EmittedBy(entry: Entry, phase: Phase, accepted: seq<string>): seq<Event> {
    CallUpdates(entry.TheCall(), accepted) + if phase.Finished? then [phase.finalized.End()] else []
  }

  predicate InStep(phase: Phase, progress: Progress) {
    match progress
    case NotInvoked => phase.Waiting?
    case Executing => phase.Running?
    case HasSettled => phase.Settled? || phase.Finished?
  }

  lemma {:induction false} CallEventsUnderSchedule(entries: seq<Entry>, schedule: seq<Action>, i: nat)
    requires i < |entries| && entries[i].Deferred?
    ensures var m := RunAll(entries, Initial(entries), schedule);
            && Sound(entries, m.phases)
            && InStep(m.phases[i], ProgressOf(schedule, i))
            && OfCall(MarkedRun(entries, Initial(entries), schedule), i)
               == EmittedBy(entries[i], m.phases[i], Accepted(schedule, i))
  {
    RunStaysSound(entries, Initial(entries), schedule);
    if schedule == [] {
    } else {
      hide Act, EmittedBy, InStep, OfCall;
      var n := |schedule| - 1;
      CallEventsUnderSchedule(entries, schedule[..n], i);
      var earlier := RunAll(entries, Initial(entries), schedule[..n]);
      var step := Act(entries, earlier.phases, schedule[n]);
      OfCallAppend(MarkedRun(entries, Initial(entries), schedule[..n]), Mark(schedule[n].i, step.events), i);
      OfCallMark(schedule[n].i, step.events, i);
      StepKeepsInStep(entries, earlier.phases, schedule, i);
      StepEvents(entries, earlier.phases, schedule[n], i, ProgressOf(schedule[..n], i),
                 Accepted(schedule[..n], i));
    }
  }

  lemma StepKeepsInStep(entries: seq<Entry>, phases: seq<Phase>, schedule: seq<Action>, i: nat)
    requires schedule != [] && i < |entries| == |phases| && entries[i].Deferred?
    requires InStep(phases[i], ProgressOf(schedule[..|schedule| - 1], i))
    ensures var step := Act(entries, phases, schedule[|schedule| - 1]);
            |step.phases| == |entries| && InStep(step.phases[i], ProgressOf(schedule, i))
  {
    hide Execute, Finalize;
  }

  /** A step emits at most one event, and only about its own call. */
  lemma ActEvents(entries: seq<Entry>, phases: seq<Phase>, a: Action)
    ensures forall e :: e in Act(entries, phases, a).events ==>
              && a.i < |entries|
              && e.ForTool(entries[a.i].Id()) && (e.ToolUpdate? || e.ToolEnd?)
              && forall id: string :: id != entries[a.i].Id() ==> !e.ForTool(id)
  {
    hide Execute, Finalize;
  }

  lemma StepEvents(
      entries: seq<Entry>, phases: seq<Phase>, a: Action, i: nat, progress: Progress, accepted: seq<string>)
    requires i < |entries| && entries[i].Deferred?
    requires Sound(entries, phases) && InStep(phases[i], progress)
    ensures var step := Act(entries, phases, a);
            var more := if a.Callback? && a.i == i && progress.Executing? then [a.partial] else [];
            && |step.phases| == |entries|
            && EmittedBy(entries[i], phases[i], accepted) + (if a.i == i then step.events else [])
               == EmittedBy(entries[i], step.phases[i], accepted + more)
  {
    hide Execute, Finalize;
    if a.i == i && a.Callback? && progress.Executing? {
      assert (accepted + [a.partial])[..|accepted|] == accepted;
    } else {
      assert accepted + [] == accepted;
    }
  }

  lemma {:induction false} AnnouncedEvents(entries: seq<Entry>, i: nat)
    ensures OfCall(MarkedAnnouncements(entries), i) == if i < |entries| then Announcement(entries[i]) else []
  {
    if entries == [] {
    } else {
      hide Announcement, OfCall;
      var n := |entries| - 1;
      AnnouncedEvents(entries[..n], i);
      OfCallAppend(MarkedAnnouncements(entries[..n]), Mark(n, Announcement(entries[n])), i);
      OfCallMark(n, Announcement(entries[n]), i);
    }
  }

  lemma AnnouncementShape(entry: Entry)
    ensures forall e :: e in Announcement(entry) ==> e.ForTool(entry.Id()) && (e.ToolStart? || e.ToolEnd?)
    ensures forall e, id: string :: e in Announcement(entry) && id != entry.Id() ==> !e.ForTool(id)
  {
  }

  /** The concurrent part never mentions a call that was settled during preparation. */
  lemma {:induction false} SettledCallsAreSilent(
      entries: seq<Entry>, phases: seq<Phase>, schedule: seq<Action>, i: nat)
    requires i < |entries| && entries[i].Completed?
    ensures OfCall(MarkedRun(entries, phases, schedule), i) == []
  {
    if schedule == [] {
    } else {
      hide Act, OfCall;
      var n := |schedule| - 1;
      SettledCallsAreSilent(entries, phases, schedule[..n], i);
      var earlier := RunAll(entries, phases, schedule[..n]);
      var step := Act(entries, earlier.phases, schedule[n]);
      OfCallAppend(MarkedRun(entries, phases, schedule[..n]), Mark(schedule[n].i, step.events), i);
      OfCallMark(schedule[n].i, step.events, i);
      if schedule[n].i == i {
        SettledCallActsNot(entries, earlier.phases, schedule[n], i);
      }
    }
  }

  lemma SettledCallActsNot(entries: seq<Entry>, phases: seq<Phase>, a: Action, i: nat)
    requires i < |entries| && entries[i].Completed? && a.i == i
    ensures Act(entries, phases, a).events == []
  {
  }

  /** The events of one call, in an interleaving of all of them. */
  function LifecycleOf(entry: Entry, accepted: seq<string>): seq<Event> {
    [ToolStart(entry.TheCall())]
    + (if entry.Deferred? then CallUpdates(entry.TheCall(), accepted) else [])
    + [entry.Outcome().End()]
  }

  /**
   Under every schedule, and whatever the ids, the tool events of a batch fall apart into those of its calls: each
   reached call has exactly one start, then its accepted updates, then exactly one end with its own outcome;
   callbacks before the tool was invoked or after it settled leave no event.
   */
  lemma ParallelBracketing(entries: seq<Entry>, schedule: seq<Action>, i: nat)
    requires i < |entries|
    ensures Unmarked(MarkedToolPart(entries, schedule)) == ParallelToolPart(entries, schedule)
    ensures OfCall(MarkedToolPart(entries, schedule), i) == LifecycleOf(entries[i], Accepted(schedule, i))
  {
    hide Execute, Finalize, RunAll, Accepted, OfCall, AnnounceEvents, MarkedAnnouncements, MarkedRun;
    var complete := schedule + Flush(|entries|);
    MarksOfAnnouncements(entries);
    MarksOfRun(entries, Initial(entries), complete);
    OfCallAppend(MarkedAnnouncements(entries), MarkedRun(entries, Initial(entries), complete), i);
    AnnouncedEvents(entries, i);
    FlushHasNoCallbacks(|entries|);
    FlushAcceptsNothing(schedule, Flush(|entries|), i);
    if entries[i].Deferred? {
      CallEventsUnderSchedule(entries, complete, i);
      FinalPhases(entries, schedule);
    } else {
      SettledCallsAreSilent(entries, Initial(entries), complete, i);
    }
  }

  // ----- One id's events -----

  /** Every marked event bears the id of its call. */
  ghost predicate BearIds(entries: seq<Entry>, marked: seq<Marked>) {
    forall m :: m in marked ==>
      m.call < |entries| && forall id: string :: m.event.ForTool(id) <==> entries[m.call].Id() == id
  }

  lemma {:induction false} AnnouncementsBearIds(entries: seq<Entry>, n: nat)
    requires n <= |entries|
    ensures BearIds(entries, MarkedAnnouncements(entries[..n]))
  {
    if n == 0 {
    } else {
      hide Announcement;
      assert entries[..n][..n - 1] == entries[..n - 1];
      AnnouncementsBearIds(entries, n - 1);
      AnnouncementShape(entries[n - 1]);
      MarkBearsId(entries, n - 1, Announcement(entries[n - 1]));
    }
  }

  lemma MarkBearsId(entries: seq<Entry>, call: nat, events: seq<Event>)
    requires forall e :: e in events ==>
               call < |entries| && forall id: string :: e.ForTool(id) <==> entries[call].Id() == id
    ensures BearIds(entries, Mark(call, events))
  {
    forall m | m in Mark(call, events)
      ensures m.call < |entries| && forall id: string :: m.event.ForTool(id) <==> entries[m.call].Id() == id
    {
      var k :| 0 <= k < |events| && Mark(call, events)[k] == m;
      assert events[k] in events;
    }
  }

  lemma {:induction false} RunBearsIds(entries: seq<Entry>, phases: seq<Phase>, schedule: seq<Action>)
    ensures BearIds(entries, MarkedRun(entries, phases, schedule))
  {
    if schedule == [] {
    } else {
      hide Act;
      var n := |schedule| - 1;
      var earlier := RunAll(entries, phases, schedule[..n]);
      RunBearsIds(entries, phases, schedule[..n]);
      ActEvents(entries, earlier.phases, schedule[n]);
      MarkBearsId(entries, schedule[n].i, Act(entries, earlier.phases, schedule[n]).events);
    }
  }

  /** No other call bears the id of the call at `i`. */
  ghost predicate UniqueId(entries: seq<Entry>, i: nat)
    requires i < |entries|
  {
    forall j :: 0 <= j < |entries| && j != i ==> entries[j].Id() != entries[i].Id()
  }

  lemma {:induction false} UniqueIdTells(entries: seq<Entry>, marked: seq<Marked>, i: nat)
    requires i < |entries| && UniqueId(entries, i) && BearIds(entries, marked)
    ensures ToolEvents(Unmarked(marked), entries[i].Id()) == OfCall(marked, i)
  {
    if marked == [] {
    } else {
      var n := |marked| - 1;
      assert marked[n] in marked;
      assert BearIds(entries, marked[..n]);
      UniqueIdTells(entries, marked[..n], i);
      assert Unmarked(marked)[..n] == Unmarked(marked[..n]);
    }
  }

  lemma WithIdNext(calls: seq<ToolCall>, call: ToolCall, id: string)
    ensures WithId(calls + [call], id) == WithId(calls, id) + if call.id == id then [call] else []
  {
    assert (calls + [call])[..|calls|] == calls;
  }

  lemma StartedNext(trace: seq<Event>, e: Event)
    ensures StartedCalls(trace + [e]) == StartedCalls(trace) + if e.ToolStart? then [e.call] else []
  {
    assert (trace + [e])[..|trace|] == trace;
  }

  lemma StartsOfIdNext(about: seq<Event>, started: seq<ToolCall>, e: Event, id: string)
    requires StartedCalls(about) == WithId(started, id)
    ensures StartedCalls(about + if e.ForTool(id) then [e] else [])
            == WithId(started + (if e.ToolStart? then [e.call] else []), id)
  {
    hide StartedCalls, WithId;
    StartedNext(about, e);
    if e.ToolStart? {
      WithIdNext(started, e.call, id);
    } else {
      assert started + [] == started;
    }
    if !e.ForTool(id) {
      assert about + [] == about;
    }
    assert WithId(started, id) + [] == WithId(started, id);
  }

  lemma {:induction false} StartsOfId(trace: seq<Event>, id: string)
    ensures StartedCalls(ToolEvents(trace, id)) == WithId(StartedCalls(trace), id)
  {
    if trace == [] {
    } else {
      hide WithId;
      var n := |trace| - 1;
      StartsOfId(trace[..n], id);
      StartsOfIdNext(ToolEvents(trace[..n], id), StartedCalls(trace[..n]), trace[n], id);
    }
  }

  function WithId(calls: seq<ToolCall>, id: string): seq<ToolCall> {
    if calls == [] then []
    else
      var last := calls[|calls| - 1];
      WithId(calls[..|calls| - 1], id) + if last.id == id then [last] else []
  }

  lemma {:induction false} OneWithId(calls: seq<ToolCall>, i: nat)
    requires i < |calls|
    ensures WithId(calls, calls[i].id) != []
    ensures |WithId(calls, calls[i].id)| == 1 ==>
              forall j :: 0 <= j < |calls| && j != i ==> calls[j].id != calls[i].id
    decreases calls
  {
    var n := |calls| - 1;
    if i == n {
      if WithId(calls[..n], calls[n].id) == [] {
        NoneWithId(calls[..n], calls[n].id);
      }
    } else {
      OneWithId(calls[..n], i);
    }
  }

  lemma {:induction false} NoneWithId(calls: seq<ToolCall>, id: string)
    requires WithId(calls, id) == []
    ensures forall j :: 0 <= j < |calls| ==> calls[j].id != id
  {
    if calls == [] {
    } else {
      NoneWithId(calls[..|calls| - 1], id);
    }
  }

  /**
   The events with the id of a call are the lifecycle of that call exactly when no other reached call bears the id.
   */
  lemma IdTellsCallExactly(entries: seq<Entry>, schedule: seq<Action>, i: nat)
    requires i < |entries|
    ensures ToolEvents(ParallelToolPart(entries, schedule), entries[i].Id())
            == LifecycleOf(entries[i], Accepted(schedule, i))
            <==> UniqueId(entries, i)
  {
    hide Accepted, OfCall, MarkedAnnouncements, MarkedRun, ToolEvents, AnnounceEvents, StartedCalls, RunAll;
    var marked, complete := MarkedToolPart(entries, schedule), schedule + Flush(|entries|);
    ParallelBracketing(entries, schedule, i);
    if UniqueId(entries, i) {
      assert entries[..|entries|] == entries;
      AnnouncementsBearIds(entries, |entries|);
      RunBearsIds(entries, Initial(entries), complete);
      UniqueIdTells(entries, marked, i);
    }
    var trace := ParallelToolPart(entries, schedule);
    if ToolEvents(trace, entries[i].Id()) == LifecycleOf(entries[i], Accepted(schedule, i)) {
      StartsOfId(trace, entries[i].Id());
      LifecycleStartsOnce(entries[i], Accepted(schedule, i));
      ToolPartStarts(entries, schedule);
      OneWithId(CallsOf(entries), i);
      assert forall j :: 0 <= j < |entries| ==> CallsOf(entries)[j].id == entries[j].Id();
    }
  }

  lemma LifecycleStartsOnce(entry: Entry, accepted: seq<string>)
    ensures StartedCalls(LifecycleOf(entry, accepted)) == [entry.TheCall()]
  {
    hide StartedCalls;
    var start := [ToolStart(entry.TheCall())];
    var updates := if entry.Deferred? then CallUpdates(entry.TheCall(), accepted) else [];
    CallUpdatesAreUpdates(entry.TheCall(), accepted);
    NothingStarted(updates);
    NothingStarted([entry.Outcome().End()]);
    OneStarted(entry.TheCall());
    StartedAppend(start, updates);
    StartedAppend(start + updates, [entry.Outcome().End()]);
  }

  lemma OneStarted(call: ToolCall)
    ensures StartedCalls([ToolStart(call)]) == [call]
  {
    assert [ToolStart(call)][..0] == [];
  }

  lemma ToolPartStarts(entries: seq<Entry>, schedule: seq<Action>)
    ensures StartedCalls(ParallelToolPart(entries, schedule)) == CallsOf(entries)
  {
    hide StartedCalls, AnnounceEvents, RunAll;
    var concurrent := Final(entries, schedule).events;
    AnnouncedInOrder(entries);
    ConcurrentPartOnlyUpdatesAndEnds(entries, Initial(entries), schedule + Flush(|entries|));
    NothingStarted(concurrent);
    StartedAppend(AnnounceEvents(entries), concurrent);
  }

  // ----- The order of starts, ends and results -----

  function StartedCalls(trace: seq<Event>): seq<ToolCall> {
    if trace == [] then []
    else
      var last := trace[|trace| - 1];
      StartedCalls(trace[..|trace| - 1]) + if last.ToolStart? then [last.call] else []
  }

  lemma {:induction false} StartedAppend(a: seq<Event>, b: seq<Event>)
    ensures StartedCalls(a + b) == StartedCalls(a) + StartedCalls(b)
  {
    if b == [] {
      assert a + b == a;
    } else {
      StartedAppend(a, b[..|b| - 1]);
      assert (a + b)[..|a + b| - 1] == a + b[..|b| - 1];
    }
  }

  lemma {:induction false} NothingStarted(trace: seq<Event>)
    requires forall e :: e in trace ==> !e.ToolStart?
    ensures StartedCalls(trace) == []
  {
    if trace == [] {
    } else {
      NothingStarted(trace[..|trace| - 1]);
    }
  }

  function CallsOf(entries: seq<Entry>): (calls: seq<ToolCall>)
    ensures |calls| == |entries|
    ensures forall i :: 0 <= i < |entries| ==> calls[i] == entries[i].TheCall()
  {
    seq(|entries|, i requires 0 <= i < |entries| => entries[i].TheCall())
  }

  lemma {:induction false} AnnouncedInOrder(entries: seq<Entry>)
    ensures StartedCalls(AnnounceEvents(entries)) == CallsOf(entries)
  {
    hide Announcement, StartedCalls;
    if entries == [] {
      NothingStarted([]);
    } else {
      var n := |entries| - 1;
      AnnouncedInOrder(entries[..n]);
      StartedAppend(AnnounceEvents(entries[..n]), Announcement(entries[n]));
      AnnouncementStarts(entries[n]);
      assert CallsOf(entries) == CallsOf(entries[..n]) + [entries[n].TheCall()];
    }
  }

  lemma {:induction false} AnnouncedAreBoundaries(entries: seq<Entry>)
    ensures forall e :: e in AnnounceEvents(entries) ==> e.ToolStart? || e.ToolEnd?
  {
    hide Announcement;
    if entries == [] {
    } else {
      AnnouncedAreBoundaries(entries[..|entries| - 1]);
      AnnouncementShape(entries[|entries| - 1]);
    }
  }

  lemma AnnouncementStarts(entry: Entry)
    ensures StartedCalls(Announcement(entry)) == [entry.TheCall()]
  {
    var start := [ToolStart(entry.TheCall())];
    var rest := if entry.Completed? then [entry.finalized.End()] else [];
    StartedAppend(start, rest);
    NothingStarted(rest);
    OneStarted(entry.TheCall());
  }

  lemma {:induction false} ConcurrentPartOnlyUpdatesAndEnds(
      entries: seq<Entry>, phases: seq<Phase>, schedule: seq<Action>)
    ensures forall e :: e in RunAll(entries, phases, schedule).events ==> e.ToolUpdate? || e.ToolEnd?
  {
    if schedule == [] {
    } else {
      hide Act;
      var earlier := schedule[..|schedule| - 1];
      ConcurrentPartOnlyUpdatesAndEnds(entries, phases, earlier);
      ActEvents(entries, RunAll(entries, phases, earlier).phases, schedule[|schedule| - 1]);
    }
  }

  /**
   Under every schedule the starts follow source order, and every tool event comes before the first result
   message: the batch is a part without message events followed by a part without tool events.
   */
  lemma StartsInOrderResultsLast(
      tools: seq<Tool>, calls: seq<ToolCall>, scripts: nat -> CallScript, schedule: seq<Action>)
    returns (split: nat)
    ensures var events := ParallelEvents(tools, calls, scripts, schedule);
            && StartedCalls(events) == calls
            && split <= |events|
            && (forall i :: 0 <= i < split ==> events[i].ToolStart? || events[i].ToolUpdate? || events[i].ToolEnd?)
            && (forall i :: split <= i < |events| ==> events[i].MessageStart? || events[i].MessageEnd?)
  {
    hide OutcomeOf, EntryOf, AnnounceEvents, RunAll, StartedCalls, Brackets;
    var entries := Entries(tools, calls, scripts);
    var complete := schedule + Flush(|entries|);
    var announced, concurrent := AnnounceEvents(entries), RunAll(entries, Initial(entries), complete).events;
    var results := Brackets(AsMessages(Results(Outcomes(tools, calls, scripts))));
    AnnouncedAreBoundaries(entries);
    ConcurrentPartOnlyUpdatesAndEnds(entries, Initial(entries), complete);
    BracketsHaveNoToolEvents(AsMessages(Results(Outcomes(tools, calls, scripts))));
    ToolPartStarts(entries, schedule);
    StartedAppend(announced + concurrent, results);
    NothingStarted(results);
    assert CallsOf(entries) == calls;
    split := |announced + concurrent|;
    assert ParallelEvents(tools, calls, scripts, schedule) == (announced + concurrent) + results;
    assert forall i :: 0 <= i < split ==> (announced + concurrent)[i] in announced + concurrent;
    assert forall i :: 0 <= i < |results| ==> results[i] in results;
  }

  lemma ParallelDelivers(
      tools: seq<Tool>, calls: seq<ToolCall>, scripts: nat -> CallScript, schedule: seq<Action>)
    ensures Delivered(ParallelEvents(tools, calls, scripts, schedule))
            == AsMessages(Results(Outcomes(tools, calls, scripts)))
  {
    hide OutcomeOf, EntryOf, AnnounceEvents, RunAll, Brackets;
    var entries := Entries(tools, calls, scripts);
    var messages := AsMessages(Results(Outcomes(tools, calls, scripts)));
    AnnouncedAreBoundaries(entries);
    ConcurrentPartOnlyUpdatesAndEnds(entries, Initial(entries), schedule + Flush(|entries|));
    DeliversNothing(ParallelToolPart(entries, schedule));
    DeliveredAppend(ParallelToolPart(entries, schedule), Brackets(messages));
    DeliveredBrackets(messages);
  }

  // ----- The monitor -----

  /** The ids of the calls that are not finished. */
  function Unfinished(entries: seq<Entry>, phases: seq<Phase>): set<string> {
    set i | 0 <= i < |entries| && i < |phases| && !phases[i].Finished? :: entries[i].Id()
  }

  /** No call bears the id of an earlier one that was not settled during preparation. */
  ghost predicate FreshIds(entries: seq<Entry>) {
    forall i, j :: 0 <= i < j < |entries| && entries[i].Deferred? ==> entries[i].Id() != entries[j].Id()
  }

  lemma UnfinishedWithout(entries: seq<Entry>, phases: seq<Phase>, i: nat, f: Finalized)
    requires FreshIds(entries) && Sound(entries, phases) && i < |entries| && entries[i].Deferred?
    ensures Unfinished(entries, phases[i := Finished(f)]) == Unfinished(entries, phases) - {entries[i].Id()}
  {
    var after := phases[i := Finished(f)];
    forall id | id in Unfinished(entries, phases) - {entries[i].Id()} ensures id in Unfinished(entries, after) {
      var j :| 0 <= j < |entries| && !phases[j].Finished? && entries[j].Id() == id;
      assert !after[j].Finished?;
    }
    forall id | id in Unfinished(entries, after) ensures id in Unfinished(entries, phases) - {entries[i].Id()} {
      var j :| 0 <= j < |entries| && !after[j].Finished? && entries[j].Id() == id;
      assert j != i && !phases[j].Finished?;
      assert SoundPhase(entries[j], phases[j]);
    }
  }

  lemma UnfinishedSame(entries: seq<Entry>, phases: seq<Phase>, i: nat, p: Phase)
    requires |phases| == |entries| && i < |entries| && !phases[i].Finished? && !p.Finished?
    ensures Unfinished(entries, phases[i := p]) == Unfinished(entries, phases)
  {
    assert forall j :: 0 <= j < |entries| ==> phases[i := p][j].Finished? == phases[j].Finished?;
  }

  lemma WatchStep(turns: nat, entries: seq<Entry>, phases: seq<Phase>, a: Action)
    requires FreshIds(entries) && Sound(entries, phases)
    ensures var step := Act(entries, phases, a);
            Watch(InTurn(turns, false, Unfinished(entries, phases)), step.events)
            == InTurn(turns, false, Unfinished(entries, step.phases))
  {
    hide Execute, Finalize;
    var step := Act(entries, phases, a);
    var m := InTurn(turns, false, Unfinished(entries, phases));
    if a.i < |entries| && entries[a.i].Deferred? {
      var i, call := a.i, entries[a.i].call;
      match (a, phases[i])
      case (Invoke(_), Waiting) => UnfinishedSame(entries, phases, i, Running);
      case (Callback(_, partial), Running) =>
        assert entries[i].Id() in Unfinished(entries, phases);
        WatchOne(m, ToolUpdate(call, partial));
      case (Settle(_), Running) => UnfinishedSame(entries, phases, i, Settled(Execute(entries[i].script)));
      case (Finish(_), Settled(executed)) =>
        var f := Finalize(call, executed, entries[i].script);
        assert entries[i].Id() in Unfinished(entries, phases);
        UnfinishedWithout(entries, phases, i, f);
        WatchOne(m, f.End());
      case _ =>
    }
  }

  lemma {:induction false} WatchConcurrent(turns: nat, entries: seq<Entry>, phases: seq<Phase>, schedule: seq<Action>)
    requires FreshIds(entries) && Sound(entries, phases)
    ensures var m := RunAll(entries, phases, schedule);
            Watch(InTurn(turns, false, Unfinished(entries, phases)), m.events)
            == InTurn(turns, false, Unfinished(entries, m.phases))
  {
    if schedule == [] {
      WatchNothing(InTurn(turns, false, Unfinished(entries, phases)));
    } else {
      hide Act, Watch, Unfinished, FreshIds, Sound;
      var n := |schedule| - 1;
      WatchConcurrent(turns, entries, phases, schedule[..n]);
      var earlier := RunAll(entries, phases, schedule[..n]);
      RunStaysSound(entries, phases, schedule[..n]);
      WatchStep(turns, entries, earlier.phases, schedule[n]);
      WatchAppend(InTurn(turns, false, Unfinished(entries, phases)), earlier.events,
                  Act(entries, earlier.phases, schedule[n]).events);
    }
  }

  lemma UnfinishedNext(entries: seq<Entry>, n: nat)
    requires n < |entries|
    ensures Unfinished(entries[..n + 1], Initial(entries[..n + 1]))
            == Unfinished(entries[..n], Initial(entries[..n]))
               + (if entries[n].Completed? then {} else {entries[n].Id()})
  {
    var a, b := entries[..n], entries[..n + 1];
    forall id | id in Unfinished(b, Initial(b))
      ensures id in Unfinished(a, Initial(a)) + (if entries[n].Completed? then {} else {entries[n].Id()})
    {
      var j :| 0 <= j < |b| && !Initial(b)[j].Finished? && b[j].Id() == id;
      if j < n {
        assert !Initial(a)[j].Finished? && a[j].Id() == id;
      }
    }
    forall id | id in Unfinished(a, Initial(a)) ensures id in Unfinished(b, Initial(b)) {
      var j :| 0 <= j < |a| && !Initial(a)[j].Finished? && a[j].Id() == id;
      assert !Initial(b)[j].Finished? && b[j].Id() == id;
    }
    if entries[n].Deferred? {
      assert !Initial(b)[n].Finished? && b[n].Id() == entries[n].Id();
    }
  }

  lemma FreshNext(entries: seq<Entry>)
    requires entries != []
    ensures var n := |entries| - 1;
            FreshIds(entries)
            <==> FreshIds(entries[..n]) && entries[n].Id() !in Unfinished(entries[..n], Initial(entries[..n]))
  {
    var n := |entries| - 1;
    var front := entries[..n];
    if FreshIds(entries) {
      assert forall i :: 0 <= i < n ==> front[i] == entries[i];
    }
    if FreshIds(front) && entries[n].Id() !in Unfinished(front, Initial(front)) {
      forall i, j | 0 <= i < j < |entries| && entries[i].Deferred? ensures entries[i].Id() != entries[j].Id() {
        assert front[i] == entries[i] && !Initial(front)[i].Finished?;
        assert front[i].Id() in Unfinished(front, Initial(front));
        assert j < n ==> front[j] == entries[j];
      }
    }
  }

  lemma {:induction false} WatchAnnounced(turns: nat, entries: seq<Entry>)
    ensures Watch(InTurn(turns, false, {}), AnnounceEvents(entries))
            == if FreshIds(entries) then InTurn(turns, false, Unfinished(entries, Initial(entries))) else Rejected
  {
    if entries == [] {
      assert Unfinished(entries, Initial(entries)) == {};
    } else {
      hide Watch, Unfinished, FreshIds, Announcement;
      var n := |entries| - 1;
      WatchAnnounced(turns, entries[..n]);
      FreshNext(entries);
      WatchAppend(InTurn(turns, false, {}), AnnounceEvents(entries[..n]), Announcement(entries[n]));
      if FreshIds(entries[..n]) {
        WatchAnnouncement(turns, Unfinished(entries[..n], Initial(entries[..n])), entries[n]);
      } else {
        StaysRejected(Announcement(entries[n]));
      }
      UnfinishedNext(entries, n);
      assert entries[..n + 1] == entries;
    }
  }

  lemma WatchAnnouncement(turns: nat, ids: set<string>, entry: Entry)
    ensures Watch(InTurn(turns, false, ids), Announcement(entry))
            == if entry.Id() in ids then Rejected
               else InTurn(turns, false, ids + (if entry.Completed? then {} else {entry.Id()}))
  {
    hide Watch;
    var m, busy := InTurn(turns, false, ids), InTurn(turns, false, ids + {entry.Id()});
    var start := [ToolStart(entry.TheCall())];
    WatchOne(m, start[0]);
    if entry.Completed? {
      var end := entry.finalized.End();
      WatchAppend(m, start, [end]);
      WatchOne(Watch(m, start), end);
      assert entry.Id() !in ids ==> ids + {entry.Id()} - {entry.Id()} == ids + {};
    } else {
      assert start + [] == start;
    }
  }

  /**
   Under every schedule the monitor accepts a batch exactly when no call bears the id of an earlier one that was not
   settled during preparation; no call is then left running before the results.
   */
  lemma WatchParallel(
      turns: nat, tools: seq<Tool>, calls: seq<ToolCall>, scripts: nat -> CallScript, schedule: seq<Action>)
    ensures Watch(InTurn(turns, false, {}), ParallelEvents(tools, calls, scripts, schedule))
            == if FreshIds(Entries(tools, calls, scripts)) then InTurn(turns, false, {}) else Rejected
  {
    hide OutcomeOf, EntryOf, Watch, RunAll, AnnounceEvents, Brackets, FreshIds;
    var entries := Entries(tools, calls, scripts);
    var m, results := InTurn(turns, false, {}), Brackets(AsMessages(Results(Outcomes(tools, calls, scripts))));
    WatchAppend(m, ParallelToolPart(entries, schedule), results);
    WatchAppend(m, AnnounceEvents(entries), Final(entries, schedule).events);
    WatchAnnounced(turns, entries);
    if FreshIds(entries) {
      InitialIsSound(entries);
      WatchConcurrent(turns, entries, Initial(entries), schedule + Flush(|entries|));
      FinalPhases(entries, schedule);
      assert Unfinished(entries, Final(entries, schedule).phases) == {};
      WatchBrackets(turns, AsMessages(Results(Outcomes(tools, calls, scripts))));
    } else {
      StaysRejected(Final(entries, schedule).events);
      StaysRejected(results);
    }
  }

  lemma InitialIsSound(entries: seq<Entry>)
    ensures Sound(entries, Initial(entries))
  {
  }
}
