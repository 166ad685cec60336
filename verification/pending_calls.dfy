/** When the pending set tells which calls of a batch are running. */
module PendingCalls {
  import opened Messages
  import opened Events
  import opened Reducer
  import opened ToolCalls
  import opened SequentialBatch
  import opened ParallelBatch
  import opened ParallelTrace

  /** How many calls with an id have started and not ended. */
  function CountRunning(trace: seq<Event>, id: string): int {
    if trace == [] then 0
    else
      var last := trace[|trace| - 1];
      CountRunning(trace[..|trace| - 1], id)
      + if last.ToolStart? && last.ForTool(id) then 1 else if last.ToolEnd? && last.ForTool(id) then -1 else 0
  }

  lemma {:induction false} RunningAppend(a: seq<Event>, b: seq<Event>, id: string)
    ensures CountRunning(a + b, id) == CountRunning(a, id) + CountRunning(b, id)
  {
    if b == [] {
      assert a + b == a;
    } else {
      RunningAppend(a, b[..|b| - 1], id);
      assert (a + b)[..|a + b| - 1] == a + b[..|b| - 1];
    }
  }

  lemma RunningOne(e: Event, id: string)
    ensures CountRunning([e], id)
            == if e.ToolStart? && e.ForTool(id) then 1 else if e.ToolEnd? && e.ForTool(id) then -1 else 0
  {
    assert [e][..0] == [];
  }

  lemma {:induction false} NothingRunning(trace: seq<Event>, id: string)
    requires forall e :: e in trace ==> !e.ToolStart? && !e.ToolEnd?
    ensures CountRunning(trace, id) == 0
  {
    if trace == [] {
    } else {
      assert trace[|trace| - 1] in trace;
      NothingRunning(trace[..|trace| - 1], id);
    }
  }

  // ----- Every start has its end -----

  /** How many calls with an id are not finished. */
  function Unsettled(entries: seq<Entry>, phases: seq<Phase>, id: string): nat
    requires |entries| == |phases|
  {
    if entries == [] then 0
    else
      var n := |entries| - 1;
      Unsettled(entries[..n], phases[..n], id) + if entries[n].Id() == id && !phases[n].Finished? then 1 else 0
  }

  lemma {:induction false} UnsettledUpdate(entries: seq<Entry>, phases: seq<Phase>, i: nat, p: Phase, id: string)
    requires |entries| == |phases| && i < |entries|
    ensures Unsettled(entries, phases[i := p], id)
            == Unsettled(entries, phases, id)
               + if entries[i].Id() != id || p.Finished? == phases[i].Finished? then 0
                 else if p.Finished? then -1 else 1
  {
    var n := |entries| - 1;
    if i == n {
      assert phases[i := p][..n] == phases[..n];
    } else {
      assert phases[i := p][..n] == phases[..n][i := p];
      UnsettledUpdate(entries[..n], phases[..n], i, p, id);
    }
  }

  lemma {:induction false} NoneUnsettled(entries: seq<Entry>, phases: seq<Phase>, id: string)
    requires |entries| == |phases| && forall i :: 0 <= i < |phases| ==> phases[i].Finished?
    ensures Unsettled(entries, phases, id) == 0
  {
    if entries == [] {
    } else {
      NoneUnsettled(entries[..|entries| - 1], phases[..|entries| - 1], id);
    }
  }

  lemma StepRuns(entries: seq<Entry>, phases: seq<Phase>, a: Action, id: string)
    requires |entries| == |phases|
    ensures var step := Act(entries, phases, a);
            && |step.phases| == |entries|
            && CountRunning(step.events, id) == Unsettled(entries, step.phases, id) - Unsettled(entries, phases, id)
  {
    hide Execute, Finalize, Unsettled;
    if a.i < |entries| && entries[a.i].Deferred? {
      var i, call := a.i, entries[a.i].call;
      match (a, phases[i])
      case (Invoke(_), Waiting) => UnsettledUpdate(entries, phases, i, Phase.Running, id);
      case (Callback(_, partial), Running) => RunningOne(ToolUpdate(call, partial), id);
      case (Settle(_), Running) =>
        UnsettledUpdate(entries, phases, i, Settled(Execute(entries[i].script)), id);
      case (Finish(_), Settled(executed)) =>
        var f := Finalize(call, executed, entries[i].script);
        UnsettledUpdate(entries, phases, i, Finished(f), id);
        RunningOne(f.End(), id);
      case _ =>
    }
  }

  lemma {:induction false} ScheduleRuns(entries: seq<Entry>, phases: seq<Phase>, schedule: seq<Action>, id: string)
    requires |entries| == |phases|
    ensures var m := RunAll(entries, phases, schedule);
            && |m.phases| == |entries|
            && CountRunning(m.events, id) == Unsettled(entries, m.phases, id) - Unsettled(entries, phases, id)
  {
    if schedule == [] {
    } else {
      hide Act, Unsettled, CountRunning;
      var n := |schedule| - 1;
      ScheduleRuns(entries, phases, schedule[..n], id);
      var earlier := RunAll(entries, phases, schedule[..n]);
      StepRuns(entries, earlier.phases, schedule[n], id);
      RunningAppend(earlier.events, Act(entries, earlier.phases, schedule[n]).events, id);
    }
  }

  lemma AnnouncementRuns(entry: Entry, id: string)
    ensures CountRunning(Announcement(entry), id) == if entry.Id() == id && entry.Deferred? then 1 else 0
  {
    var start := [ToolStart(entry.TheCall())];
    RunningOne(start[0], id);
    if entry.Completed? {
      RunningOne(entry.finalized.End(), id);
      RunningAppend(start, [entry.finalized.End()], id);
    } else {
      assert start + [] == start;
    }
  }

  lemma {:induction false} AnnouncementsRun(entries: seq<Entry>, id: string)
    ensures CountRunning(AnnounceEvents(entries), id) == Unsettled(entries, Initial(entries), id)
  {
    if entries == [] {
    } else {
      hide Announcement, CountRunning;
      var n := |entries| - 1;
      AnnouncementsRun(entries[..n], id);
      AnnouncementRuns(entries[n], id);
      RunningAppend(AnnounceEvents(entries[..n]), Announcement(entries[n]), id);
      assert Initial(entries)[..n] == Initial(entries[..n]);
    }
  }

  /** Whatever the ids and the schedule, a batch ends as many calls with an id as it starts. */
  lemma EveryStartHasItsEnd(entries: seq<Entry>, schedule: seq<Action>, results: seq<Message>, id: string)
    ensures CountRunning(ParallelToolPart(entries, schedule) + Brackets(results), id) == 0
  {
    hide CountRunning, Unsettled, AnnounceEvents, RunAll, Brackets;
    var events := Final(entries, schedule).events;
    AnnouncementsRun(entries, id);
    ScheduleRuns(entries, Initial(entries), schedule + Flush(|entries|), id);
    FinalPhases(entries, schedule);
    NoneUnsettled(entries, Final(entries, schedule).phases, id);
    RunningAppend(AnnounceEvents(entries), events, id);
    BracketsHaveNoToolEvents(results);
    NothingRunning(Brackets(results), id);
    RunningAppend(ParallelToolPart(entries, schedule), Brackets(results), id);
  }

  // ----- What the pending set tells -----

  /** After every event of the trace the pending ids are those of the running calls. */
  ghost predicate PendingTells(v: View, trace: seq<Event>) {
    forall n: nat, id: string :: n <= |trace| ==>
      (id in ReduceAll(v, trace[..n]).pending <==> CountRunning(trace[..n], id) > 0)
  }

  /** Along an accepted trace the monitor counts the running calls. */
  lemma {:induction false} MonitorCounts(turns: nat, trace: seq<Event>, id: string)
    requires !Watch(InTurn(turns, false, {}), trace).Rejected?
    ensures var m := Watch(InTurn(turns, false, {}), trace);
            CountRunning(trace, id) == if m.InTurn? && id in m.running then 1 else 0
  {
    if trace == [] {
    } else {
      var n := |trace| - 1;
      AcceptancePrefix(InTurn(turns, false, {}), trace, n);
      MonitorCounts(turns, trace[..n], id);
    }
  }

  lemma AcceptedTraceTells(turns: nat, v: View, trace: seq<Event>)
    requires Mirrors(v, InTurn(turns, false, {})) && !Watch(InTurn(turns, false, {}), trace).Rejected?
    ensures PendingTells(v, trace)
  {
    hide ReduceAll, Watch, CountRunning;
    var m := InTurn(turns, false, {});
    forall n: nat, id: string | n <= |trace|
      ensures id in ReduceAll(v, trace[..n]).pending <==> CountRunning(trace[..n], id) > 0
    {
      AcceptancePrefix(m, trace, n);
      ReducerMirrorsMonitor(v, m, trace, n);
      MonitorCounts(turns, trace[..n], id);
    }
  }

  /** Two running calls with one id come down to one, with an end event. */
  lemma {:induction false} ComesDown(trace: seq<Event>, id: string, k: nat) returns (n: nat)
    requires k <= |trace| && CountRunning(trace[..k], id) >= 2 && CountRunning(trace, id) == 0
    ensures k < n <= |trace| && CountRunning(trace[..n], id) > 0
    ensures trace[n - 1].ToolEnd? && trace[n - 1].ForTool(id)
    decreases |trace| - k
  {
    n := k;
    assert trace[..|trace|] == trace;
    if k < |trace| {
      assert trace[..k + 1][..k] == trace[..k];
      if trace[k].ToolEnd? && trace[k].ForTool(id) {
        n := k + 1;
      } else {
        n := ComesDown(trace, id, k + 1);
      }
    }
  }

  /**
   When a call bears the id of an earlier one that was not settled during preparation, then under every schedule the
   end of one of them clears the id from the pending set while the other is still running.
   */
  lemma SharedIdIsClearedEarly(
      v: View, tools: seq<Tool>, calls: seq<ToolCall>, scripts: nat -> CallScript, schedule: seq<Action>)
    returns (n: nat, id: string)
    requires !FreshIds(Entries(tools, calls, scripts))
    ensures var events := ParallelEvents(tools, calls, scripts, schedule);
            n <= |events| && CountRunning(events[..n], id) > 0 && id !in ReduceAll(v, events[..n]).pending
  {
    hide CountRunning, ReduceAll, RunAll, Brackets, EntryOf, OutcomeOf, AnnounceEvents, LastToolBoundary;
    var entries := Entries(tools, calls, scripts);
    var events := ParallelEvents(tools, calls, scripts, schedule);
    n, id := OneOfTwoEnds(entries, schedule, AsMessages(Results(Outcomes(tools, calls, scripts))));
    PendingMeansLastBoundaryIsStart(v, events[..n], id);
    EndIsLastBoundary(events[..n], id);
  }

  lemma OneOfTwoEnds(entries: seq<Entry>, schedule: seq<Action>, results: seq<Message>) returns (n: nat, id: string)
    requires !FreshIds(entries)
    ensures var events := ParallelToolPart(entries, schedule) + Brackets(results);
            && 0 < n <= |events| && CountRunning(events[..n], id) > 0
            && events[n - 1].ToolEnd? && events[n - 1].ForTool(id)
  {
    hide CountRunning, RunAll, Brackets, AnnounceEvents;
    var events, announced := ParallelToolPart(entries, schedule) + Brackets(results), AnnounceEvents(entries);
    var i, j :| 0 <= i < j < |entries| && entries[i].Deferred? && entries[i].Id() == entries[j].Id();
    id := entries[i].Id();
    var k := TwoRunning(entries, i, j);
    assert events == announced + (Final(entries, schedule).events + Brackets(results));
    assert events[..k] == announced[..k];
    EveryStartHasItsEnd(entries, schedule, results, id);
    n := ComesDown(events, id, k);
  }

  lemma EndIsLastBoundary(trace: seq<Event>, id: string)
    requires trace != [] && trace[|trace| - 1].ToolEnd? && trace[|trace| - 1].ForTool(id)
    ensures LastToolBoundary(trace, id) == Some(trace[|trace| - 1])
  {
  }

  /** While the calls are announced, an earlier unsettled call and a later one with its id run at the same time. */
  lemma {:induction false} TwoRunning(entries: seq<Entry>, i: nat, j: nat) returns (k: nat)
    requires i < j < |entries| && entries[i].Deferred? && entries[i].Id() == entries[j].Id()
    ensures k <= |AnnounceEvents(entries)| && CountRunning(AnnounceEvents(entries)[..k], entries[i].Id()) >= 2
  {
    hide CountRunning, Unsettled, Announcement;
    var n, id := |entries| - 1, entries[i].Id();
    var front, last := AnnounceEvents(entries[..n]), Announcement(entries[n]);
    if j < n {
      k := TwoRunning(entries[..n], i, j);
      assert (front + last)[..k] == front[..k];
    } else {
      k := |front| + 1;
      var start := AnnouncementBegins(entries[n]);
      assert (front + last)[..k] == front + [start];
      AnnouncementsRun(entries[..n], id);
      SomeUnsettled(entries[..n], Initial(entries[..n]), i);
      RunningOne(start, id);
      RunningAppend(front, [start], id);
    }
  }

  lemma AnnouncementBegins(entry: Entry) returns (start: Event)
    ensures |Announcement(entry)| > 0 && Announcement(entry)[0] == start
    ensures start.ToolStart? && start.ForTool(entry.Id())
  {
    start := ToolStart(entry.TheCall());
  }

  lemma {:induction false} SomeUnsettled(entries: seq<Entry>, phases: seq<Phase>, i: nat)
    requires |entries| == |phases| && i < |entries| && !phases[i].Finished?
    ensures Unsettled(entries, phases, entries[i].Id()) > 0
  {
    var n := |entries| - 1;
    if i < n {
      SomeUnsettled(entries[..n], phases[..n], i);
    }
  }

  /**
   Under every schedule, the pending set tells the running calls of a parallel batch after each of its events exactly
   when no call bears the id of an earlier one that was not settled during preparation.
   */
  lemma PendingTellsExactly(
      turns: nat, v: View, tools: seq<Tool>, calls: seq<ToolCall>, scripts: nat -> CallScript, schedule: seq<Action>)
    requires Mirrors(v, InTurn(turns, false, {}))
    ensures PendingTells(v, ParallelEvents(tools, calls, scripts, schedule))
            <==> FreshIds(Entries(tools, calls, scripts))
  {
    hide CountRunning, ReduceAll, FreshIds, ParallelEvents, Watch, Entries;
    if FreshIds(Entries(tools, calls, scripts)) {
      WatchParallel(turns, tools, calls, scripts, schedule);
      AcceptedTraceTells(turns, v, ParallelEvents(tools, calls, scripts, schedule));
    } else {
      var n, id := SharedIdIsClearedEarly(v, tools, calls, scripts, schedule);
    }
  }

  /** In sequential mode it always does. */
  lemma PendingTellsInSequence(
      turns: nat, v: View, tools: seq<Tool>, calls: seq<ToolCall>, scripts: nat -> CallScript)
    requires Mirrors(v, InTurn(turns, false, {}))
    ensures PendingTells(v, SequentialEvents(tools, calls, scripts))
  {
    hide SequentialEvents, PendingTells;
    WatchSequential(turns, tools, calls, scripts);
    AcceptedTraceTells(turns, v, SequentialEvents(tools, calls, scripts));
  }
}
