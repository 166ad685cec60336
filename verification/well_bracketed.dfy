/** What the monitor accepts, said of the trace alone: which events may follow which, and no state to carry along. */
module WellBracketed {
  import opened Events
  import opened Reducer

  /** A turn has started and not ended. */
  predicate TurnOpen(trace: seq<Event>) {
    trace != [] &&
    var last := trace[|trace| - 1];
    last.TurnStart? || (!last.TurnEnd? && TurnOpen(trace[..|trace| - 1]))
  }

  /** A message has started and not ended. */
  predicate MessageOpen(trace: seq<Event>) {
    trace != [] &&
    var last := trace[|trace| - 1];
    last.MessageStart? || (!last.MessageEnd? && MessageOpen(trace[..|trace| - 1]))
  }

  /** A call with this id has started, and none has ended since. */
  predicate IsRunning(trace: seq<Event>, id: string) {
    LastToolBoundary(trace, id).Some? && LastToolBoundary(trace, id).value.ToolStart?
  }

  /** No message is open and no call is running. */
  ghost predicate Quiet(trace: seq<Event>) {
    !MessageOpen(trace) && forall id :: !IsRunning(trace, id)
  }

  ghost predicate MayFollow(trace: seq<Event>, e: Event) {
    match e
    case AgentStart => trace == []
    case AgentEnd(_) => trace != [] && trace[|trace| - 1].TurnEnd?
    case TurnStart => trace != [] && (trace[|trace| - 1].AgentStart? || trace[|trace| - 1].TurnEnd?)
    case TurnEnd(_, _) => TurnOpen(trace) && Quiet(trace)
    case MessageStart(_) => TurnOpen(trace) && Quiet(trace)
    case MessageUpdate(_, _) => TurnOpen(trace) && MessageOpen(trace)
    case MessageEnd(_) => TurnOpen(trace) && MessageOpen(trace)
    case ToolStart(call) => TurnOpen(trace) && !MessageOpen(trace) && !IsRunning(trace, call.id)
    case ToolUpdate(call, _) => TurnOpen(trace) && IsRunning(trace, call.id)
    case ToolEnd(id, _, _, _) => TurnOpen(trace) && IsRunning(trace, id)
  }

  ghost predicate IsWellBracketed(trace: seq<Event>) {
    trace == []
    || (IsWellBracketed(trace[..|trace| - 1]) && MayFollow(trace[..|trace| - 1], trace[|trace| - 1]))
  }

  /** What the monitor remembers of a trace it has not rejected. */
  ghost predicate Remembers(m: Monitor, trace: seq<Event>) {
    && (m.InTurn? <==> TurnOpen(trace))
    && (m.Fresh? <==> trace == [])
    && (m.BetweenTurns? ==> trace != [] && (if m.turns == 0 then trace[|trace| - 1].AgentStart?
                                            else trace[|trace| - 1].TurnEnd?))
    && (m.Ended? ==> trace != [] && trace[|trace| - 1].AgentEnd?)
    && (m.InTurn? ==> trace != [] && !trace[|trace| - 1].AgentStart? && !trace[|trace| - 1].TurnEnd?)
    && (MessageOpen(trace) <==> m.InTurn? && m.open)
    && (forall id :: IsRunning(trace, id) <==> m.InTurn? && id in m.running)
  }

  lemma StepRemembers(m: Monitor, trace: seq<Event>, e: Event)
    requires !m.Rejected? && Remembers(m, trace)
    ensures Observe(m, e).Rejected? <==> !MayFollow(trace, e)
    ensures !Observe(m, e).Rejected? ==> Remembers(Observe(m, e), trace + [e])
  {
    assert (trace + [e])[..|trace|] == trace;
    assert m.InTurn? ==> (m.running == {} <==> forall id :: !IsRunning(trace, id));
    if !Observe(m, e).Rejected? {
      forall id
        ensures IsRunning(trace + [e], id)
                <==> Observe(m, e).InTurn? && id in Observe(m, e).running
      {
        assert IsRunning(trace, id) <==> m.InTurn? && id in m.running;
      }
    }
  }

  /** The monitor accepts exactly the traces in which every event may follow those before it. */
  lemma {:induction false} MonitorAcceptsExactly(trace: seq<Event>)
    ensures !Watch(Fresh, trace).Rejected? <==> IsWellBracketed(trace)
    ensures !Watch(Fresh, trace).Rejected? ==> Remembers(Watch(Fresh, trace), trace)
  {
    if trace == [] {
    } else {
      hide Remembers, MayFollow, Observe;
      var n := |trace| - 1;
      MonitorAcceptsExactly(trace[..n]);
      assert trace[..n] + [trace[n]] == trace;
      if !Watch(Fresh, trace[..n]).Rejected? {
        StepRemembers(Watch(Fresh, trace[..n]), trace[..n], trace[n]);
      } else {
        StaysRejected([trace[n]]);
        WatchOne(Rejected, trace[n]);
      }
    }
  }
}
