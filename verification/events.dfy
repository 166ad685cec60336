/**
 The events a run emits, and two readings of an event trace that do not mention the loop that produced it:
 the messages it delivers, and a monitor that accepts exactly the well-bracketed traces.
 */
module Events {
  import opened Messages

  datatype ToolOutput = ToolOutput(content: string, details: string, terminate: Option<bool>)

  datatype Event =
    | AgentStart
    | AgentEnd(messages: seq<Message>)
    | TurnStart
    | TurnEnd(response: AssistantMessage, toolResults: seq<ToolResultMessage>)
    | MessageStart(message: Message)
    | MessageUpdate(message: Message, delta: string)
    | MessageEnd(message: Message)
    | ToolStart(call: ToolCall)
    | ToolUpdate(call: ToolCall, partial: string)
    | ToolEnd(toolCallId: string, toolName: string, output: ToolOutput, isError: bool)
  {
    /** Events that happen inside a turn. */
    predicate Inner() {
      MessageStart? || MessageUpdate? || MessageEnd? || ToolStart? || ToolUpdate? || ToolEnd?
    }

    predicate ForTool(id: string) {
      match this
      case ToolStart(call) => call.id == id
      case ToolUpdate(call, _) => call.id == id
      case ToolEnd(toolCallId, _, _, _) => toolCallId == id
      case _ => false
    }
  }

  lemma Associate(a: seq<Event>, b: seq<Event>, c: seq<Event>)
    ensures a + b + c == a + (b + c)
  {
  }

  function Bracket(message: Message): seq<Event> {
    [MessageStart(message), MessageEnd(message)]
  }

  function Brackets(messages: seq<Message>): seq<Event> {
    if messages == [] then []
    else Brackets(messages[..|messages| - 1]) + Bracket(messages[|messages| - 1])
  }

  lemma NoBrackets()
    ensures Brackets([]) == []
  {
  }

  lemma OneBracket(message: Message)
    ensures Brackets([message]) == Bracket(message)
  {
    assert [message][..0] == [];
  }

  lemma {:induction false} BracketsAppend(a: seq<Message>, b: seq<Message>)
    ensures Brackets(a + b) == Brackets(a) + Brackets(b)
  {
    if b == [] {
      assert a + b == a;
    } else {
      BracketsAppend(a, b[..|b| - 1]);
      assert (a + b)[..|a + b| - 1] == a + b[..|b| - 1];
    }
  }

  // ----- The messages a trace delivers -----

  /** The payloads of the message_end events, in order. */
  function Delivered(trace: seq<Event>): seq<Message> {
    if trace == [] then []
    else
      var last := trace[|trace| - 1];
      Delivered(trace[..|trace| - 1]) + (if last.MessageEnd? then [last.message] else [])
  }

  lemma {:induction false} DeliveredAppend(a: seq<Event>, b: seq<Event>)
    ensures Delivered(a + b) == Delivered(a) + Delivered(b)
  {
    if b == [] {
      assert a + b == a;
    } else {
      DeliveredAppend(a, b[..|b| - 1]);
      assert (a + b)[..|a + b| - 1] == a + b[..|b| - 1];
    }
  }

  lemma {:induction false} DeliveredBrackets(messages: seq<Message>)
    ensures Delivered(Brackets(messages)) == messages
  {
    if messages == [] {
    } else {
      var last := messages[|messages| - 1];
      DeliveredBrackets(messages[..|messages| - 1]);
      DeliveredAppend(Brackets(messages[..|messages| - 1]), Bracket(last));
      assert Bracket(last)[..1] == [MessageStart(last)];
      DeliversNothing([MessageStart(last)]);
    }
  }

  lemma DeliveredOne(message: Message)
    ensures Delivered([MessageEnd(message)]) == [message]
  {
    assert [MessageEnd(message)][..0] == [];
  }

  lemma {:induction false} DeliversNothing(trace: seq<Event>)
    requires forall e :: e in trace ==> !e.MessageEnd?
    ensures Delivered(trace) == []
  {
    if trace == [] {
    } else {
      DeliversNothing(trace[..|trace| - 1]);
    }
  }

  // ----- The events of one tool call -----

  function ToolEvents(trace: seq<Event>, id: string): seq<Event> {
    if trace == [] then []
    else
      var last := trace[|trace| - 1];
      ToolEvents(trace[..|trace| - 1], id) + (if last.ForTool(id) then [last] else [])
  }

  lemma {:induction false} ToolEventsAppend(a: seq<Event>, b: seq<Event>, id: string)
    ensures ToolEvents(a + b, id) == ToolEvents(a, id) + ToolEvents(b, id)
  {
    if b == [] {
      assert a + b == a;
    } else {
      ToolEventsAppend(a, b[..|b| - 1], id);
      assert (a + b)[..|a + b| - 1] == a + b[..|b| - 1];
    }
  }

  lemma {:induction false} NoToolEvents(trace: seq<Event>, id: string)
    requires forall e :: e in trace ==> !e.ForTool(id)
    ensures ToolEvents(trace, id) == []
  {
    if trace == [] {
    } else {
      NoToolEvents(trace[..|trace| - 1], id);
    }
  }

  lemma {:induction false} BracketsHaveNoToolEvents(messages: seq<Message>)
    ensures forall e :: e in Brackets(messages) ==> e.MessageStart? || e.MessageEnd?
  {
    if messages == [] {
    } else {
      BracketsHaveNoToolEvents(messages[..|messages| - 1]);
    }
  }

  // ----- The monitor -----

  /**
   What may come next: `open` says that a message has started and not ended, `running` holds the tool calls
   that have started and not ended. `Rejected` is final.
   */
  datatype Monitor =
    | Rejected
    | Fresh
    | BetweenTurns(turns: nat)
    | InTurn(turns: nat, open: bool, running: set<string>)
    | Ended

  function Observe(m: Monitor, e: Event): Monitor {
    match e
    case AgentStart => if m.Fresh? then BetweenTurns(0) else Rejected
    case AgentEnd(_) => if m.BetweenTurns? && m.turns > 0 then Ended else Rejected
    case TurnStart => if m.BetweenTurns? then InTurn(m.turns, false, {}) else Rejected
    case TurnEnd(_, _) =>
      if m.InTurn? && !m.open && m.running == {} then BetweenTurns(m.turns + 1) else Rejected
    case MessageStart(_) => if m.InTurn? && !m.open && m.running == {} then m.(open := true) else Rejected
    case MessageUpdate(_, _) => if m.InTurn? && m.open then m else Rejected
    case MessageEnd(_) => if m.InTurn? && m.open then m.(open := false) else Rejected
    case ToolStart(call) =>
      if m.InTurn? && !m.open && call.id !in m.running then m.(running := m.running + {call.id}) else Rejected
    case ToolUpdate(call, _) => if m.InTurn? && call.id in m.running then m else Rejected
    case ToolEnd(id, _, _, _) =>
      if m.InTurn? && id in m.running then m.(running := m.running - {id}) else Rejected
  }

  function Watch(m: Monitor, trace: seq<Event>): Monitor {
    if trace == [] then m else Observe(Watch(m, trace[..|trace| - 1]), trace[|trace| - 1])
  }

  lemma {:induction false} WatchAppend(m: Monitor, a: seq<Event>, b: seq<Event>)
    ensures Watch(m, a + b) == Watch(Watch(m, a), b)
  {
    if b == [] {
      assert a + b == a;
    } else {
      WatchAppend(m, a, b[..|b| - 1]);
      assert (a + b)[..|a + b| - 1] == a + b[..|b| - 1];
    }
  }

  lemma WatchNothing(m: Monitor)
    ensures Watch(m, []) == m
  {
  }

  lemma WatchOne(m: Monitor, e: Event)
    ensures Watch(m, [e]) == Observe(m, e)
  {
    assert [e][..0] == [];
  }

  lemma {:induction false} WatchBrackets(turns: nat, messages: seq<Message>)
    ensures Watch(InTurn(turns, false, {}), Brackets(messages)) == InTurn(turns, false, {})
  {
    if messages == [] {
    } else {
      var last := messages[|messages| - 1];
      WatchBrackets(turns, messages[..|messages| - 1]);
      WatchAppend(InTurn(turns, false, {}), Brackets(messages[..|messages| - 1]), Bracket(last));
      assert Bracket(last)[..1] == [MessageStart(last)];
      WatchOne(InTurn(turns, false, {}), MessageStart(last));
    }
  }

  /** Nothing is ever emitted after agent_end, and a rejected trace stays rejected. */
  lemma {:induction false} NothingAfterTheEnd(m: Monitor, trace: seq<Event>)
    requires m.Ended? || m.Rejected?
    requires trace != []
    ensures Watch(m, trace).Rejected?
  {
    if |trace| == 1 {
      assert trace[..0] == [];
    } else {
      NothingAfterTheEnd(m, trace[..|trace| - 1]);
    }
  }

  lemma {:induction false} StaysRejected(trace: seq<Event>)
    ensures Watch(Rejected, trace) == Rejected
  {
    if trace == [] {
    } else {
      NothingAfterTheEnd(Rejected, trace);
    }
  }
}
