/** The state an Agent keeps about a run, and the reducer that rebuilds it from the event stream. */
module Reducer {
  import opened Messages
  import opened Events

  datatype View = View(
    messages: seq<Message>,
    streaming: Option<Message>,
    pending: set<string>,
    error: Option<string>,
    isStreaming: bool)

  function Reduce(v: View, e: Event): View {
    match e
    case MessageStart(m) => v.(streaming := Some(m))
    case MessageUpdate(m, _) => v.(streaming := Some(m))
    case MessageEnd(m) => v.(streaming := None, messages := v.messages + [m])
    case ToolStart(call) => v.(pending := v.pending + {call.id})
    case ToolEnd(id, _, _, _) => v.(pending := v.pending - {id})
    case TurnEnd(response, _) =>
      if response.errorMessage.Some? && response.errorMessage.value != ""
      then v.(error := response.errorMessage) else v
    case AgentEnd(_) => v.(streaming := None)
    case _ => v
  }

  function ReduceAll(v: View, trace: seq<Event>): View {
    if trace == [] then v else Reduce(ReduceAll(v, trace[..|trace| - 1]), trace[|trace| - 1])
  }

  lemma ReduceAppend(v: View, trace: seq<Event>, e: Event)
    ensures ReduceAll(v, trace + [e]) == Reduce(ReduceAll(v, trace), e)
  {
    assert (trace + [e])[..|trace|] == trace;
  }

  lemma {:induction false} ReduceAllAppend(v: View, a: seq<Event>, b: seq<Event>)
    ensures ReduceAll(v, a + b) == ReduceAll(ReduceAll(v, a), b)
  {
    hide Reduce;
    if b == [] {
      assert a + b == a;
    } else {
      ReduceAllAppend(v, a, b[..|b| - 1]);
      assert (a + b)[..|a + b| - 1] == a + b[..|b| - 1];
    }
  }

  /** The transcript after any trace is the transcript before it followed by what the trace delivers. */
  lemma {:induction false} TranscriptIsDelivered(v: View, trace: seq<Event>)
    ensures ReduceAll(v, trace).messages == v.messages + Delivered(trace)
    ensures ReduceAll(v, trace).isStreaming == v.isStreaming
  {
    if trace == [] {
    } else {
      TranscriptIsDelivered(v, trace[..|trace| - 1]);
    }
  }

  /** The state that mirrors the monitor: same open message, same running calls. */
  predicate Mirrors(v: View, m: Monitor) {
    match m
    case InTurn(_, open, running) => v.streaming.Some? == open && v.pending == running
    case _ => v.streaming.None? && v.pending == {}
  }

  /** Along every accepted trace the reduced state mirrors the monitor, after each single event. */
  lemma {:induction false} ReducerMirrorsMonitor(v: View, m: Monitor, trace: seq<Event>, n: nat)
    requires Mirrors(v, m)
    requires !Watch(m, trace).Rejected?
    requires n <= |trace|
    ensures Mirrors(ReduceAll(v, trace[..n]), Watch(m, trace[..n]))
  {
    AcceptancePrefix(m, trace, n);
    if n == 0 {
    } else {
      ReducerMirrorsMonitor(v, m, trace, n - 1);
      AcceptancePrefix(m, trace, n - 1);
      assert trace[..n] == trace[..n - 1] + [trace[n - 1]];
      ReduceAppend(v, trace[..n - 1], trace[n - 1]);
      assert trace[..n][..n - 1] == trace[..n - 1];
      MirrorStep(ReduceAll(v, trace[..n - 1]), Watch(m, trace[..n - 1]), trace[n - 1]);
    }
  }

  lemma MirrorStep(v: View, m: Monitor, e: Event)
    requires Mirrors(v, m) && !Observe(m, e).Rejected?
    ensures Mirrors(Reduce(v, e), Observe(m, e))
  {
    match e
    case ToolStart(call) =>
    case _ =>
  }

  lemma {:induction false} AcceptancePrefix(m: Monitor, trace: seq<Event>, n: nat)
    requires n <= |trace| && !Watch(m, trace).Rejected?
    ensures !Watch(m, trace[..n]).Rejected?
    decreases |trace| - n
  {
    if n < |trace| {
      AcceptancePrefix(m, trace, n + 1);
      assert trace[..n + 1][..n] == trace[..n];
    } else {
      assert trace[..n] == trace;
    }
  }

  /** The last start or end event of a tool call, if the trace has one. */
  function LastToolBoundary(trace: seq<Event>, id: string): Option<Event> {
    if trace == [] then None
    else
      var last := trace[|trace| - 1];
      if (last.ToolStart? || last.ToolEnd?) && last.ForTool(id) then Some(last)
      else LastToolBoundary(trace[..|trace| - 1], id)
  }

  /**
   What the pending set means on every trace whatever its ids: a call id is pending exactly when its last
   boundary event is a start.
   */
  lemma {:induction false} PendingMeansLastBoundaryIsStart(v: View, trace: seq<Event>, id: string)
    ensures id in ReduceAll(v, trace).pending <==>
            match LastToolBoundary(trace, id)
            case None => id in v.pending
            case Some(e) => e.ToolStart?
  {
    if trace == [] {
    } else {
      PendingMeansLastBoundaryIsStart(v, trace[..|trace| - 1], id);
    }
  }

  /** The message on display: that of the last start or update, unless it has ended since. */
  function Displayed(before: Option<Message>, trace: seq<Event>): Option<Message> {
    if trace == [] then before
    else
      match trace[|trace| - 1]
      case MessageStart(m) => Some(m)
      case MessageUpdate(m, _) => Some(m)
      case MessageEnd(_) => None
      case AgentEnd(_) => None
      case _ => Displayed(before, trace[..|trace| - 1])
  }

  /** The error of the last turn that had one. */
  function LastError(before: Option<string>, trace: seq<Event>): Option<string> {
    if trace == [] then before
    else
      match trace[|trace| - 1]
      case TurnEnd(AssistantMessage(_, _, Some(message)), _) =>
        if message != "" then Some(message) else LastError(before, trace[..|trace| - 1])
      case _ => LastError(before, trace[..|trace| - 1])
  }

  /** What the streaming message and the error mean, on every trace. */
  lemma {:induction false} StateShowsLatest(v: View, trace: seq<Event>)
    ensures ReduceAll(v, trace).streaming == Displayed(v.streaming, trace)
    ensures ReduceAll(v, trace).error == LastError(v.error, trace)
  {
    if trace == [] {
    } else {
      StateShowsLatest(v, trace[..|trace| - 1]);
    }
  }

  /** The mutable state of an Agent. `trace` is every event processed since the state was last rebased. */
  class AgentState {
    var messages: MessageList
    var isStreaming: bool
    var streamingMessage: Option<Message>
    var pendingToolCalls: set<string>
    var errorMessage: Option<string>
    ghost var base: View
    ghost var trace: seq<Event>

    function Now(): View
      reads this, messages
    {
      View(messages.items, streamingMessage, pendingToolCalls, errorMessage, isStreaming)
    }

    ghost predicate Valid()
      reads this, messages
    {
      Now() == ReduceAll(base, trace)
    }

    constructor (messages: seq<Message>)
      ensures Valid() && fresh(this.messages)
      ensures Now() == View(messages, None, {}, None, false) && trace == []
    {
      this.messages := new MessageList(messages);
      isStreaming, streamingMessage, pendingToolCalls, errorMessage := false, None, {}, None;
      base, trace := View(messages, None, {}, None, false), [];
    }

    /** Start a new trace from the present state. */
    ghost method Rebase()
      modifies this`base, this`trace
      ensures Valid() && trace == [] && base == Now()
    {
      base, trace := Now(), [];
    }

    /** The switch of processEvents: it runs to its end before any listener is awaited. */
    method Apply(e: Event)
      modifies this`streamingMessage, this`pendingToolCalls, this`errorMessage, messages
      ensures Now() == Reduce(old(Now()), e)
    {
      match e {
        case MessageStart(m) => streamingMessage := Some(m);
        case MessageUpdate(m, _) => streamingMessage := Some(m);
        case MessageEnd(m) =>
          streamingMessage := None;
          messages.Push(m);
        case ToolStart(call) => pendingToolCalls := pendingToolCalls + {call.id};
        case ToolEnd(id, _, _, _) => pendingToolCalls := pendingToolCalls - {id};
        case TurnEnd(response, _) =>
          if response.errorMessage.Some? && response.errorMessage.value != "" {
            errorMessage := response.errorMessage;
          }
        case AgentEnd(_) => streamingMessage := None;
        case _ =>
      }
    }

    /** Process one event: reduce it, and record it as emitted. */
    method Process(e: Event)
      requires Valid()
      modifies this, messages
      ensures Valid() && messages == old(messages)
      ensures base == old(base) && trace == old(trace) + [e]
    {
      Apply(e);
      ReduceAppend(base, trace, e);
      trace := trace + [e];
    }

    method EmitBracket(message: Message)
      requires Valid()
      modifies this, messages
      ensures Valid() && messages == old(messages)
      ensures base == old(base) && trace == old(trace) + Bracket(message)
    {
      Process(MessageStart(message));
      Process(MessageEnd(message));
    }
  }
}
