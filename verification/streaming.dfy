/** One streamed assistant response: the partial message at the end of the context, and the events about it. */
module Streaming {
  import opened Messages
  import opened Events
  import opened Reducer

  /** Delta stands for the nine text, thinking and tool-call events; Done and Failure end the stream. */
  datatype StreamEvent =
    | Start(partial: AssistantMessage)
    | Delta(partial: AssistantMessage, delta: string)
    | Done
    | Failure

  /** The part of a stream that is read before a done or error event stops the loop. */
  function Consumed(stream: seq<StreamEvent>): (read: seq<StreamEvent>)
    ensures read <= stream
    ensures forall i :: 0 <= i < |read| ==> read[i].Start? || read[i].Delta?
    ensures |read| < |stream| ==> stream[|read|].Done? || stream[|read|].Failure?
  {
    if stream == [] || stream[0].Done? || stream[0].Failure? then []
    else [stream[0]] + Consumed(stream[1..])
  }

  datatype Streamed = Streamed(context: seq<Message>, added: bool, events: seq<Event>)

  function Receive(s: Streamed, e: StreamEvent): Streamed {
    match e
    case Start(partial) =>
      Streamed(s.context + [Assistant(partial)], true, s.events + [MessageStart(Assistant(partial))])
    case Delta(partial, delta) =>
      if s.added && |s.context| > 0 then
        Streamed(s.context[|s.context| - 1 := Assistant(partial)], true,
                 s.events + [MessageUpdate(Assistant(partial), delta)])
      else s
    case _ => s
  }

  function ReceiveAll(s: Streamed, read: seq<StreamEvent>): Streamed {
    if read == [] then s else Receive(ReceiveAll(s, read[..|read| - 1]), read[|read| - 1])
  }

  lemma ReceiveNext(start: Streamed, read: seq<StreamEvent>, k: nat)
    requires k < |read|
    ensures var s := ReceiveAll(start, read[..k]);
            var step := Receive(Streamed(s.context, s.added, []), read[k]);
            ReceiveAll(start, read[..k + 1]) == Streamed(step.context, step.added, s.events + step.events)
  {
    assert read[..k + 1][..k] == read[..k];
  }

  function Close(s: Streamed, final: AssistantMessage): Streamed {
    if s.added && |s.context| > 0 then
      Streamed(s.context[|s.context| - 1 := Assistant(final)], true, s.events + [MessageEnd(Assistant(final))])
    else
      Streamed(s.context + [Assistant(final)], true, s.events + Bracket(Assistant(final)))
  }

  function Respond(context: seq<Message>, stream: seq<StreamEvent>, final: AssistantMessage): Streamed {
    Close(ReceiveAll(Streamed(context, false, []), Consumed(stream)), final)
  }

  function Starts(read: seq<StreamEvent>): nat {
    if read == [] then 0
    else Starts(read[..|read| - 1]) + (if read[|read| - 1].Start? then 1 else 0)
  }

  /** The provider protocol: no more than one start event before the end of the stream. */
  predicate Protocol(stream: seq<StreamEvent>) {
    Starts(Consumed(stream)) <= 1
  }

  /** Whatever is streamed, old context entries are kept and one entry is added for each start event. */
  lemma {:induction false} ReceiveGrowsByStarts(context: seq<Message>, read: seq<StreamEvent>)
    ensures var s := ReceiveAll(Streamed(context, false, []), read);
            && context <= s.context
            && |s.context| == |context| + Starts(read)
            && s.added == (Starts(read) > 0)
  {
    if read == [] {
    } else {
      ReceiveGrowsByStarts(context, read[..|read| - 1]);
    }
  }

  /**
   Streaming refines an atomic append exactly when the provider keeps to one start event: the context ends as
   its old messages followed by the final message alone.
   */
  lemma {:induction false} StreamingIsAtomicAppend(
      context: seq<Message>, stream: seq<StreamEvent>, final: AssistantMessage)
    ensures Respond(context, stream, final).context == context + [Assistant(final)] <==> Protocol(stream)
    ensures context <= Respond(context, stream, final).context
  {
    var read := Consumed(stream);
    var s := ReceiveAll(Streamed(context, false, []), read);
    ReceiveGrowsByStarts(context, read);
    if Starts(read) == 1 {
      assert s.context[..|context|] == context;
      assert Respond(context, stream, final).context == context + [Assistant(final)];
    }
  }

  /** The updates that a started response shows, one for each later delta. */
  function Updates(read: seq<StreamEvent>): seq<Event> {
    if read == [] then []
    else
      var last := read[|read| - 1];
      Updates(read[..|read| - 1])
      + (if last.Delta? then [MessageUpdate(Assistant(last.partial), last.delta)] else [])
  }

  lemma {:induction false} UnstartedStreamIsSilent(context: seq<Message>, read: seq<StreamEvent>)
    requires forall e :: e in read ==> !e.Start?
    ensures ReceiveAll(Streamed(context, false, []), read) == Streamed(context, false, [])
    ensures Starts(read) == 0
  {
    if read == [] {
    } else {
      UnstartedStreamIsSilent(context, read[..|read| - 1]);
    }
  }

  lemma {:induction false} StartedStreamShowsDeltas(
      context: seq<Message>, before: seq<StreamEvent>, first: AssistantMessage, after: seq<StreamEvent>)
    requires forall e :: e in before + after ==> !e.Start?
    ensures var s := ReceiveAll(Streamed(context, false, []), before + [Start(first)] + after);
            && s.added && |s.context| == |context| + 1
            && s.events == [MessageStart(Assistant(first))] + Updates(after)
    ensures Starts(before + [Start(first)] + after) == 1
  {
    var all := before + [Start(first)] + after;
    if after == [] {
      assert all[..|all| - 1] == before;
      forall e | e in before ensures !e.Start? {
        assert e in before + after;
      }
      UnstartedStreamIsSilent(context, before);
    } else {
      var shorter := after[..|after| - 1];
      assert all[..|all| - 1] == before + [Start(first)] + shorter;
      forall e | e in before + shorter ensures !e.Start? {
        assert e in before + after;
      }
      StartedStreamShowsDeltas(context, before, first, shorter);
      assert after[|after| - 1] in before + after;
    }
  }

  /**
   The events of one response. A stream whose start event is at `at` shows that partial, then every delta after
   it, then the end; a stream without a start shows nothing but the final message.
   */
  lemma ResponseIsOneBracket(context: seq<Message>, stream: seq<StreamEvent>, final: AssistantMessage, at: nat)
    requires var read := Consumed(stream);
             at < |read| ==> read[at].Start? && forall i :: 0 <= i < |read| && i != at ==> !read[i].Start?
    requires at >= |Consumed(stream)| ==> forall e :: e in Consumed(stream) ==> !e.Start?
    ensures Respond(context, stream, final).events ==
            if at < |Consumed(stream)| then
              [MessageStart(Assistant(Consumed(stream)[at].partial))]
              + Updates(Consumed(stream)[at + 1..])
              + [MessageEnd(Assistant(final))]
            else Bracket(Assistant(final))
    ensures Protocol(stream)
  {
    hide ReceiveAll, Updates, Consumed;
    var read := Consumed(stream);
    if at < |read| {
      assert read == read[..at] + [Start(read[at].partial)] + read[at + 1..];
      StartedStreamShowsDeltas(context, read[..at], read[at].partial, read[at + 1..]);
    } else {
      UnstartedStreamIsSilent(context, read);
    }
  }

  /** A stream that keeps to the protocol has at most one position for its start event. */
  lemma {:induction false} FindStart(read: seq<StreamEvent>) returns (at: nat)
    requires Starts(read) <= 1
    ensures at <= |read| && (at < |read| <==> Starts(read) == 1)
    ensures at < |read| ==> read[at].Start?
    ensures forall i :: 0 <= i < |read| && i != at ==> !read[i].Start?
  {
    if read == [] {
      at := 0;
    } else {
      var n := |read| - 1;
      var earlier := FindStart(read[..n]);
      forall i | 0 <= i < n && i != earlier ensures !read[i].Start? {
        assert !read[..n][i].Start?;
      }
      if read[n].Start? {
        at := n;
      } else {
        at := if earlier < n then earlier else n + 1;
      }
    }
  }

  lemma WatchReceived(m: Monitor, s: Streamed, e: StreamEvent)
    requires m.Rejected? || (m.InTurn? && m.running == {} && m.open == s.added)
    requires s.added ==> |s.context| > 0
    ensures Watch(m, Receive(Streamed(s.context, s.added, []), e).events)
            == if m.Rejected? || (e.Start? && s.added) then Rejected
               else if e.Start? then m.(open := true)
               else m
  {
    hide Watch;
    var more := Receive(Streamed(s.context, s.added, []), e).events;
    if more == [] {
      WatchNothing(m);
    } else {
      assert more == [more[0]];
      WatchOne(m, more[0]);
    }
  }

  /** What the monitor makes of a stream: nothing, an open message, or a second start. */
  lemma {:induction false} WatchReceiving(turns: nat, context: seq<Message>, read: seq<StreamEvent>)
    ensures var s := ReceiveAll(Streamed(context, false, []), read);
            Watch(InTurn(turns, false, {}), s.events)
            == if Starts(read) > 1 then Rejected else InTurn(turns, Starts(read) == 1, {})
  {
    if read == [] {
    } else {
      hide Watch, Receive, ReceiveAll;
      var m, n := InTurn(turns, false, {}), |read| - 1;
      var s := ReceiveAll(Streamed(context, false, []), read[..n]);
      ReceiveGrowsByStarts(context, read[..n]);
      WatchReceiving(turns, context, read[..n]);
      assert read[..n + 1] == read;
      ReceiveNext(Streamed(context, false, []), read, n);
      WatchAppend(m, s.events, Receive(Streamed(s.context, s.added, []), read[n]).events);
      WatchReceived(Watch(m, s.events), s, read[n]);
    }
  }

  /** The shape of a response bracket: one start, some updates, one end. */
  lemma ResponseShape(context: seq<Message>, stream: seq<StreamEvent>, final: AssistantMessage)
    returns (first: AssistantMessage, rest: seq<StreamEvent>)
    requires Protocol(stream)
    ensures Respond(context, stream, final).events ==
            [MessageStart(Assistant(first))] + Updates(rest) + [MessageEnd(Assistant(final))]
  {
    var read := Consumed(stream);
    var at := FindStart(read);
    ResponseIsOneBracket(context, stream, final, at);
    if at < |read| {
      first, rest := read[at].partial, read[at + 1..];
    } else {
      first, rest := final, [];
    }
  }

  lemma {:induction false} ReceivingDeliversNothing(context: seq<Message>, read: seq<StreamEvent>)
    ensures forall e :: e in ReceiveAll(Streamed(context, false, []), read).events ==> !e.MessageEnd?
  {
    if read == [] {
    } else {
      ReceivingDeliversNothing(context, read[..|read| - 1]);
    }
  }

  /** Whatever the provider streams, a response delivers its final message and nothing else. */
  lemma ResponseDeliversItsMessage(context: seq<Message>, stream: seq<StreamEvent>, final: AssistantMessage)
    ensures Delivered(Respond(context, stream, final).events) == [Assistant(final)]
  {
    hide ReceiveAll, Delivered, Brackets;
    var s := ReceiveAll(Streamed(context, false, []), Consumed(stream));
    var end := MessageEnd(Assistant(final));
    ReceivingDeliversNothing(context, Consumed(stream));
    DeliversNothing(s.events);
    DeliveredAppend(s.events, [end]);
    DeliveredOne(Assistant(final));
    DeliveredAppend(s.events, Bracket(Assistant(final)));
    OneBracket(Assistant(final));
    DeliveredBrackets([Assistant(final)]);
  }

  /**
   A response opens and closes one message bracket exactly when the provider keeps to its protocol; a second start
   event is a message that opens inside another.
   */
  lemma ResponseIsBracketed(context: seq<Message>, stream: seq<StreamEvent>, final: AssistantMessage, turns: nat)
    ensures Watch(InTurn(turns, false, {}), Respond(context, stream, final).events)
            == if Protocol(stream) then InTurn(turns, false, {}) else Rejected
  {
    hide Watch, ReceiveAll;
    var m, read := InTurn(turns, false, {}), Consumed(stream);
    var s, end := ReceiveAll(Streamed(context, false, []), read), MessageEnd(Assistant(final));
    ReceiveGrowsByStarts(context, read);
    WatchReceiving(turns, context, read);
    if s.added && |s.context| > 0 {
      WatchAppend(m, s.events, [end]);
      WatchOne(Watch(m, s.events), end);
    } else {
      var start := MessageStart(Assistant(final));
      WatchAppend(m, s.events, Bracket(Assistant(final)));
      WatchAppend(m, [start], [end]);
      WatchOne(m, start);
      WatchOne(InTurn(turns, true, {}), end);
      assert [start] + [end] == Bracket(Assistant(final));
    }
  }

  /** React to one event before the end of the stream. */
  method ReceiveEvent(context: MessageList, e: StreamEvent, addedPartial: bool, sink: AgentState)
    returns (added: bool)
    requires sink.Valid() && context != sink.messages
    requires e.Start? || e.Delta?
    requires addedPartial ==> |context.items| > 0
    modifies context, sink, sink.messages
    ensures sink.Valid() && sink.messages == old(sink.messages) && sink.base == old(sink.base)
    ensures added ==> |context.items| > 0
    ensures var s := Receive(Streamed(old(context.items), addedPartial, []), e);
            && context.items == s.context && added == s.added
            && sink.trace == old(sink.trace) + s.events
  {
    added := addedPartial;
    match e {
      case Start(partial) =>
        context.Push(Assistant(partial));
        added := true;
        sink.Process(MessageStart(Assistant(partial)));
      case Delta(partial, delta) =>
        if addedPartial {
          context.SetLast(Assistant(partial));
          sink.Process(MessageUpdate(Assistant(partial), delta));
        }
    }
  }

  /** The read loop: it leaves the stream at its first done or error event, or at its end. */
  method ReadStream(context: MessageList, stream: seq<StreamEvent>, sink: AgentState)
    returns (addedPartial: bool, ghost read: nat)
    requires sink.Valid() && context != sink.messages
    modifies context, sink, sink.messages
    ensures sink.Valid() && sink.messages == old(sink.messages) && sink.base == old(sink.base)
    ensures addedPartial ==> |context.items| > 0
    ensures read == |Consumed(stream)|
    ensures var s := ReceiveAll(Streamed(old(context.items), false, []), Consumed(stream));
            && context.items == s.context && addedPartial == s.added
            && sink.trace == old(sink.trace) + s.events
  {
    hide ReduceAll, Receive;
    ghost var start, before := Streamed(context.items, false, []), sink.trace;
    ghost var s, all := start, Consumed(stream);
    addedPartial := false;
    var k := 0;
    while k < |stream| && (stream[k].Start? || stream[k].Delta?)
      invariant k <= |all|
      invariant s == ReceiveAll(start, all[..k])
      invariant sink.Valid() && sink.messages == old(sink.messages) && sink.base == old(sink.base)
      invariant context.items == s.context && addedPartial == s.added
      invariant sink.trace == before + s.events
      invariant addedPartial ==> |context.items| > 0
    {
      ReceiveNext(start, all, k);
      Associate(before, s.events, Receive(Streamed(s.context, s.added, []), stream[k]).events);
      addedPartial := ReceiveEvent(context, stream[k], addedPartial, sink);
      k := k + 1;
      s := ReceiveAll(start, all[..k]);
    }
    assert all[..k] == all;
    read := k;
  }

  /** Read one response into the context array, which other parties may hold a reference to. */
  method StreamAssistantResponse(
      context: MessageList, stream: seq<StreamEvent>, final: AssistantMessage, sink: AgentState)
    returns (response: AssistantMessage, ghost read: nat)
    requires sink.Valid() && context != sink.messages
    modifies context, sink, sink.messages
    ensures sink.Valid() && sink.messages == old(sink.messages) && sink.base == old(sink.base)
    ensures response == final && read == |Consumed(stream)|
    ensures context.items == Respond(old(context.items), stream, final).context
    ensures sink.trace == old(sink.trace) + Respond(old(context.items), stream, final).events
  {
    hide ReduceAll, Receive;
    ghost var before := sink.trace;
    ghost var s := ReceiveAll(Streamed(context.items, false, []), Consumed(stream));
    var addedPartial;
    addedPartial, read := ReadStream(context, stream, sink);
    if addedPartial {
      context.SetLast(Assistant(final));
      sink.Process(MessageEnd(Assistant(final)));
      Associate(before, s.events, [MessageEnd(Assistant(final))]);
    } else {
      context.Push(Assistant(final));
      sink.EmitBracket(Assistant(final));
      Associate(before, s.events, Bracket(Assistant(final)));
    }
    response := final;
  }
}
