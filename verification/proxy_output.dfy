/** What the proxy client hands on, event by event, said of the events it has received. */
module ProxyOutput {
  import opened Messages
  import opened ProxyEvents

  /** What an event must make the client hand on, given the events before it. */
  function Expected(events: seq<ProxyEvent>, e: ProxyEvent, json: string -> Option<string>): seq<OutEvent> {
    match e
    case Start => [Started]
    case TextStart(i) => [Opened(i)]
    case ThinkingStart(i) => [Opened(i)]
    case CallStart(i, _, _) => [Opened(i)]
    case TextDelta(i, delta) => [Added(i, delta)]
    case ThinkingDelta(i, delta) => [Added(i, delta)]
    case CallDelta(i, delta) => [Added(i, delta)]
    case TextEnd(i, _) => [Closed(i, DeltasSince(events, i))]
    case ThinkingEnd(i, _) => [Closed(i, DeltasSince(events, i))]
    case CallEnd(i) =>
      (match LastStart(events, i)
       case Some(CallStart(_, id, name)) => [CallClosed(i, id, name, ArgumentsOf(events, i, json))]
       case _ => [])
    case Done(reason, _) => [Finished(reason)]
    case Failure(reason, _, _) => [Failed(reason)]
    case Unknown => []
  }

  /** The exception of an event whose block was not started as one of its kind. */
  function Objection(events: seq<ProxyEvent>, e: ProxyEvent): Option<string> {
    match e
    case TextDelta(i, _) =>
      if StartedAsText(events, i) then None else Some("Received text_delta for non-text content")
    case TextEnd(i, _) =>
      if StartedAsText(events, i) then None else Some("Received text_end for non-text content")
    case ThinkingDelta(i, _) =>
      if StartedAsThinking(events, i) then None else Some("Received thinking_delta for non-thinking content")
    case ThinkingEnd(i, _) =>
      if StartedAsThinking(events, i) then None else Some("Received thinking_end for non-thinking content")
    case CallDelta(i, _) =>
      if StartedAsCall(events, i) then None else Some("Received toolcall_delta for non-toolCall content")
    case _ => None
  }

  predicate StartedAsText(events: seq<ProxyEvent>, i: nat) {
    LastStart(events, i).Some? && LastStart(events, i).value.TextStart?
  }

  predicate StartedAsThinking(events: seq<ProxyEvent>, i: nat) {
    LastStart(events, i).Some? && LastStart(events, i).value.ThinkingStart?
  }

  predicate StartedAsCall(events: seq<ProxyEvent>, i: nat) {
    LastStart(events, i).Some? && LastStart(events, i).value.CallStart?
  }

  lemma StepDoesAsExpected(
      block: Option<PartialBlock>, events: seq<ProxyEvent>, e: ProxyEvent, json: string -> Option<string>)
    requires e.OnBlock() && Holds(block, events, e.index, json)
    ensures match StepBlock(block, e, json)
            case Changed(_, out) =>
              && Objection(events, e).None?
              && Expected(events, e, json) == if out.Some? then [out.value] else []
            case Thrown(message) => Objection(events, e) == Some(message)
  {
    hide Parsed, TextOf, DeltasSince, ArgumentsOf, AddsAfterEnd, HasEnd;
  }

  /**
   After any events that have not thrown, the next one throws exactly if it is a delta or an end for a block that was
   not last started as one of its kind, and says so. Otherwise it hands on exactly what it must.
   */
  lemma WhatTheNextEventDoes(events: seq<ProxyEvent>, e: ProxyEvent, json: string -> Option<string>)
    requires Rebuild(events, json).error.None?
    ensures Rebuild(events + [e], json).error == Objection(events, e)
    ensures Objection(events, e).None? ==>
              Rebuild(events + [e], json).outs == Rebuild(events, json).outs + Expected(events, e, json)
  {
    hide Rebuild, StepBlock, Expected, Objection, Holds;
    RebuildNext(events, e, json);
    if e.OnBlock() {
      BlocksHoldTheirDeltas(events, json, e.index);
      StepDoesAsExpected(Get(Rebuild(events, json).partial, e.index), events, e, json);
    } else {
      OtherEventsDoAsExpected(Rebuild(events, json), events, e, json);
    }
  }

  lemma OtherEventsDoAsExpected(f: Folded, events: seq<ProxyEvent>, e: ProxyEvent, json: string -> Option<string>)
    requires f.error.None? && !e.OnBlock()
    ensures Objection(events, e).None? && Feed(f, e, json).error.None?
    ensures Feed(f, e, json).outs == f.outs + Expected(events, e, json)
  {
  }

  // ----- Starts and deltas, as they come and as they are handed on -----

  /** The starts and deltas of a block, in order; None stands for a start. */
  function Received(events: seq<ProxyEvent>, i: nat): seq<Option<string>> {
    if events == [] then []
    else
      var last := events[|events| - 1];
      Received(events[..|events| - 1], i)
      + if last.Opens(i) then [None] else if last.Adds(i) then [Some(last.delta)] else []
  }

  function HandedOn(outs: seq<OutEvent>, i: nat): seq<Option<string>> {
    if outs == [] then []
    else
      var last := outs[|outs| - 1];
      HandedOn(outs[..|outs| - 1], i)
      + if last == Opened(i) then [None] else if last.Added? && last.index == i then [Some(last.delta)] else []
  }

  /** The deltas handed on about a block since it was last opened, put together. */
  function HandedSince(outs: seq<OutEvent>, i: nat): string {
    if outs == [] || outs[|outs| - 1] == Opened(i) then ""
    else
      var last := outs[|outs| - 1];
      HandedSince(outs[..|outs| - 1], i) + if last.Added? && last.index == i then last.delta else ""
  }

  lemma ExpectedStartsAndDeltas(
      outs: seq<OutEvent>, events: seq<ProxyEvent>, e: ProxyEvent, json: string -> Option<string>, i: nat)
    ensures var out := outs + Expected(events, e, json);
            && HandedOn(out, i)
               == HandedOn(outs, i) + (if e.Opens(i) then [None] else if e.Adds(i) then [Some(e.delta)] else [])
            && HandedSince(out, i)
               == if e.Opens(i) then "" else HandedSince(outs, i) + if e.Adds(i) then e.delta else ""
  {
    hide DeltasSince, ArgumentsOf, LastStart;
    var more := Expected(events, e, json);
    assert HandedSince(outs, i) + "" == HandedSince(outs, i);
    if more == [] {
      assert outs + more == outs;
    } else {
      assert |more| == 1 && (outs + more)[..|outs|] == outs;
    }
  }

  /**
   As long as nothing throws, every start and every delta is handed on once, in order and with its own text, for text,
   thinking and tool-call blocks alike; so the deltas handed on since a block was opened are those it has received.
   */
  lemma {:induction false} StartsAndDeltasAreHandedOn(events: seq<ProxyEvent>, json: string -> Option<string>, i: nat)
    requires Rebuild(events, json).error.None?
    ensures HandedOn(Rebuild(events, json).outs, i) == Received(events, i)
    ensures HandedSince(Rebuild(events, json).outs, i) == DeltasSince(events, i)
  {
    if events == [] {
      RebuildNothing(json);
    } else {
      hide Rebuild, Expected, Objection, HandedOn, HandedSince;
      var n := |events| - 1;
      var front, e := events[..n], events[n];
      assert front + [e] == events;
      NothingThrownBefore(front, e, json);
      StartsAndDeltasAreHandedOn(front, json, i);
      WhatTheNextEventDoes(front, e, json);
      ExpectedStartsAndDeltas(Rebuild(front, json).outs, front, e, json, i);
    }
  }

  // ----- Signatures -----

  /** The signature of the last end of a text or thinking block since it was started. */
  function LastSignature(events: seq<ProxyEvent>, i: nat): Option<string> {
    if events == [] || events[|events| - 1].Opens(i) then None
    else
      var last := events[|events| - 1];
      if last.On(i) && (last.TextEnd? || last.ThinkingEnd?) then last.signature
      else LastSignature(events[..|events| - 1], i)
  }

  predicate Signed(block: Option<PartialBlock>, signature: Option<string>) {
    match block
    case Some(TextBlock(_, s)) => s == signature
    case Some(ThinkingBlock(_, s)) => s == signature
    case _ => true
  }

  lemma StepSigns(
      block: Option<PartialBlock>, events: seq<ProxyEvent>, e: ProxyEvent, i: nat, json: string -> Option<string>)
    requires e.On(i) && Signed(block, LastSignature(events, i)) && StepBlock(block, e, json).Changed?
    ensures Signed(StepBlock(block, e, json).block, LastSignature(events + [e], i))
  {
    assert (events + [e])[..|events|] == events;
  }

  /** A text or thinking block carries the signature of its last end. */
  lemma {:induction false} BlocksCarryTheirSignature(events: seq<ProxyEvent>, json: string -> Option<string>, i: nat)
    requires Rebuild(events, json).error.None?
    ensures Signed(Get(Rebuild(events, json).partial, i), LastSignature(events, i))
  {
    if events == [] {
      RebuildNothing(json);
    } else {
      hide Rebuild, Feed, StepBlock, Signed;
      var n := |events| - 1;
      var front, e := events[..n], events[n];
      assert front + [e] == events;
      RebuildNext(front, e, json);
      NothingThrownBefore(front, e, json);
      BlocksCarryTheirSignature(front, json, i);
      FeedIsLocal(Rebuild(front, json), e, json, i);
      if e.On(i) {
        StepSigns(Get(Rebuild(front, json).partial, i), front, e, i, json);
      }
    }
  }

  // ----- Arguments -----

  /** What a parser's answer means: the value it gives, or the empty object. */
  predicate IsAnswer(arguments: string, answer: Option<string>) {
    (answer.Some? ==> arguments == answer.value) && (answer.None? ==> arguments == "{}")
  }

  /**
   The arguments of a tool call are the parser's answer to its deltas put together, unless the last of them came late;
   the empty object before the first; and behind a late delta the answer to what has come since the end, with the text
   "undefined" before it.
   */
  lemma ArgumentsAreTheParsersAnswer(events: seq<ProxyEvent>, json: string -> Option<string>, i: nat)
    requires Rebuild(events, json).error.None? && StartedAsCall(events, i)
    ensures var block := Get(Rebuild(events, json).partial, i);
            && block.Some? && block.value.CallBlock?
            && (!HasDelta(events, i) ==> block.value.arguments == "{}")
            && (HasDelta(events, i) && !LateDelta(events, i) ==>
                  IsAnswer(block.value.arguments, json(DeltasSince(events, i))))
            && (events[|events| - 1].Adds(i) && HasEnd(events, i) ==>
                  IsAnswer(block.value.arguments, json("undefined" + AfterEnd(events, i))))
  {
    hide Rebuild;
    assert events != [];
    BlocksHoldTheirDeltas(events, json, i);
    ParsedTextIsTheDeltasExactly(events, i);
  }
}
