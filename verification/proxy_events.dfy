/**
 The proxy's stripped events, and the message rebuilt from them block by block.

 The JSON parser for streamed tool arguments is a parameter: `json(text)` is the value it gives, None when that
 value is falsy and the empty object takes its place.
 */
module ProxyEvents {
  import opened Messages

  datatype ProxyEvent =
    | Start
    | TextStart(index: nat)
    | TextDelta(index: nat, delta: string)
    | TextEnd(index: nat, signature: Option<string>)
    | ThinkingStart(index: nat)
    | ThinkingDelta(index: nat, delta: string)
    | ThinkingEnd(index: nat, signature: Option<string>)
    | CallStart(index: nat, id: string, name: string)
    | CallDelta(index: nat, delta: string)
    | CallEnd(index: nat)
    | Done(reason: StopReason, usage: string)
    | Failure(reason: StopReason, message: Option<string>, usage: string)
    | Unknown
  {
    predicate OnBlock() {
      !Start? && !Done? && !Failure? && !Unknown?
    }

    predicate On(i: nat) {
      OnBlock() && index == i
    }

    predicate Opens(i: nat) {
      On(i) && (TextStart? || ThinkingStart? || CallStart?)
    }

    predicate Adds(i: nat) {
      On(i) && (TextDelta? || ThinkingDelta? || CallDelta?)
    }

    predicate Ends(i: nat) {
      On(i) && CallEnd?
    }
  }

  datatype PartialBlock =
    | TextBlock(text: string, signature: Option<string>)
    | ThinkingBlock(thinking: string, signature: Option<string>)
    | CallBlock(id: string, name: string, arguments: string, partialJson: Option<string>)

  /** The rebuilt message: content is a sparse array, as blocks may start in any order. */
  datatype Partial = Partial(
    content: map<nat, PartialBlock>, stopReason: StopReason, errorMessage: Option<string>, usage: string)

  /** What is handed on for an event. The events also carry the message itself. */
  datatype OutEvent =
    | Started
    | Opened(index: nat)
    | Added(index: nat, delta: string)
    | Closed(index: nat, content: string)
    | CallClosed(index: nat, id: string, name: string, arguments: string)
    | Finished(reason: StopReason)
    | Failed(reason: StopReason)
  {
    predicate About(i: nat) {
      (Opened? || Added? || Closed? || CallClosed?) && index == i
    }
  }

  const EMPTY_OBJECT := "{}"

  /** What appending to a property that toolcall_end has deleted starts from. */
  const UNDEFINED := "undefined"

  function Parsed(json: string -> Option<string>, text: string): string {
    var value := json(text);
    if value.Some? then value.value else EMPTY_OBJECT
  }

  /** What one event does to the block it names. */
  datatype BlockStep = Changed(block: Option<PartialBlock>, out: Option<OutEvent>) | Thrown(message: string)

  function StepBlock(block: Option<PartialBlock>, e: ProxyEvent, json: string -> Option<string>): BlockStep
    requires e.OnBlock()
  {
    match e
    case TextStart(i) => Changed(Some(TextBlock("", None)), Some(Opened(i)))
    case TextDelta(i, delta) =>
      (match block
       case Some(TextBlock(text, signature)) =>
         Changed(Some(TextBlock(text + delta, signature)), Some(Added(i, delta)))
       case _ => Thrown("Received text_delta for non-text content"))
    case TextEnd(i, signature) =>
      (match block
       case Some(TextBlock(text, _)) => Changed(Some(TextBlock(text, signature)), Some(Closed(i, text)))
       case _ => Thrown("Received text_end for non-text content"))
    case ThinkingStart(i) => Changed(Some(ThinkingBlock("", None)), Some(Opened(i)))
    case ThinkingDelta(i, delta) =>
      (match block
       case Some(ThinkingBlock(thinking, signature)) =>
         Changed(Some(ThinkingBlock(thinking + delta, signature)), Some(Added(i, delta)))
       case _ => Thrown("Received thinking_delta for non-thinking content"))
    case ThinkingEnd(i, signature) =>
      (match block
       case Some(ThinkingBlock(thinking, _)) =>
         Changed(Some(ThinkingBlock(thinking, signature)), Some(Closed(i, thinking)))
       case _ => Thrown("Received thinking_end for non-thinking content"))
    case CallStart(i, id, name) =>
      Changed(Some(CallBlock(id, name, EMPTY_OBJECT, Some(""))), Some(Opened(i)))
    case CallDelta(i, delta) =>
      (match block
       case Some(CallBlock(id, name, _, partialJson)) =>
         var text := (if partialJson.Some? then partialJson.value else UNDEFINED) + delta;
         Changed(Some(CallBlock(id, name, Parsed(json, text), Some(text))), Some(Added(i, delta)))
       case _ => Thrown("Received toolcall_delta for non-toolCall content"))
    case CallEnd(i) =>
      (match block
       case Some(CallBlock(id, name, arguments, _)) =>
         Changed(Some(CallBlock(id, name, arguments, None)), Some(CallClosed(i, id, name, arguments)))
       case _ => Changed(block, None))
  }

  function Get(p: Partial, i: nat): Option<PartialBlock> {
    if i in p.content then Some(p.content[i]) else None
  }

  function Put(p: Partial, i: nat, block: Option<PartialBlock>): Partial {
    if block.Some? then p.(content := p.content[i := block.value]) else p
  }

  datatype Processed = Ok(partial: Partial, out: Option<OutEvent>) | Throw(message: string)

  function Process(p: Partial, e: ProxyEvent, json: string -> Option<string>): Processed {
    match e
    case Start => Ok(p, Some(Started))
    case Done(reason, usage) => Ok(p.(stopReason := reason, usage := usage), Some(Finished(reason)))
    case Failure(reason, message, usage) =>
      Ok(p.(stopReason := reason, errorMessage := message, usage := usage), Some(Failed(reason)))
    case Unknown => Ok(p, None)
    case _ =>
      match StepBlock(Get(p, e.index), e, json)
      case Changed(block, out) => Ok(Put(p, e.index, block), out)
      case Thrown(message) => Throw(message)
  }

  /** The message after some events, what was handed on, and the error that stopped the processing, if any. */
  datatype Folded = Folded(partial: Partial, outs: seq<OutEvent>, error: Option<string>)

  function Feed(f: Folded, e: ProxyEvent, json: string -> Option<string>): Folded {
    if f.error.Some? then f
    else
      match Process(f.partial, e, json)
      case Ok(partial, out) => Folded(partial, f.outs + if out.Some? then [out.value] else [], None)
      case Throw(message) => f.(error := Some(message))
  }

  function FeedAll(f: Folded, events: seq<ProxyEvent>, json: string -> Option<string>): Folded {
    if events == [] then f
    else Feed(FeedAll(f, events[..|events| - 1], json), events[|events| - 1], json)
  }

  const EMPTY := Partial(map[], Stop, None, "")

  function Rebuild(events: seq<ProxyEvent>, json: string -> Option<string>): Folded {
    FeedAll(Folded(EMPTY, [], None), events, json)
  }

  // ----- Blocks are independent -----

  /** The events about one block, in order. */
  function Only(events: seq<ProxyEvent>, i: nat): seq<ProxyEvent> {
    if events == [] then []
    else
      var last := events[|events| - 1];
      Only(events[..|events| - 1], i) + if last.On(i) then [last] else []
  }

  lemma RebuildNext(events: seq<ProxyEvent>, e: ProxyEvent, json: string -> Option<string>)
    ensures Rebuild(events + [e], json) == Feed(Rebuild(events, json), e, json)
    ensures forall i: nat :: Only(events + [e], i) == Only(events, i) + if e.On(i) then [e] else []
  {
    hide Feed;
    assert (events + [e])[..|events|] == events;
  }

  lemma FeedIsLocal(f: Folded, e: ProxyEvent, json: string -> Option<string>, i: nat)
    requires f.error.None?
    ensures var next := Feed(f, e, json);
            && (e.On(i) ==>
                  match StepBlock(Get(f.partial, i), e, json)
                  case Changed(block, _) => next.error.None? && Get(next.partial, i) == block
                  case Thrown(message) => next.error == Some(message))
            && (!e.On(i) && next.error.None? ==> Get(next.partial, i) == Get(f.partial, i))
            && (!e.OnBlock() ==> next.error.None?)
  {
    if e.On(i) && StepBlock(Get(f.partial, i), e, json).Changed? {
      StepNeverRemoves(Get(f.partial, i), e, json);
    }
  }

  /** No event takes a block away. */
  lemma StepNeverRemoves(block: Option<PartialBlock>, e: ProxyEvent, json: string -> Option<string>)
    requires e.OnBlock() && StepBlock(block, e, json).Changed?
    ensures block.Some? ==> StepBlock(block, e, json).block.Some?
  {
  }

  lemma ThrownStaysThrown(events: seq<ProxyEvent>, e: ProxyEvent, json: string -> Option<string>)
    requires Rebuild(events, json).error.Some?
    ensures Rebuild(events + [e], json) == Rebuild(events, json)
  {
    RebuildNext(events, e, json);
  }

  lemma NothingThrownBefore(events: seq<ProxyEvent>, e: ProxyEvent, json: string -> Option<string>)
    requires Rebuild(events + [e], json).error.None?
    ensures Rebuild(events, json).error.None?
  {
    RebuildNext(events, e, json);
  }

  /**
   A block depends on its own events alone. As long as nothing throws, the block at `i` is what the events about
   `i` make by themselves, whatever the events about other blocks and however they are interleaved.
   */
  lemma {:induction false} BlockDependsOnItsEvents(events: seq<ProxyEvent>, json: string -> Option<string>, i: nat)
    requires Rebuild(events, json).error.None?
    ensures Rebuild(Only(events, i), json).error.None?
    ensures Get(Rebuild(events, json).partial, i) == Get(Rebuild(Only(events, i), json).partial, i)
  {
    if events == [] {
    } else {
      hide Feed, Rebuild;
      var n := |events| - 1;
      var front, e := events[..n], events[n];
      assert front + [e] == events;
      RebuildNext(front, e, json);
      NothingThrownBefore(front, e, json);
      BlockDependsOnItsEvents(front, json, i);
      FeedIsLocal(Rebuild(front, json), e, json, i);
      if e.On(i) {
        RebuildNext(Only(front, i), e, json);
        FeedIsLocal(Rebuild(Only(front, i), json), e, json, i);
      } else {
        assert Only(front, i) + [] == Only(front, i);
      }
    }
  }

  /** What was handed on about one block, in order. */
  function OutsAbout(outs: seq<OutEvent>, i: nat): seq<OutEvent> {
    if outs == [] then []
    else
      var last := outs[|outs| - 1];
      OutsAbout(outs[..|outs| - 1], i) + if last.About(i) then [last] else []
  }

  lemma StepSpeaksOfItsBlock(block: Option<PartialBlock>, e: ProxyEvent, json: string -> Option<string>, i: nat)
    requires e.OnBlock() && StepBlock(block, e, json).Changed? && StepBlock(block, e, json).out.Some?
    ensures StepBlock(block, e, json).out.value.About(i) <==> e.On(i)
  {
  }

  lemma FeedHandsOn(f: Folded, e: ProxyEvent, json: string -> Option<string>, i: nat)
    requires f.error.None? && Feed(f, e, json).error.None?
    ensures OutsAbout(Feed(f, e, json).outs, i)
            == OutsAbout(f.outs, i)
               + if e.On(i) && StepBlock(Get(f.partial, i), e, json).out.Some?
                 then [StepBlock(Get(f.partial, i), e, json).out.value] else []
  {
    hide StepBlock;
    var out := Process(f.partial, e, json).out;
    if e.OnBlock() && out.Some? {
      StepSpeaksOfItsBlock(Get(f.partial, e.index), e, json, i);
    }
    if out.Some? {
      assert (f.outs + [out.value])[..|f.outs|] == f.outs;
    } else {
      assert f.outs + [] == f.outs;
    }
    assert OutsAbout(f.outs, i) + [] == OutsAbout(f.outs, i);
  }

  /** What is handed on about a block depends on the events about it alone, too. */
  lemma {:induction false} OutputDependsOnItsEvents(events: seq<ProxyEvent>, json: string -> Option<string>, i: nat)
    requires Rebuild(events, json).error.None?
    ensures OutsAbout(Rebuild(events, json).outs, i) == OutsAbout(Rebuild(Only(events, i), json).outs, i)
  {
    if events == [] {
    } else {
      hide Feed, Rebuild, OutsAbout;
      var n := |events| - 1;
      var front, e := events[..n], events[n];
      assert front + [e] == events;
      RebuildNext(front, e, json);
      NothingThrownBefore(front, e, json);
      OutputDependsOnItsEvents(front, json, i);
      BlockDependsOnItsEvents(front, json, i);
      BlockDependsOnItsEvents(events, json, i);
      FeedHandsOn(Rebuild(front, json), e, json, i);
      if e.On(i) {
        RebuildNext(Only(front, i), e, json);
        FeedHandsOn(Rebuild(Only(front, i), json), e, json, i);
      } else {
        assert Only(front, i) + [] == Only(front, i);
      }
    }
  }

  /** The block at which the processing of a list of events throws, if it throws. */
  lemma {:induction false} ThrowingBlock(events: seq<ProxyEvent>, json: string -> Option<string>)
    returns (i: nat)
    requires Rebuild(events, json).error.Some?
    ensures Rebuild(Only(events, i), json).error == Rebuild(events, json).error
  {
    hide Feed, Rebuild;
    i := 0;
    if events == [] {
      RebuildNothing(json);
      assert false;
    } else {
      var n := |events| - 1;
      var front, e := events[..n], events[n];
      assert front + [e] == events;
      RebuildNext(front, e, json);
      if Rebuild(front, json).error.Some? {
        i := ThrowingBlock(front, json);
        ThrownStaysThrown(front, e, json);
        if e.On(i) {
          ThrownStaysThrown(Only(front, i), e, json);
        } else {
          assert Only(front, i) + [] == Only(front, i);
        }
      } else {
        i := if e.OnBlock() then e.index else 0;
        FeedIsLocal(Rebuild(front, json), e, json, i);
        BlockDependsOnItsEvents(front, json, i);
        RebuildNext(Only(front, i), e, json);
        FeedIsLocal(Rebuild(Only(front, i), json), e, json, i);
      }
    }
  }

  lemma RebuildNothing(json: string -> Option<string>)
    ensures Rebuild([], json) == Folded(EMPTY, [], None)
  {
  }

  /** A list of events throws exactly when the events about some block throw by themselves. */
  lemma ThrowsExactlyWhenABlockThrows(events: seq<ProxyEvent>, json: string -> Option<string>)
    ensures Rebuild(events, json).error.Some?
            <==> exists i: nat :: Rebuild(Only(events, i), json).error.Some?
  {
    hide Rebuild;
    if Rebuild(events, json).error.Some? {
      var i := ThrowingBlock(events, json);
      assert Rebuild(Only(events, i), json).error.Some?;
    } else {
      forall i: nat ensures Rebuild(Only(events, i), json).error.None? {
        BlockDependsOnItsEvents(events, json, i);
      }
    }
  }

  lemma ThrowTransfers(a: seq<ProxyEvent>, b: seq<ProxyEvent>, json: string -> Option<string>)
    requires forall i: nat :: Only(a, i) == Only(b, i)
    requires Rebuild(a, json).error.Some?
    ensures Rebuild(b, json).error.Some?
  {
    hide Rebuild, Only;
    var i := ThrowingBlock(a, json);
    assert Only(a, i) == Only(b, i);
    if Rebuild(b, json).error.None? {
      BlockDependsOnItsEvents(b, json, i);
    }
  }

  /**
   Two interleavings of the same events per block throw both or neither, rebuild the same content, and hand on the
   same about each block.
   */
  lemma InterleavingDoesNotMatter(a: seq<ProxyEvent>, b: seq<ProxyEvent>, json: string -> Option<string>)
    requires forall i: nat :: Only(a, i) == Only(b, i)
    ensures Rebuild(a, json).error.Some? <==> Rebuild(b, json).error.Some?
    ensures Rebuild(a, json).error.None? ==>
              && Rebuild(a, json).partial.content == Rebuild(b, json).partial.content
              && forall i: nat ::
                   OutsAbout(Rebuild(a, json).outs, i) == OutsAbout(Rebuild(b, json).outs, i)
  {
    hide Rebuild, Only;
    if Rebuild(a, json).error.Some? {
      ThrowTransfers(a, b, json);
    } else {
      if Rebuild(b, json).error.Some? {
        ThrowTransfers(b, a, json);
      }
      var p, q := Rebuild(a, json).partial, Rebuild(b, json).partial;
      forall i: nat ensures Get(p, i) == Get(q, i) {
        assert Only(a, i) == Only(b, i);
        BlockDependsOnItsEvents(a, json, i);
        BlockDependsOnItsEvents(b, json, i);
      }
      SameBlocks(p, q);
      forall i: nat ensures OutsAbout(Rebuild(a, json).outs, i) == OutsAbout(Rebuild(b, json).outs, i) {
        assert Only(a, i) == Only(b, i);
        OutputDependsOnItsEvents(a, json, i);
        OutputDependsOnItsEvents(b, json, i);
      }
    }
  }

  lemma SameBlocks(p: Partial, q: Partial)
    requires forall i: nat :: Get(p, i) == Get(q, i)
    ensures p.content == q.content
  {
    forall i | i in p.content ensures i in q.content && p.content[i] == q.content[i] {
      assert Get(p, i) == Get(q, i);
    }
    forall i | i in q.content ensures i in p.content {
      assert Get(p, i) == Get(q, i);
    }
  }

  // ----- How a message ends -----

  function LastEnd(events: seq<ProxyEvent>): (end: Option<ProxyEvent>)
    ensures end.Some? ==> end.value.Done? || end.value.Failure?
  {
    if events == [] then None
    else
      var last := events[|events| - 1];
      if last.Done? || last.Failure? then Some(last) else LastEnd(events[..|events| - 1])
  }

  function LastFailure(events: seq<ProxyEvent>): (failure: Option<ProxyEvent>)
    ensures failure.Some? ==> failure.value.Failure?
  {
    if events == [] then None
    else if events[|events| - 1].Failure? then Some(events[|events| - 1])
    else LastFailure(events[..|events| - 1])
  }

  lemma FeedKeepsEnding(f: Folded, e: ProxyEvent, json: string -> Option<string>)
    requires f.error.None? && !e.Done? && !e.Failure?
    ensures var p, q := f.partial, Feed(f, e, json).partial;
            q.stopReason == p.stopReason && q.usage == p.usage && q.errorMessage == p.errorMessage
  {
    hide StepBlock;
  }

  /** Reading goes on after a done or error event: the last of them decides how the message ends. */
  lemma {:induction false} LastEndDecides(events: seq<ProxyEvent>, json: string -> Option<string>)
    requires Rebuild(events, json).error.None?
    ensures var p := Rebuild(events, json).partial;
            && p.stopReason == (if LastEnd(events).Some? then LastEnd(events).value.reason else Stop)
            && p.usage == (if LastEnd(events).Some? then LastEnd(events).value.usage else "")
            && p.errorMessage == (if LastFailure(events).Some? then LastFailure(events).value.message else None)
  {
    if events == [] {
      RebuildNothing(json);
    } else {
      hide Rebuild, StepBlock;
      var n := |events| - 1;
      assert events[..n] + [events[n]] == events;
      RebuildNext(events[..n], events[n], json);
      NothingThrownBefore(events[..n], events[n], json);
      LastEndDecides(events[..n], json);
      if !events[n].Done? && !events[n].Failure? {
        FeedKeepsEnding(Rebuild(events[..n], json), events[n], json);
      }
    }
  }

  // ----- What a block holds -----

  /** The deltas for a block since it was last started, put together. */
  function DeltasSince(events: seq<ProxyEvent>, i: nat): string {
    if events == [] then ""
    else
      var last := events[|events| - 1];
      if last.Opens(i) then ""
      else DeltasSince(events[..|events| - 1], i) + if last.Adds(i) then last.delta else ""
  }

  /** The event that last started a block. */
  function LastStart(events: seq<ProxyEvent>, i: nat): Option<ProxyEvent> {
    if events == [] then None
    else if events[|events| - 1].Opens(i) then Some(events[|events| - 1])
    else LastStart(events[..|events| - 1], i)
  }

  /** Whether a block has had a delta since it was last started. */
  predicate HasDelta(events: seq<ProxyEvent>, i: nat) {
    events != [] &&
    var last := events[|events| - 1];
    !last.Opens(i) && (last.Adds(i) || HasDelta(events[..|events| - 1], i))
  }

  /** Whether a block has had a tool-call end since it was last started. */
  predicate HasEnd(events: seq<ProxyEvent>, i: nat) {
    events != [] &&
    var last := events[|events| - 1];
    !last.Opens(i) && (last.Ends(i) || HasEnd(events[..|events| - 1], i))
  }

  /** The deltas between a block's last start and its last tool-call end after that, and those since then. */
  function BeforeEnd(events: seq<ProxyEvent>, i: nat): string {
    if events == [] || events[|events| - 1].Opens(i) then ""
    else
      var front := events[..|events| - 1];
      if events[|events| - 1].Ends(i) then DeltasSince(front, i) else BeforeEnd(front, i)
  }

  function AfterEnd(events: seq<ProxyEvent>, i: nat): string {
    if events == [] || events[|events| - 1].Opens(i) || events[|events| - 1].Ends(i) then ""
    else
      var last := events[|events| - 1];
      AfterEnd(events[..|events| - 1], i) + if last.Adds(i) then last.delta else ""
  }

  predicate AddsAfterEnd(events: seq<ProxyEvent>, i: nat) {
    events != [] &&
    var last := events[|events| - 1];
    !last.Opens(i) && !last.Ends(i) && (last.Adds(i) || AddsAfterEnd(events[..|events| - 1], i))
  }

  /** Whether the last delta of a block came after a tool-call end, and the deltas that had come before that end. */
  predicate LateDelta(events: seq<ProxyEvent>, i: nat) {
    events != [] &&
    var last := events[|events| - 1];
    !last.Opens(i) && if last.Adds(i) then HasEnd(events, i) else LateDelta(events[..|events| - 1], i)
  }

  function Lost(events: seq<ProxyEvent>, i: nat): string {
    if events == [] || events[|events| - 1].Opens(i) then ""
    else if events[|events| - 1].Adds(i) then BeforeEnd(events, i)
    else Lost(events[..|events| - 1], i)
  }

  function TextOf(events: seq<ProxyEvent>, i: nat): string {
    (if HasEnd(events, i) then UNDEFINED else "") + AfterEnd(events, i)
  }

  /** The text that is parsed into the arguments of a tool call at its last delta. */
  function ParsedText(events: seq<ProxyEvent>, i: nat): string {
    if events == [] || events[|events| - 1].Opens(i) then ""
    else if events[|events| - 1].Adds(i) then TextOf(events, i)
    else ParsedText(events[..|events| - 1], i)
  }

  /** What the events say a block must hold. */
  ghost predicate Holds(block: Option<PartialBlock>, events: seq<ProxyEvent>, i: nat, json: string -> Option<string>) {
    match LastStart(events, i)
    case None => block.None?
    case Some(TextStart(_)) => block.Some? && block.value.TextBlock? && block.value.text == DeltasSince(events, i)
    case Some(ThinkingStart(_)) =>
      block.Some? && block.value.ThinkingBlock? && block.value.thinking == DeltasSince(events, i)
    case Some(CallStart(_, id, name)) =>
      && block.Some? && block.value.CallBlock? && block.value.id == id && block.value.name == name
      && block.value.arguments == ArgumentsOf(events, i, json)
      && block.value.partialJson
         == (if HasEnd(events, i) && !AddsAfterEnd(events, i) then None else Some(TextOf(events, i)))
    case Some(_) => false
  }

  function ArgumentsOf(events: seq<ProxyEvent>, i: nat, json: string -> Option<string>): string {
    if HasDelta(events, i) then Parsed(json, ParsedText(events, i)) else EMPTY_OBJECT
  }

  lemma {:induction false} NoEndNoneBefore(events: seq<ProxyEvent>, i: nat)
    requires !HasEnd(events, i)
    ensures BeforeEnd(events, i) == ""
  {
    if events == [] || events[|events| - 1].Opens(i) {
    } else {
      NoEndNoneBefore(events[..|events| - 1], i);
    }
  }

  lemma JoinTexts(a: string, b: string, c: string)
    ensures a + b + c == a + (b + c)
    ensures a + "" == a
  {
  }

  lemma {:induction false} EndDividesDeltas(events: seq<ProxyEvent>, i: nat)
    ensures DeltasSince(events, i) == BeforeEnd(events, i) + AfterEnd(events, i)
  {
    if events == [] || events[|events| - 1].Opens(i) {
    } else {
      var front, last := events[..|events| - 1], events[|events| - 1];
      var delta := if last.Adds(i) then last.delta else "";
      JoinTexts(BeforeEnd(front, i), AfterEnd(front, i), delta);
      if last.Ends(i) {
        JoinTexts(DeltasSince(front, i), "", "");
      } else {
        EndDividesDeltas(front, i);
      }
    }
  }

  lemma SamePrefix(a: string, b: string, rest: string)
    ensures a + rest == b + rest <==> a == b
  {
    if a + rest == b + rest {
      assert a == (a + rest)[..|a|];
      assert b == (b + rest)[..|b|];
    }
  }

  /**
   The text that is parsed is the deltas since the last start, put together, exactly when the last delta did not
   come after an end, or when the deltas lost at that end happened to spell the text that takes their place.
   */
  lemma {:induction false} ParsedTextIsTheDeltasExactly(events: seq<ProxyEvent>, i: nat)
    ensures ParsedText(events, i) == DeltasSince(events, i)
            <==> !LateDelta(events, i) || Lost(events, i) == UNDEFINED
  {
    if events == [] || events[|events| - 1].Opens(i) {
    } else {
      var front := events[..|events| - 1];
      if events[|events| - 1].Adds(i) {
        EndDividesDeltas(events, i);
        if HasEnd(events, i) {
          SamePrefix(UNDEFINED, BeforeEnd(events, i), AfterEnd(events, i));
        } else {
          NoEndNoneBefore(events, i);
        }
      } else {
        ParsedTextIsTheDeltasExactly(front, i);
        assert DeltasSince(front, i) + "" == DeltasSince(front, i);
      }
    }
  }

  lemma HoldsStep(
      block: Option<PartialBlock>, events: seq<ProxyEvent>, e: ProxyEvent, i: nat, json: string -> Option<string>)
    requires Holds(block, events, i, json) && e.On(i)
    requires StepBlock(block, e, json).Changed?
    ensures Holds(StepBlock(block, e, json).block, events + [e], i, json)
  {
    assert (events + [e])[..|events|] == events;
    assert DeltasSince(events, i) + "" == DeltasSince(events, i);
    if e.Adds(i) {
      TextGrows(events, e, i);
    } else if e.Opens(i) {
      assert TextOf(events + [e], i) == "";
    }
  }

  lemma TextGrows(events: seq<ProxyEvent>, e: ProxyEvent, i: nat)
    requires e.Adds(i)
    ensures TextOf(events + [e], i) == TextOf(events, i) + e.delta
    ensures HasEnd(events, i) && !AddsAfterEnd(events, i) ==> TextOf(events + [e], i) == UNDEFINED + e.delta
  {
    assert (events + [e])[..|events|] == events;
    JoinTexts(if HasEnd(events, i) then UNDEFINED else "", AfterEnd(events, i), e.delta);
    JoinTexts(UNDEFINED, "", "");
    NothingAddedAfterEnd(events, i);
  }

  lemma {:induction false} NothingAddedAfterEnd(events: seq<ProxyEvent>, i: nat)
    ensures !AddsAfterEnd(events, i) ==> AfterEnd(events, i) == ""
  {
    if events == [] || events[|events| - 1].Opens(i) || events[|events| - 1].Ends(i) {
    } else {
      NothingAddedAfterEnd(events[..|events| - 1], i);
    }
  }

  lemma HoldsSkip(
      block: Option<PartialBlock>, events: seq<ProxyEvent>, e: ProxyEvent, i: nat, json: string -> Option<string>)
    requires Holds(block, events, i, json) && !e.On(i)
    ensures Holds(block, events + [e], i, json)
  {
    assert (events + [e])[..|events|] == events;
    assert DeltasSince(events, i) + "" == DeltasSince(events, i);
    assert AfterEnd(events, i) + "" == AfterEnd(events, i);
  }

  /**
   As long as nothing throws, a text or thinking block holds exactly the deltas since its last start, and the
   arguments of a tool call are the parse of its text since then.
   */
  lemma {:induction false} BlocksHoldTheirDeltas(events: seq<ProxyEvent>, json: string -> Option<string>, i: nat)
    requires Rebuild(events, json).error.None?
    ensures Holds(Get(Rebuild(events, json).partial, i), events, i, json)
  {
    hide Feed;
    if events == [] {
    } else {
      hide Rebuild, Holds;
      var n := |events| - 1;
      var front, e := events[..n], events[n];
      assert front + [e] == events;
      RebuildNext(front, e, json);
      NothingThrownBefore(front, e, json);
      BlocksHoldTheirDeltas(front, json, i);
      FeedIsLocal(Rebuild(front, json), e, json, i);
      if e.On(i) {
        HoldsStep(Get(Rebuild(front, json).partial, i), front, e, i, json);
      } else {
        HoldsSkip(Get(Rebuild(front, json).partial, i), front, e, i, json);
      }
    }
  }

  /** An end event reports exactly the deltas since the block's last start. */
  lemma EndReportsDeltas(events: seq<ProxyEvent>, end: ProxyEvent, json: string -> Option<string>)
    requires end.TextEnd? || end.ThinkingEnd?
    requires Rebuild(events + [end], json).error.None?
    ensures Rebuild(events + [end], json).outs
            == Rebuild(events, json).outs + [Closed(end.index, DeltasSince(events, end.index))]
  {
    hide Rebuild;
    RebuildNext(events, end, json);
    if Rebuild(events, json).error.None? {
      BlocksHoldTheirDeltas(events, json, end.index);
    } else {
      ThrownStaysThrown(events, end, json);
    }
  }

  /**
   A tool call's end event reports the id and name of its start and the arguments so far. They are the parse of its
   deltas put together, unless the last one came after an end and the ones lost there tell.
   */
  lemma CallEndReportsArguments(events: seq<ProxyEvent>, i: nat, json: string -> Option<string>)
    requires Rebuild(events, json).error.None?
    requires LastStart(events, i).Some? && LastStart(events, i).value.CallStart?
    ensures var start := LastStart(events, i).value;
            Rebuild(events + [CallEnd(i)], json).outs
            == Rebuild(events, json).outs
               + [CallClosed(i, start.id, start.name, ArgumentsOf(events, i, json))]
    ensures HasDelta(events, i) && (!LateDelta(events, i) || Lost(events, i) == UNDEFINED) ==>
              ArgumentsOf(events, i, json) == Parsed(json, DeltasSince(events, i))
  {
    hide Rebuild;
    RebuildNext(events, CallEnd(i), json);
    BlocksHoldTheirDeltas(events, json, i);
    ParsedTextIsTheDeltasExactly(events, i);
  }

  /**
   A delta after the end of its tool call: unless the deltas before the end spell "undefined", some parser tells
   the arguments from the parse of all deltas.
   */
  lemma LateDeltaLosesText(events: seq<ProxyEvent>, i: nat, delta: string)
    requires var json := (text: string) => Some(text);
             Rebuild(events, json).error.None?
    requires LastStart(events, i).Some? && LastStart(events, i).value.CallStart? && HasEnd(events, i)
    requires BeforeEnd(events, i) != UNDEFINED
    ensures var json := (text: string) => Some(text);
            var after := events + [CallDelta(i, delta)];
            var block := Get(Rebuild(after, json).partial, i);
            && Rebuild(after, json).error.None?
            && block.Some? && block.value.CallBlock? && block.value.arguments != DeltasSince(after, i)
  {
    hide Rebuild, Feed;
    var json := (text: string) => Some(text);
    var e := CallDelta(i, delta);
    RebuildNext(events, e, json);
    BlocksHoldTheirDeltas(events, json, i);
    FeedIsLocal(Rebuild(events, json), e, json, i);
    BlocksHoldTheirDeltas(events + [e], json, i);
    assert (events + [e])[..|events|] == events;
    ParsedTextIsTheDeltasExactly(events + [e], i);
  }
}
