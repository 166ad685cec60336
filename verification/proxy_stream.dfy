/**
 Reading a proxied response: chunks of text are cut into lines, the data of each line is parsed into an event, and
 the events rebuild the message. The JSON parser is a parameter; a text it rejects is an exception of the source.
 */
module ProxyStream {
  import opened Messages
  import opened SseLines
  import opened ProxyEvents

  datatype Parse = Accepted(event: ProxyEvent) | Rejected(message: string)

  datatype Codec = Codec(parse: string -> Parse, json: string -> Option<string>)

  /** One read: a chunk of decoded text with the state of the abort signal after it, or a read that failed. */
  datatype Read = Chunk(text: string, aborted: bool) | Broken(message: string, aborted: bool) {
    predicate IsLive() {
      Chunk? && !aborted
    }

    function TextRead(): string {
      if Chunk? then text else ""
    }
  }

  const INITIAL := Folded(EMPTY, [], None)

  const ABORTED := "Request aborted by user"

  // ----- Lines -----

  function Handle(f: Folded, line: string, codec: Codec): Folded {
    var data := DataOf(line);
    if f.error.Some? || data.None? then f
    else
      match codec.parse(data.value)
      case Accepted(e) => Feed(f, e, codec.json)
      case Rejected(message) => f.(error := Some(message))
  }

  function HandleAll(f: Folded, lines: seq<string>, codec: Codec): Folded {
    if lines == [] then f
    else Handle(HandleAll(f, lines[..|lines| - 1], codec), lines[|lines| - 1], codec)
  }

  lemma HandleNext(f: Folded, lines: seq<string>, k: nat, codec: Codec)
    requires k < |lines|
    ensures HandleAll(f, lines[..k + 1], codec) == Handle(HandleAll(f, lines[..k], codec), lines[k], codec)
  {
    assert lines[..k + 1][..k] == lines[..k];
  }

  lemma {:induction false} HandleAppend(f: Folded, a: seq<string>, b: seq<string>, codec: Codec)
    ensures HandleAll(f, a + b, codec) == HandleAll(HandleAll(f, a, codec), b, codec)
  {
    hide Handle;
    if b == [] {
      assert a + b == a;
    } else {
      var n := |b| - 1;
      HandleAppend(f, a, b[..n], codec);
      assert (a + b)[..|a| + n] == a + b[..n];
    }
  }

  /** After an exception no later line has any effect. */
  lemma {:induction false} NothingAfterAThrow(f: Folded, lines: seq<string>, codec: Codec)
    requires f.error.Some?
    ensures HandleAll(f, lines, codec) == f
  {
    if lines == [] {
    } else {
      NothingAfterAThrow(f, lines[..|lines| - 1], codec);
    }
  }

  // ----- Chunks -----

  /** Between two reads: the unfinished line, and what the finished ones have amounted to. */
  datatype Reader = Reader(buffer: string, folded: Folded)

  function ReadChunk(r: Reader, chunk: string, codec: Codec): Reader {
    Reader(Tail(r.buffer + chunk), HandleAll(r.folded, Lines(r.buffer + chunk), codec))
  }

  function ReadChunks(chunks: seq<string>, codec: Codec): Reader {
    if chunks == [] then Reader("", INITIAL)
    else ReadChunk(ReadChunks(chunks[..|chunks| - 1], codec), chunks[|chunks| - 1], codec)
  }

  function Concat(chunks: seq<string>): string {
    if chunks == [] then "" else Concat(chunks[..|chunks| - 1]) + chunks[|chunks| - 1]
  }

  /** What a text amounts to when it is there from the start: its finished lines, in order. */
  function Whole(text: string, codec: Codec): Folded {
    HandleAll(INITIAL, Lines(text), codec)
  }

  lemma WholeGrows(before: string, chunk: string, codec: Codec)
    ensures Whole(before + chunk, codec)
            == HandleAll(Whole(before, codec), Lines(Tail(before) + chunk), codec)
    ensures Tail(before + chunk) == Tail(Tail(before) + chunk)
  {
    ChunkCompletesLines(before, chunk);
    HandleAppend(INITIAL, Lines(before), Lines(Tail(before) + chunk), codec);
  }

  lemma NothingReadYet(codec: Codec)
    ensures Tail("") == "" && Whole("", codec) == INITIAL
  {
  }

  /** Reading chunk by chunk amounts to reading the text at once; what is left over is its unfinished line. */
  lemma {:induction false} ChunksAmountToTheirText(chunks: seq<string>, codec: Codec)
    ensures ReadChunks(chunks, codec) == Reader(Tail(Concat(chunks)), Whole(Concat(chunks), codec))
  {
    if chunks == [] {
      NothingReadYet(codec);
    } else {
      hide Whole, Tail, Lines, HandleAll;
      var n := |chunks| - 1;
      ChunksAmountToTheirText(chunks[..n], codec);
      WholeGrows(Concat(chunks[..n]), chunks[n], codec);
    }
  }

  /** How a text is cut into chunks makes no difference. */
  lemma CutsDoNotMatter(a: seq<string>, b: seq<string>, codec: Codec)
    requires Concat(a) == Concat(b)
    ensures ReadChunks(a, codec) == ReadChunks(b, codec)
  {
    ChunksAmountToTheirText(a, codec);
    ChunksAmountToTheirText(b, codec);
  }

  /** A last line without its line feed is never handled. */
  lemma UnfinishedLineHasNoEffect(text: string, piece: string, codec: Codec)
    requires NoLineFeed(piece) && Tail(text) == ""
    ensures Whole(text + piece, codec) == Whole(text, codec)
  {
    hide HandleAll, Split;
    WholeGrows(text, piece, codec);
    assert Tail(text) + piece == piece;
    SplitWithoutLineFeed(piece);
    HandleNothing(Whole(text, codec), codec);
  }

  lemma HandleNothing(f: Folded, codec: Codec)
    ensures HandleAll(f, [], codec) == f
  {
  }

  // ----- Round trip -----

  /** A text that stands for an event in the data of a line: one line, nothing to trim, and parsed as the event. */
  predicate Writes(text: string, e: ProxyEvent, codec: Codec) {
    && NoLineFeed(text) && text != "" && !IsSpace(text[0]) && !IsSpace(text[|text| - 1])
    && codec.parse(text) == Accepted(e)
  }

  function Encode(texts: seq<string>): string {
    if texts == [] then "" else Encode(texts[..|texts| - 1]) + ("data: " + texts[|texts| - 1] + "\n")
  }

  lemma OneLine(line: string)
    requires NoLineFeed(line)
    ensures Lines(line + "\n") == [line] && Tail(line + "\n") == ""
  {
    SplitWithoutLineFeed(line);
    SplitNext(line, '\n');
  }

  lemma DataOfWritten(text: string, e: ProxyEvent, codec: Codec)
    requires Writes(text, e, codec)
    ensures NoLineFeed("data: " + text) && DataOf("data: " + text) == Some(text)
  {
    assert ("data: " + text)[6..] == text;
  }

  lemma HandleWritten(f: Folded, text: string, e: ProxyEvent, codec: Codec)
    requires Writes(text, e, codec)
    ensures HandleAll(f, ["data: " + text], codec) == Feed(f, e, codec.json)
  {
    hide DataOf, Feed;
    DataOfWritten(text, e, codec);
    HandleNothing(f, codec);
    assert ["data: " + text][..0] == [];
    assert f.error.Some? ==> Feed(f, e, codec.json) == f by {
      ThrownFeeds(f, e, codec.json);
    }
  }

  lemma ThrownFeeds(f: Folded, e: ProxyEvent, json: string -> Option<string>)
    ensures f.error.Some? ==> Feed(f, e, json) == f
  {
  }

  /** Events written as lines are the events that are read, whatever they are and however the text is cut. */
  lemma {:induction false} WrittenEventsAreRead(events: seq<ProxyEvent>, texts: seq<string>, codec: Codec)
    requires |texts| == |events| && forall k :: 0 <= k < |events| ==> Writes(texts[k], events[k], codec)
    ensures Whole(Encode(texts), codec) == Rebuild(events, codec.json)
    ensures Tail(Encode(texts)) == ""
  {
    if events == [] {
      NothingReadYet(codec);
      RebuildNothing(codec.json);
    } else {
      hide Whole, Tail, Lines, HandleAll, Feed, Rebuild, Writes;
      var n := |events| - 1;
      WrittenEventsAreRead(events[..n], texts[..n], codec);
      var line := "data: " + texts[n];
      assert events[..n] + [events[n]] == events;
      RebuildNext(events[..n], events[n], codec.json);
      WholeGrows(Encode(texts[..n]), line + "\n", codec);
      assert "" + (line + "\n") == line + "\n";
      DataOfWritten(texts[n], events[n], codec);
      OneLine(line);
      HandleWritten(Whole(Encode(texts[..n]), codec), texts[n], events[n], codec);
    }
  }

  lemma ProxiedStreamRoundTrip(events: seq<ProxyEvent>, texts: seq<string>, chunks: seq<string>, codec: Codec)
    requires |texts| == |events| && forall k :: 0 <= k < |events| ==> Writes(texts[k], events[k], codec)
    requires Concat(chunks) == Encode(texts)
    ensures ReadChunks(chunks, codec) == Reader("", Rebuild(events, codec.json))
  {
    ChunksAmountToTheirText(chunks, codec);
    WrittenEventsAreRead(events, texts, codec);
  }

  // ----- A whole response -----

  /** How many reads are used before one fails or finds the signal aborted. */
  function Live(input: seq<Read>): (n: nat)
    ensures n <= |input|
    ensures forall i :: 0 <= i < n ==> input[i].IsLive()
    ensures n < |input| ==> !input[n].IsLive()
  {
    if input == [] || !input[0].IsLive() then 0 else 1 + Live(input[1..])
  }

  function Texts(input: seq<Read>): seq<string> {
    seq(|input|, i requires 0 <= i < |input| => input[i].TextRead())
  }

  function Received(input: seq<Read>): string {
    Concat(Texts(input))
  }

  datatype Outcome = Outcome(partial: Partial, outs: seq<OutEvent>)

  function Broke(f: Folded, message: string, reason: StopReason): Outcome {
    Outcome(f.partial.(stopReason := reason, errorMessage := Some(message)), f.outs + [Failed(reason)])
  }

  /** The message and the events of a whole response. */
  function ResponseOf(input: seq<Read>, abortedAtEnd: bool, codec: Codec): Outcome {
    var n := Live(input);
    var f := Whole(Received(input[..n]), codec);
    if f.error.Some? then Broke(f, f.error.value, Error)
    else if n < |input| then
      match input[n]
      case Chunk(_, _) => Broke(f, ABORTED, Aborted)
      case Broken(message, aborted) => Broke(f, message, if aborted then Aborted else Error)
    else if abortedAtEnd then Broke(f, ABORTED, Aborted)
    else Outcome(f.partial, f.outs)
  }

  /**
   Written events that arrive undisturbed, in chunks of any size, are rebuilt: nothing is added, lost, or handed on
   twice.
   */
  lemma UndisturbedResponse(events: seq<ProxyEvent>, texts: seq<string>, input: seq<Read>, codec: Codec)
    requires |texts| == |events| && forall k :: 0 <= k < |events| ==> Writes(texts[k], events[k], codec)
    requires forall k :: 0 <= k < |input| ==> input[k].IsLive()
    requires Received(input) == Encode(texts)
    requires Rebuild(events, codec.json).error.None?
    ensures var f := Rebuild(events, codec.json);
            ResponseOf(input, false, codec) == Outcome(f.partial, f.outs)
  {
    hide Whole, Received, Rebuild, Writes;
    assert Live(input) == |input| && input[..|input|] == input;
    WrittenEventsAreRead(events, texts, codec);
  }

  /** Nothing went wrong: every chunk was read and handled, and the signal was not aborted. */
  ghost predicate IsUndisturbed(input: seq<Read>, abortedAtEnd: bool, codec: Codec) {
    && (forall k :: 0 <= k < |input| ==> input[k].Chunk? && !input[k].aborted)
    && !abortedAtEnd
    && Whole(Received(input), codec).error.None?
  }

  /**
   Whether a response fails, and how it does. An undisturbed one hands on what its events make it hand on, and no more.
   Every other one hands on what the text read so far makes it hand on, and then exactly one error event; the message
   ends with the reason of that event, and with an error message. The reason is an abort exactly if what was read did
   not throw and the signal was found aborted.
   */
  lemma HowAResponseEnds(input: seq<Read>, abortedAtEnd: bool, codec: Codec)
    ensures var n, response := Live(input), ResponseOf(input, abortedAtEnd, codec);
            var f := Whole(Received(input[..n]), codec);
            if IsUndisturbed(input, abortedAtEnd, codec) then response == Outcome(f.partial, f.outs)
            else
              var reason := response.partial.stopReason;
              && response.outs == f.outs + [Failed(reason)]
              && (reason == Error || reason == Aborted)
              && (reason == Aborted <==>
                    f.error.None? && if n < |input| then input[n].aborted else abortedAtEnd)
              && (f.error.Some? ==> response.partial.errorMessage == f.error)
              && (f.error.None? && n < |input| && input[n].Broken? ==>
                    response.partial.errorMessage == Some(input[n].message))
              && (f.error.None? && (n == |input| || input[n].Chunk?) ==>
                    response.partial.errorMessage == Some("Request aborted by user"))
              && response.partial.content == f.partial.content && response.partial.usage == f.partial.usage
  {
    hide Whole, Received;
    var n := Live(input);
    if n == |input| {
      assert input[..n] == input;
    }
  }

  /** A line that the parser rejects ends the reading: what was read before it counts, nothing behind it does. */
  lemma RejectedLineEndsTheReading(
      before: string, line: string, data: string, message: string, after: string, codec: Codec)
    requires Tail(before) == "" && NoLineFeed(line) && DataOf(line) == Some(data)
    requires codec.parse(data) == Rejected(message) && Whole(before, codec).error.None?
    ensures Whole(before + (line + "\n" + after), codec) == Whole(before, codec).(error := Some(message))
  {
    hide Whole, Tail, Lines, HandleAll, DataOf;
    var ended := before + (line + "\n");
    OneLine(line);
    WholeGrows(before, line + "\n", codec);
    assert "" + (line + "\n") == line + "\n";
    HandleRejected(Whole(before, codec), line, data, message, codec);
    WholeGrows(ended, after, codec);
    NothingAfterAThrow(Whole(ended, codec), Lines(Tail(ended) + after), codec);
    assert before + (line + "\n" + after) == ended + after;
  }

  lemma HandleRejected(f: Folded, line: string, data: string, message: string, codec: Codec)
    requires f.error.None? && DataOf(line) == Some(data) && codec.parse(data) == Rejected(message)
    ensures HandleAll(f, [line], codec) == f.(error := Some(message))
  {
    hide DataOf;
    HandleNothing(f, codec);
    assert [line][..0] == [];
  }

  lemma NothingReceivedYet(input: seq<Read>)
    ensures Received(input[..0]) == ""
  {
  }

  lemma ReceivedNext(input: seq<Read>, k: nat)
    requires k < |input|
    ensures Received(input[..k + 1]) == Received(input[..k]) + input[k].TextRead()
  {
    var texts := Texts(input[..k + 1]);
    assert texts[..k] == Texts(input[..k]) && texts[k] == input[k].TextRead();
  }

  /** An exception in an earlier chunk is the exception of the response. */
  lemma {:induction false} ThrownEarly(input: seq<Read>, k: nat, n: nat, codec: Codec)
    requires k <= n <= |input|
    requires Whole(Received(input[..k]), codec).error.Some?
    ensures Whole(Received(input[..n]), codec) == Whole(Received(input[..k]), codec)
    decreases n - k
  {
    hide Whole, Received;
    if k < n {
      ReceivedNext(input, k);
      WholeGrows(Received(input[..k]), input[k].TextRead(), codec);
      NothingAfterAThrow(Whole(Received(input[..k]), codec),
                         Lines(Tail(Received(input[..k])) + input[k].TextRead()), codec);
      ThrownEarly(input, k + 1, n, codec);
    }
  }

  // ----- The client -----

  /** Whether a step of the client did what the event means: an exception leaves the message as it was. */
  ghost predicate ProcessedAs(
      meant: Processed, before: Partial, after: Partial, out: Option<OutEvent>, thrown: Option<string>)
  {
    match meant
    case Ok(partial, handed) => after == partial && out == handed && thrown.None?
    case Throw(message) => after == before && out.None? && thrown == Some(message)
  }

  /** The message under construction, changed in place. Every event handed on refers to this one object. */
  class PartialMessage {
    var content: map<nat, PartialBlock>
    var stopReason: StopReason
    var errorMessage: Option<string>
    var usage: string

    constructor ()
      ensures Now() == EMPTY
    {
      content, stopReason, errorMessage, usage := map[], Stop, None, "";
    }

    ghost function Now(): Partial
      reads this
    {
      Partial(content, stopReason, errorMessage, usage)
    }

    method ProcessTextEvent(e: ProxyEvent, ghost json: string -> Option<string>)
      returns (out: Option<OutEvent>, thrown: Option<string>)
      requires e.TextStart? || e.TextDelta? || e.TextEnd?
      modifies this
      ensures ProcessedAs(Process(old(Now()), e, json), old(Now()), Now(), out, thrown)
    {
      out, thrown := None, None;
      var i := e.index;
      if e.TextStart? {
        content := content[i := TextBlock("", None)];
        out := Some(Opened(i));
      } else if i in content && content[i].TextBlock? {
        if e.TextDelta? {
          content := content[i := TextBlock(content[i].text + e.delta, content[i].signature)];
          out := Some(Added(i, e.delta));
        } else {
          content := content[i := TextBlock(content[i].text, e.signature)];
          out := Some(Closed(i, content[i].text));
        }
      } else {
        thrown := Some(if e.TextDelta? then "Received text_delta for non-text content"
                       else "Received text_end for non-text content");
      }
    }

    method ProcessThinkingEvent(e: ProxyEvent, ghost json: string -> Option<string>)
      returns (out: Option<OutEvent>, thrown: Option<string>)
      requires e.ThinkingStart? || e.ThinkingDelta? || e.ThinkingEnd?
      modifies this
      ensures ProcessedAs(Process(old(Now()), e, json), old(Now()), Now(), out, thrown)
    {
      out, thrown := None, None;
      var i := e.index;
      if e.ThinkingStart? {
        content := content[i := ThinkingBlock("", None)];
        out := Some(Opened(i));
      } else if i in content && content[i].ThinkingBlock? {
        if e.ThinkingDelta? {
          content := content[i := ThinkingBlock(content[i].thinking + e.delta, content[i].signature)];
          out := Some(Added(i, e.delta));
        } else {
          content := content[i := ThinkingBlock(content[i].thinking, e.signature)];
          out := Some(Closed(i, content[i].thinking));
        }
      } else {
        thrown := Some(if e.ThinkingDelta? then "Received thinking_delta for non-thinking content"
                       else "Received thinking_end for non-thinking content");
      }
    }

    method ProcessCallEvent(e: ProxyEvent, json: string -> Option<string>)
      returns (out: Option<OutEvent>, thrown: Option<string>)
      requires e.CallStart? || e.CallDelta? || e.CallEnd?
      modifies this
      ensures ProcessedAs(Process(old(Now()), e, json), old(Now()), Now(), out, thrown)
    {
      out, thrown := None, None;
      var i := e.index;
      if e.CallStart? {
        content := content[i := CallBlock(e.id, e.name, EMPTY_OBJECT, Some(""))];
        out := Some(Opened(i));
      } else if i in content && content[i].CallBlock? {
        var call := content[i];
        if e.CallDelta? {
          var text := (if call.partialJson.Some? then call.partialJson.value else UNDEFINED) + e.delta;
          var value := json(text);
          var arguments := if value.Some? then value.value else EMPTY_OBJECT;
          content := content[i := CallBlock(call.id, call.name, arguments, Some(text))];
          out := Some(Added(i, e.delta));
        } else {
          content := content[i := CallBlock(call.id, call.name, call.arguments, None)];
          out := Some(CallClosed(i, call.id, call.name, call.arguments));
        }
      } else if e.CallDelta? {
        thrown := Some("Received toolcall_delta for non-toolCall content");
      }
    }

    /** React to one event; an exception leaves the message as it is. */
    method ProcessProxyEvent(e: ProxyEvent, json: string -> Option<string>)
      returns (out: Option<OutEvent>, thrown: Option<string>)
      modifies this
      ensures ProcessedAs(Process(old(Now()), e, json), old(Now()), Now(), out, thrown)
    {
      hide StepBlock;
      out, thrown := None, None;
      if e.TextStart? || e.TextDelta? || e.TextEnd? {
        out, thrown := ProcessTextEvent(e, json);
      } else if e.ThinkingStart? || e.ThinkingDelta? || e.ThinkingEnd? {
        out, thrown := ProcessThinkingEvent(e, json);
      } else if e.CallStart? || e.CallDelta? || e.CallEnd? {
        out, thrown := ProcessCallEvent(e, json);
      } else if e.Start? {
        out := Some(Started);
      } else if e.Done? {
        stopReason, usage := e.reason, e.usage;
        out := Some(Finished(e.reason));
      } else if e.Failure? {
        stopReason, errorMessage, usage := e.reason, e.message, e.usage;
        out := Some(Failed(e.reason));
      }
    }
  }

  /** One line: what it hands on, if anything, and the exception it ends in, if it does. */
  method HandleLine(line: string, partial: PartialMessage, outs: seq<OutEvent>, codec: Codec)
    returns (all: seq<OutEvent>, thrown: Option<string>)
    modifies partial
    ensures Folded(partial.Now(), all, thrown) == Handle(Folded(old(partial.Now()), outs, None), line, codec)
  {
    hide Process, DataOf;
    all, thrown := outs, None;
    var data := DataOf(line);
    if data.Some? {
      match codec.parse(data.value) {
        case Accepted(e) =>
          var out;
          out, thrown := partial.ProcessProxyEvent(e, codec.json);
          if out.Some? {
            all := all + [out.value];
          } else {
            assert all + [] == all;
          }
        case Rejected(message) =>
          thrown := Some(message);
      }
    }
  }

  /** The inner loop: it stops at the first exception, from the parser or from an event. */
  method HandleLines(lines: seq<string>, partial: PartialMessage, outs: seq<OutEvent>, codec: Codec)
    returns (all: seq<OutEvent>, thrown: Option<string>)
    modifies partial
    ensures Folded(partial.Now(), all, thrown) == HandleAll(Folded(old(partial.Now()), outs, None), lines, codec)
  {
    hide Handle;
    ghost var start := Folded(partial.Now(), outs, None);
    all, thrown := outs, None;
    for k := 0 to |lines|
      invariant thrown.None?
      invariant Folded(partial.Now(), all, None) == HandleAll(start, lines[..k], codec)
    {
      HandleNext(start, lines, k, codec);
      all, thrown := HandleLine(lines[k], partial, all, codec);
      if thrown.Some? {
        ThrownLine(start, lines, k + 1, codec);
        return;
      }
    }
    assert lines[..|lines|] == lines;
  }

  lemma ThrownLine(f: Folded, lines: seq<string>, k: nat, codec: Codec)
    requires k <= |lines| && HandleAll(f, lines[..k], codec).error.Some?
    ensures HandleAll(f, lines, codec) == HandleAll(f, lines[..k], codec)
  {
    assert lines == lines[..k] + lines[k..];
    HandleAppend(f, lines[..k], lines[k..], codec);
    NothingAfterAThrow(HandleAll(f, lines[..k], codec), lines[k..], codec);
  }

  /** The lines that are finished now are handled, and the unfinished one stays in the buffer. */
  method HandleChunk(text: string, partial: PartialMessage, outs: seq<OutEvent>, codec: Codec)
    returns (buffer: string, all: seq<OutEvent>, thrown: Option<string>)
    modifies partial
    ensures buffer == Tail(text)
    ensures Folded(partial.Now(), all, thrown)
            == HandleAll(Folded(old(partial.Now()), outs, None), Lines(text), codec)
  {
    var pieces := Split(text);
    buffer := pieces[|pieces| - 1];
    all, thrown := HandleLines(pieces[..|pieces| - 1], partial, outs, codec);
  }

  /** The read loop, with the exception that ends it and the state of the abort signal then. */
  method ReadLoop(input: seq<Read>, partial: PartialMessage, codec: Codec)
    returns (outs: seq<OutEvent>, thrown: Option<string>, aborted: bool)
    requires partial.Now() == EMPTY
    modifies partial
    ensures var n := Live(input);
            var f := Whole(Received(input[..n]), codec);
            && partial.Now() == f.partial && outs == f.outs
            && (f.error.Some? ==> thrown == f.error && !aborted)
            && (f.error.None? && n < |input| ==>
                  && aborted == input[n].aborted
                  && thrown == Some(if input[n].Chunk? then ABORTED else input[n].message))
            && (f.error.None? && n == |input| ==> thrown.None?)
  {
    hide Whole, HandleAll, Received, Tail, Lines;
    outs, thrown, aborted := [], None, false;
    var buffer := "";
    NothingReceivedYet(input);
    NothingReadYet(codec);
    for k := 0 to |input|
      invariant k <= Live(input)
      invariant thrown.None? && !aborted
      invariant buffer == Tail(Received(input[..k]))
      invariant Folded(partial.Now(), outs, None) == Whole(Received(input[..k]), codec)
    {
      match input[k] {
        case Broken(message, signal) =>
          return outs, Some(message), signal;
        case Chunk(text, signal) =>
          if signal {
            return outs, Some(ABORTED), true;
          }
          ReceivedNext(input, k);
          WholeGrows(Received(input[..k]), text, codec);
          buffer, outs, thrown := HandleChunk(buffer + text, partial, outs, codec);
          if thrown.Some? {
            ThrownEarly(input, k + 1, Live(input), codec);
            return;
          }
      }
    }
  }

  /** One proxied response, with the handler that turns every exception into a last error event. */
  method StreamProxy(input: seq<Read>, abortedAtEnd: bool, codec: Codec)
    returns (partial: PartialMessage, outs: seq<OutEvent>)
    ensures Outcome(partial.Now(), outs) == ResponseOf(input, abortedAtEnd, codec)
  {
    hide Whole, Received;
    partial := new PartialMessage();
    var thrown, aborted;
    outs, thrown, aborted := ReadLoop(input, partial, codec);
    if thrown.None? {
      aborted := abortedAtEnd;
      if aborted {
        thrown := Some(ABORTED);
      }
    }
    if thrown.Some? {
      var reason := if aborted then Aborted else Error;
      partial.stopReason, partial.errorMessage := reason, thrown;
      outs := outs + [Failed(reason)];
    }
  }
}
