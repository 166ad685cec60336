/**
 Lines of a text that arrives in chunks: the subset of server-sent events that the proxy client reads. Lines end
 with a line feed only, and a line carries data only behind the prefix `data: `.
 */
module SseLines {
  import opened Messages

  predicate NoLineFeed(piece: string) {
    forall i :: 0 <= i < |piece| ==> piece[i] != '\n'
  }

  /** Add one character to the last piece, or start a new piece. */
  function Extend(pieces: seq<string>, c: char): seq<string>
    requires |pieces| > 0
  {
    if c == '\n' then pieces + [""]
    else pieces[..|pieces| - 1] + [pieces[|pieces| - 1] + [c]]
  }

  /** Splitting at every line feed: one more piece than there are line feeds. */
  function Split(text: string): (pieces: seq<string>)
    ensures |pieces| > 0
  {
    if text == "" then [""]
    else
      var n := |text| - 1;
      Extend(Split(text[..n]), text[n])
  }

  function Join(pieces: seq<string>): string
    requires |pieces| > 0
  {
    if |pieces| == 1 then pieces[0] else Join(pieces[..|pieces| - 1]) + "\n" + pieces[|pieces| - 1]
  }

  /** The pieces that have been ended by a line feed, and the one that has not. */
  function Lines(text: string): seq<string> {
    var pieces := Split(text);
    pieces[..|pieces| - 1]
  }

  function Tail(text: string): string {
    var pieces := Split(text);
    pieces[|pieces| - 1]
  }

  ghost predicate Clean(pieces: seq<string>) {
    forall i :: 0 <= i < |pieces| ==> NoLineFeed(pieces[i])
  }

  lemma SplitNext(text: string, c: char)
    ensures Split(text + [c]) == Extend(Split(text), c)
  {
    assert (text + [c])[..|text|] == text;
  }

  lemma JoinLast(front: seq<string>, last: string)
    ensures Join(front + [last]) == if front == [] then last else Join(front) + ("\n" + last)
  {
    assert (front + [last])[..|front|] == front;
    if front != [] {
      Concatenate(Join(front), "\n", last);
    }
  }

  lemma Concatenate(a: string, b: string, c: string)
    ensures a + b + c == a + (b + c)
  {
  }

  lemma JoinEnded(pieces: seq<string>)
    requires |pieces| > 0
    ensures Join(pieces + [""]) == Join(pieces) + "\n"
  {
    JoinLast(pieces, "");
  }

  lemma JoinExtend(pieces: seq<string>, c: char)
    requires |pieces| > 0
    ensures Join(Extend(pieces, c)) == Join(pieces) + [c]
  {
    hide Join;
    if c == '\n' {
      JoinEnded(pieces);
    } else {
      JoinGrownLast(pieces, c);
    }
  }

  lemma JoinGrownLast(pieces: seq<string>, c: char)
    requires |pieces| > 0
    ensures Join(pieces[..|pieces| - 1] + [pieces[|pieces| - 1] + [c]]) == Join(pieces) + [c]
  {
    hide Join;
    JoinGrown(pieces[..|pieces| - 1], pieces[|pieces| - 1], c);
    assert pieces == pieces[..|pieces| - 1] + [pieces[|pieces| - 1]];
  }

  lemma JoinGrown(front: seq<string>, last: string, c: char)
    ensures Join(front + [last + [c]]) == Join(front + [last]) + [c]
  {
    JoinLast(front, last);
    JoinLast(front, last + [c]);
    hide Join;
    if front != [] {
      Concatenate("\n", last, [c]);
      Concatenate(Join(front), "\n" + last, [c]);
    }
  }

  lemma CleanExtend(pieces: seq<string>, c: char)
    requires |pieces| > 0 && Clean(pieces)
    ensures Clean(Extend(pieces, c))
  {
  }

  /** The pieces put together again are the text, and none of them contains a line feed. */
  lemma {:induction false} SplitIsInverseOfJoin(text: string)
    ensures Join(Split(text)) == text
    ensures Clean(Split(text))
  {
    if text == "" {
    } else {
      hide Join, Extend, Clean;
      var n := |text| - 1;
      SplitIsInverseOfJoin(text[..n]);
      JoinExtend(Split(text[..n]), text[n]);
      CleanExtend(Split(text[..n]), text[n]);
      assert text[..n] + [text[n]] == text;
    }
  }

  lemma ExtendOne(piece: string, c: char)
    requires c != '\n'
    ensures Extend([piece], c) == [piece + [c]]
  {
  }

  lemma WithoutLast(piece: string)
    requires |piece| > 0 && NoLineFeed(piece)
    ensures var n := |piece| - 1;
            NoLineFeed(piece[..n]) && piece[n] != '\n' && piece == piece[..n] + [piece[n]]
  {
  }

  lemma SplitNothing()
    ensures Split("") == [""]
  {
  }

  lemma {:induction false} SplitWithoutLineFeed(piece: string)
    requires NoLineFeed(piece)
    ensures Split(piece) == [piece]
  {
    hide Split, Extend, NoLineFeed;
    if |piece| == 0 {
      SplitNothing();
    } else {
      var n := |piece| - 1;
      WithoutLast(piece);
      SplitWithoutLineFeed(piece[..n]);
      SplitNext(piece[..n], piece[n]);
      ExtendOne(piece[..n], piece[n]);
    }
  }

  lemma SplitAppendNothing(a: string)
    ensures Split(a) == Lines(a) + Split(Tail(a))
  {
    SplitIsInverseOfJoin(a);
    SplitWithoutLineFeed(Tail(a));
    hide Split;
  }

  /**
   Splitting a text that arrives in two parts: the lines of the first part, then the split of its unfinished
   line together with the second part.
   */
  lemma {:induction false} SplitAppend(a: string, b: string)
    ensures Split(a + b) == Lines(a) + Split(Tail(a) + b)
  {
    hide Split, Lines, Tail, Extend;
    if b == "" {
      SplitAppendNothing(a);
      assert a + b == a && Tail(a) + b == Tail(a);
    } else {
      var n := |b| - 1;
      SplitAppend(a, b[..n]);
      assert a + b == (a + b[..n]) + [b[n]];
      assert Tail(a) + b == (Tail(a) + b[..n]) + [b[n]];
      SplitNext(a + b[..n], b[n]);
      SplitNext(Tail(a) + b[..n], b[n]);
      ExtendBehind(Lines(a), Split(Tail(a) + b[..n]), b[n]);
    }
  }

  lemma ExtendBehind(front: seq<string>, pieces: seq<string>, c: char)
    requires |pieces| > 0
    ensures Extend(front + pieces, c) == front + Extend(pieces, c)
  {
  }

  /** The only way to write a text as pieces without line feeds joined by line feeds is its split. */
  lemma {:induction false} SplitIsUnique(pieces: seq<string>)
    requires |pieces| > 0 && Clean(pieces)
    ensures Split(Join(pieces)) == pieces
  {
    hide Split;
    var n := |pieces| - 1;
    SplitWithoutLineFeed(pieces[n]);
    if n == 0 {
    } else {
      var front := Join(pieces[..n]);
      SplitIsUnique(pieces[..n]);
      SplitNext(front, '\n');
      assert Split(front + "\n") == pieces[..n] + [""];
      assert Lines(front + "\n") == pieces[..n] && Tail(front + "\n") == "";
      SplitAppend(front + "\n", pieces[n]);
      assert "" + pieces[n] == pieces[n];
    }
  }

  /** One chunk: the lines it completes and the new buffer, given the text before it. */
  lemma ChunkCompletesLines(before: string, chunk: string)
    ensures Lines(before + chunk) == Lines(before) + Lines(Tail(before) + chunk)
    ensures Tail(before + chunk) == Tail(Tail(before) + chunk)
  {
    SplitAppend(before, chunk);
  }

  // ----- The data of a line -----

  /** White space in the sense of String.prototype.trim. */
  predicate IsSpace(c: char) {
    || '\t' <= c <= '\r' || c == ' ' || c == '\U{A0}' || c == '\U{1680}' || '\U{2000}' <= c <= '\U{200A}'
    || c == '\U{2028}' || c == '\U{2029}' || c == '\U{202F}' || c == '\U{205F}' || c == '\U{3000}'
    || c == '\U{FEFF}'
  }

  /** One by one: the five control characters, and the space separators, line and paragraph separators of Unicode. */
  lemma SpacesAreThese(c: char)
    ensures IsSpace(c)
            <==> c in "\t\n\U{0B}\U{0C}\r"
                 || c in " \U{A0}\U{1680}\U{2000}\U{2001}\U{2002}\U{2003}\U{2004}\U{2005}\U{2006}\U{2007}\U{2008}"
                 || c in "\U{2009}\U{200A}\U{2028}\U{2029}\U{202F}\U{205F}\U{3000}\U{FEFF}"
  {
  }

  predicate AllSpace(s: string) {
    forall i :: 0 <= i < |s| ==> IsSpace(s[i])
  }

  function TrimStart(s: string): (t: string)
    ensures |t| <= |s| && t == s[|s| - |t|..]
    ensures AllSpace(s[..|s| - |t|])
    ensures t == "" || !IsSpace(t[0])
  {
    if s != "" && IsSpace(s[0]) then TrimStart(s[1..]) else s
  }

  function TrimEnd(s: string): (t: string)
    ensures t <= s
    ensures AllSpace(s[|t|..])
    ensures t == "" || !IsSpace(t[|t| - 1])
  {
    if s != "" && IsSpace(s[|s| - 1]) then TrimEnd(s[..|s| - 1]) else s
  }

  /** What is left of a text without the white space around it, which begins at position `i`. */
  ghost predicate IsTrimAt(t: string, s: string, i: nat) {
    && i + |t| <= |s| && t == s[i..i + |t|]
    && AllSpace(s[..i]) && AllSpace(s[i + |t|..])
    && (t == "" || (!IsSpace(t[0]) && !IsSpace(t[|t| - 1])))
  }

  ghost predicate IsTrimOf(t: string, s: string) {
    exists i: nat :: IsTrimAt(t, s, i)
  }

  lemma TrimKeepsTheMiddle(s: string)
    ensures IsTrimOf(TrimEnd(TrimStart(s)), s)
  {
    hide IsSpace, AllSpace, TrimStart, TrimEnd;
    var from := TrimStart(s);
    var t := TrimEnd(from);
    var i := |s| - |from|;
    assert s[i + |t|..] == from[|t|..] && s[i..i + |t|] == from[..|t|];
    assert t != "" ==> t[0] == from[0];
    assert IsTrimAt(t, s, i);
  }

  function Trim(s: string): (t: string)
    ensures IsTrimOf(t, s)
  {
    TrimKeepsTheMiddle(s);
    TrimEnd(TrimStart(s))
  }

  /** The data of a line: none without the prefix, or if nothing but white space is behind it. */
  function DataOf(line: string): (data: Option<string>)
    ensures data.Some? ==> "data: " <= line && data.value != "" && IsTrimOf(data.value, line[6..])
    ensures data.None? ==> !("data: " <= line) || AllSpace(line[6..])
  {
    if "data: " <= line then
      var data := Trim(line[6..]);
      if data == "" then None else Some(data)
    else None
  }
}
