/**
 The transcript packer: an in-order greedy packer. Transcripts are joined by a blank line into files of limited
 length; a transcript that is too long gets a file of its own. Lengths count characters.
 */
module Packer {

  const MAX_CHARS_PER_FILE := 100_000

  datatype File = File(index: nat, content: string)

  function Join(group: seq<string>): string
    requires |group| > 0
  {
    if |group| == 1 then group[0] else Join(group[..|group| - 1]) + "\n\n" + group[|group| - 1]
  }

  /** A group may be written as one file: within the limit, or a single transcript. */
  predicate Fits(group: seq<string>, limit: nat)
    requires |group| > 0
  {
    |group| == 1 || |Join(group)| <= limit
  }

  function Flatten(groups: seq<seq<string>>): seq<string> {
    if groups == [] then [] else groups[0] + Flatten(groups[1..])
  }

  /** An in-order split of the transcripts into contiguous groups that may be written. */
  ghost predicate IsSplit(groups: seq<seq<string>>, transcripts: seq<string>, limit: nat) {
    && Flatten(groups) == transcripts
    && forall k :: 0 <= k < |groups| ==> |groups[k]| > 0 && Fits(groups[k], limit)
  }

  predicate IsFull(group: seq<string>, next: seq<string>, limit: nat) {
    |next| > 0 && !Fits(group + [next[0]], limit)
  }

  /** No group could have taken the first transcript of the next one as well. */
  ghost predicate IsTight(groups: seq<seq<string>>, limit: nat) {
    forall i, j :: 0 <= i < j < |groups| && j == i + 1 ==> IsFull(groups[i], groups[j], limit)
  }

  // ----- Lengths -----

  /** The length of a group, counting a separator behind every transcript. */
  function Length(group: seq<string>): nat {
    if group == [] then 0 else Length(group[..|group| - 1]) + |group[|group| - 1]| + 2
  }

  lemma {:induction false} JoinLength(group: seq<string>)
    requires |group| > 0
    ensures |Join(group)| == Length(group) - 2
  {
    if |group| == 1 {
      assert group[..0] == [];
    } else {
      JoinLength(group[..|group| - 1]);
    }
  }

  lemma {:induction false} LengthAppend(a: seq<string>, b: seq<string>)
    ensures Length(a + b) == Length(a) + Length(b)
  {
    if b == [] {
      assert a + b == a;
    } else {
      LengthAppend(a, b[..|b| - 1]);
      assert (a + b)[..|a| + |b| - 1] == a + b[..|b| - 1];
    }
  }

  lemma JoinNext(group: seq<string>, transcript: string)
    ensures Join(group + [transcript])
            == if group == [] then transcript else Join(group) + "\n\n" + transcript
  {
    assert (group + [transcript])[..|group|] == group;
  }

  /** A transcript stands in a text at a position, behind a blank line unless it comes first. */
  ghost predicate StandsAt(transcript: string, text: string, at: nat) {
    && at + |transcript| <= |text| && text[at..at + |transcript|] == transcript
    && (at > 0 ==> at >= 2 && text[at - 2..at] == "\n\n")
  }

  lemma StandsInLonger(transcript: string, text: string, at: nat, more: string)
    requires StandsAt(transcript, text, at)
    ensures StandsAt(transcript, text + more, at)
  {
    assert (text + more)[at..at + |transcript|] == text[at..at + |transcript|];
    assert at > 0 ==> (text + more)[at - 2..at] == text[at - 2..at];
  }

  lemma StandsLast(text: string, transcript: string)
    ensures StandsAt(transcript, text + "\n\n" + transcript, |text| + 2)
  {
  }

  /** Every transcript stands in its file, behind the earlier ones and a blank line each. */
  lemma {:induction false} TranscriptStandsInFile(group: seq<string>, k: nat)
    requires k < |group|
    ensures StandsAt(group[k], Join(group), Length(group[..k]))
  {
    var n := |group| - 1;
    if n == 0 {
      assert group[..0] == [];
    } else {
      hide StandsAt;
      JoinLength(group[..n]);
      JoinNext(group[..n], group[n]);
      assert group[..n] + [group[n]] == group;
      hide Join, Length;
      if k == n {
        StandsLast(Join(group[..n]), group[n]);
      } else {
        TranscriptStandsInFile(group[..n], k);
        assert group[..n][..k] == group[..k];
        StandsInLonger(group[k], Join(group[..n]), Length(group[..k]), "\n\n" + group[n]);
        assert Join(group[..n]) + "\n\n" + group[n] == Join(group[..n]) + ("\n\n" + group[n]);
      }
    }
  }

  /** What lies within a group that fits, and is not a single transcript, fits too. */
  lemma PartFits(a: seq<string>, b: seq<string>, c: seq<string>, limit: nat)
    requires |b| > 0 && |a + b + c| > 1 && Fits(a + b + c, limit)
    ensures Fits(b, limit)
  {
    JoinLength(a + b + c);
    JoinLength(b);
    LengthAppend(a + b, c);
    LengthAppend(a, b);
  }

  // ----- Optimality -----

  /**
   Greedy stays ahead: a tight split of the transcripts that follow `skipped` needs no more groups than any split
   of all of them.
   */
  lemma {:induction false} TightNeedsNoMore(
      skipped: seq<string>, rest: seq<string>, tight: seq<seq<string>>, other: seq<seq<string>>, limit: nat)
    requires IsSplit(tight, rest, limit) && IsTight(tight, limit)
    requires IsSplit(other, skipped + rest, limit)
    ensures |tight| <= |other|
    decreases |other|
  {
    if tight == [] {
    } else {
      hide IsTight, Fits;
      TailIsSplit(tight, rest, limit);
      assert rest != [] && other != [];
      TailIsSplit(other, skipped + rest, limit);
      TooMuchInOneGroup(skipped, rest, tight, other, limit);
      hide IsSplit, Flatten;
      var remaining := (skipped + rest)[|other[0]|..];
      var ahead := |skipped| + |tight[0]| - |other[0]|;
      Overhang(skipped, rest, |tight[0]|, |other[0]|);
      TightNeedsNoMore(remaining[..ahead], rest[|tight[0]|..], tight[1..], other[1..], limit);
    }
  }

  lemma Overhang(skipped: seq<string>, rest: seq<string>, a: nat, b: nat)
    requires a <= |rest| && b <= |skipped| + a
    ensures var remaining := (skipped + rest)[b..];
            remaining == remaining[..|skipped| + a - b] + rest[a..]
  {
  }

  lemma TailIsSplit(groups: seq<seq<string>>, transcripts: seq<string>, limit: nat)
    requires groups != [] && IsSplit(groups, transcripts, limit)
    ensures groups[0] <= transcripts
    ensures IsSplit(groups[1..], transcripts[|groups[0]|..], limit)
    ensures IsTight(groups, limit) ==> IsTight(groups[1..], limit)
  {
    assert transcripts[|groups[0]|..] == Flatten(groups[1..]);
  }

  /** The first group of a tight split with one transcript more is too long. */
  lemma FirstTooMany(rest: seq<string>, tight: seq<seq<string>>, limit: nat) returns (next: seq<string>)
    requires IsSplit(tight, rest, limit) && IsTight(tight, limit)
    requires tight != [] && |rest| > |tight[0]|
    ensures |next| == |tight[0]| + 1 && next <= rest && !Fits(next, limit)
  {
    hide Fits;
    TailIsSplit(tight, rest, limit);
    var left := rest[|tight[0]|..];
    assert tight[1..] != [];
    TailIsSplit(tight[1..], left, limit);
    assert tight[1..][0] == tight[1];
    assert IsFull(tight[0], tight[1], limit);
    assert left[0] == tight[1][0];
    next := tight[0] + [tight[1][0]];
  }

  /** A first group cannot go beyond the first group of a tight split. */
  lemma TooMuchInOneGroup(
      skipped: seq<string>, rest: seq<string>, tight: seq<seq<string>>, other: seq<seq<string>>, limit: nat)
    requires IsSplit(tight, rest, limit) && IsTight(tight, limit)
    requires IsSplit(other, skipped + rest, limit)
    requires tight != [] && other != []
    ensures |other[0]| <= |skipped| + |tight[0]|
  {
    if |other[0]| > |skipped| + |tight[0]| {
      TailIsSplit(other, skipped + rest, limit);
      var next := FirstTooMany(rest, tight, limit);
      var beyond := other[0][|skipped| + |next|..];
      assert other[0] == skipped + next + beyond;
      PartFits(skipped, next, beyond, limit);
    }
  }

  /** Among all in-order splits, a tight one has the fewest groups. */
  lemma TightIsOptimal(transcripts: seq<string>, tight: seq<seq<string>>, other: seq<seq<string>>, limit: nat)
    requires IsSplit(tight, transcripts, limit) && IsTight(tight, limit)
    requires IsSplit(other, transcripts, limit)
    ensures |tight| <= |other|
  {
    assert [] + transcripts == transcripts;
    TightNeedsNoMore([], transcripts, tight, other, limit);
  }

  /** And there is only one, so that the files are determined. */
  lemma {:induction false} TightIsUnique(
      transcripts: seq<string>, a: seq<seq<string>>, b: seq<seq<string>>, limit: nat)
    requires IsSplit(a, transcripts, limit) && IsTight(a, limit)
    requires IsSplit(b, transcripts, limit) && IsTight(b, limit)
    ensures a == b
    decreases |a|
  {
    TightIsOptimal(transcripts, a, b, limit);
    TightIsOptimal(transcripts, b, a, limit);
    if a == [] {
    } else {
      assert [] + transcripts == transcripts;
      TooMuchInOneGroup([], transcripts, a, b, limit);
      TooMuchInOneGroup([], transcripts, b, a, limit);
      TailIsSplit(a, transcripts, limit);
      TailIsSplit(b, transcripts, limit);
      assert a[0] == b[0];
      TightIsUnique(transcripts[|a[0]|..], a[1..], b[1..], limit);
      assert a == [a[0]] + a[1..];
      assert b == [b[0]] + b[1..];
    }
  }

  // ----- The packing loop -----

  lemma {:induction false} FlattenAppend(groups: seq<seq<string>>, group: seq<string>)
    ensures Flatten(groups + [group]) == Flatten(groups) + group
  {
    if groups == [] {
      assert groups + [group] == [group];
    } else {
      FlattenAppend(groups[1..], group);
      assert (groups + [group])[1..] == groups[1..] + [group];
    }
  }

  /** Starting a group with a transcript that the last group could not take. */
  lemma OpenGroup(groups: seq<seq<string>>, transcripts: seq<string>, t: string, limit: nat)
    requires IsSplit(groups, transcripts, limit) && IsTight(groups, limit)
    requires groups != [] ==> IsFull(groups[|groups| - 1], [t], limit)
    ensures IsSplit(groups + [[t]], transcripts + [t], limit) && IsTight(groups + [[t]], limit)
  {
    hide IsFull, Flatten;
    FlattenAppend(groups, [t]);
    assert Fits([t], limit);
    hide Fits;
  }

  /** Adding a transcript to the last group, which can take it. */
  lemma GrowGroup(groups: seq<seq<string>>, group: seq<string>, transcripts: seq<string>, t: string, limit: nat)
    requires |group| > 0 && Fits(group + [t], limit)
    requires IsSplit(groups + [group], transcripts, limit) && IsTight(groups + [group], limit)
    ensures IsSplit(groups + [group + [t]], transcripts + [t], limit)
    ensures IsTight(groups + [group + [t]], limit)
  {
    hide Fits, Flatten;
    FlattenAppend(groups, group);
    FlattenAppend(groups, group + [t]);
    assert Flatten(groups) + (group + [t]) == transcripts + [t];
    var was, now := groups + [group], groups + [group + [t]];
    forall k | 0 <= k < |now| ensures |now[k]| > 0 && Fits(now[k], limit) {
      assert k < |groups| ==> now[k] == was[k];
    }
    forall i, j | 0 <= i < j < |now| && j == i + 1 ensures IsFull(now[i], now[j], limit) {
      assert IsFull(was[i], was[j], limit);
      assert now[i] == was[i] && now[j][0] == was[j][0];
    }
  }

  /** The files of some groups: numbered from 0, one group each. */
  ghost predicate AreFilesOf(files: seq<File>, groups: seq<seq<string>>) {
    && |files| == |groups|
    && forall k :: 0 <= k < |files| ==> |groups[k]| > 0 && files[k] == File(k, Join(groups[k]))
  }

  /** The closed groups, and the group that is still open. */
  function WithOpen(groups: seq<seq<string>>, current: seq<string>): seq<seq<string>> {
    groups + if current == [] then [] else [current]
  }

  /** What is known between two transcripts. */
  ghost predicate Packed(groups: seq<seq<string>>, current: seq<string>, transcripts: seq<string>, limit: nat) {
    && IsSplit(WithOpen(groups, current), transcripts, limit)
    && IsTight(WithOpen(groups, current), limit)
    && (current != [] ==> |Join(current)| <= limit)
    && (current == [] && groups != [] ==>
          |groups[|groups| - 1]| > 0 && |Join(groups[|groups| - 1])| > limit)
  }

  lemma LongerThanLimit(group: seq<string>, t: string, limit: nat)
    requires |group| > 0 && |Join(group)| > limit
    ensures IsFull(group, [t], limit)
  {
    JoinNext(group, t);
  }

  /** A transcript that the open group cannot take: the group is closed. */
  lemma CloseAndOpen(
      groups: seq<seq<string>>, current: seq<string>, transcripts: seq<string>, t: string, limit: nat)
    requires Packed(groups, current, transcripts, limit)
    requires current != [] ==> |Join(current)| + |t| + 2 > limit
    ensures IsSplit(WithOpen(groups, current) + [[t]], transcripts + [t], limit)
    ensures IsTight(WithOpen(groups, current) + [[t]], limit)
  {
    JoinNext(current, t);
    if current == [] && groups != [] {
      LongerThanLimit(groups[|groups| - 1], t, limit);
    }
    hide Join, IsSplit, IsTight;
    OpenGroup(WithOpen(groups, current), transcripts, t, limit);
  }

  lemma PackInto(
      groups: seq<seq<string>>, current: seq<string>, transcripts: seq<string>, t: string, limit: nat)
    requires Packed(groups, current, transcripts, limit)
    requires current != [] && |Join(current)| + |t| + 2 <= limit
    ensures Packed(groups, current + [t], transcripts + [t], limit)
  {
    hide IsSplit, IsTight;
    JoinNext(current, t);
    GrowGroup(groups, current, transcripts, t, limit);
  }

  /** What one transcript does: the groups it closes, and the group that is open afterwards. */
  lemma PackNext(
      groups: seq<seq<string>>, current: seq<string>, transcripts: seq<string>, t: string, limit: nat)
    returns (closed: seq<seq<string>>, open: seq<string>)
    requires Packed(groups, current, transcripts, limit)
    ensures Packed(closed, open, transcripts + [t], limit)
    ensures var flush := current != [] && |Join(current)| + |t| + 2 > limit;
            var flushed := groups + if flush then [current] else [];
            && closed == flushed + (if |t| > limit then [[t]] else [])
            && open == if |t| > limit then [] else (if flush then [] else current) + [t]
  {
    if current != [] && |Join(current)| + |t| + 2 <= limit {
      hide Packed;
      PackInto(groups, current, transcripts, t, limit);
      closed, open := groups, current + [t];
    } else {
      CloseAndOpen(groups, current, transcripts, t, limit);
      hide IsSplit, IsTight;
      var flushed := WithOpen(groups, current);
      closed := flushed + if |t| > limit then [[t]] else [];
      open := if |t| > limit then [] else [t];
      assert WithOpen(closed, open) == flushed + [[t]];
    }
  }

  lemma FileAdded(files: seq<File>, groups: seq<seq<string>>, group: seq<string>)
    requires AreFilesOf(files, groups) && |group| > 0
    ensures AreFilesOf(files + [File(|files|, Join(group))], groups + [group])
  {
    hide Join;
  }

  lemma NothingPacked(limit: nat)
    ensures AreFilesOf([], []) && Packed([], [], [], limit)
  {
  }

  lemma PackedIsTight(
      groups: seq<seq<string>>, current: seq<string>, transcripts: seq<string>, limit: nat)
    requires Packed(groups, current, transcripts, limit)
    ensures IsSplit(WithOpen(groups, current), transcripts, limit) && IsTight(WithOpen(groups, current), limit)
  {
  }

  /** The files hold the groups of the tight split, in order. */
  ghost predicate IsPacking(
      files: seq<File>, groups: seq<seq<string>>, transcripts: seq<string>, limit: nat)
  {
    IsSplit(groups, transcripts, limit) && IsTight(groups, limit) && AreFilesOf(files, groups)
  }

  lemma {:induction false} MembersAreTranscripts(groups: seq<seq<string>>, k: nat, i: nat)
    requires k < |groups| && i < |groups[k]|
    ensures groups[k][i] in Flatten(groups)
  {
    if k == 0 {
      assert groups[0][i] == (groups[0] + Flatten(groups[1..]))[i];
    } else {
      MembersAreTranscripts(groups[1..], k - 1, i);
    }
  }

  lemma JoinOfNonempty(group: seq<string>)
    requires |group| > 0 && group[0] != ""
    ensures Join(group) != ""
  {
    if |group| > 1 {
      JoinLength(group);
      LengthAppend(group[..1], group[1..]);
      assert group == group[..1] + group[1..];
    }
  }

  /** In characters: each file but the last has no room for a blank line and the transcript that comes next. */
  lemma NoRoomForTheNext(groups: seq<seq<string>>, transcripts: seq<string>, limit: nat, k: nat)
    requires IsSplit(groups, transcripts, limit) && IsTight(groups, limit) && k + 1 < |groups|
    ensures |groups[k]| > 0 && |groups[k + 1]| > 0
    ensures |Join(groups[k])| + 2 + |groups[k + 1][0]| > limit
  {
    assert IsFull(groups[k], groups[k + 1], limit);
    JoinNext(groups[k], groups[k + 1][0]);
  }

  lemma WhatThePackingIs(files: seq<File>, groups: seq<seq<string>>, transcripts: seq<string>, limit: nat)
    requires forall k :: 0 <= k < |transcripts| ==> transcripts[k] != ""
    requires IsSplit(groups, transcripts, limit) && IsTight(groups, limit) && AreFilesOf(files, groups)
    ensures IsPacking(files, groups, transcripts, limit)
    ensures forall k :: 0 <= k < |files| ==> files[k].index == k && files[k].content != ""
    ensures forall k :: 0 <= k < |files| && |files[k].content| > limit ==> files[k].content in transcripts
  {
    forall k | 0 <= k < |files|
      ensures files[k].index == k && files[k].content != ""
      ensures |files[k].content| > limit ==> files[k].content in transcripts
    {
      MembersAreTranscripts(groups, k, 0);
      JoinOfNonempty(groups[k]);
      assert Fits(groups[k], limit);
    }
  }

  /**
   The packing loop. The files hold the groups of the tight split, in order, so that they hold every transcript
   once, and there are as few of them as possible. A file beyond the limit holds a single transcript, which is itself
   beyond it.
   */
  method Pack(transcripts: seq<string>, limit: nat) returns (files: seq<File>)
    requires forall k :: 0 <= k < |transcripts| ==> transcripts[k] != ""
    ensures exists groups :: IsPacking(files, groups, transcripts, limit)
    ensures forall k :: 0 <= k < |files| ==> files[k].index == k && files[k].content != ""
    ensures forall k :: 0 <= k < |files| && |files[k].content| > limit ==> files[k].content in transcripts
  {
    hide Join, Packed, AreFilesOf, IsSplit, IsTight, Flatten, IsPacking;
    files := [];
    var content, fileIndex := "", 0;
    ghost var groups: seq<seq<string>>, current: seq<string> := [], [];
    NothingPacked(limit);
    for k := 0 to |transcripts|
      invariant fileIndex == |files| && AreFilesOf(files, groups)
      invariant content == if current == [] then "" else Join(current)
      invariant current == [] <==> content == ""
      invariant Packed(groups, current, transcripts[..k], limit)
    {
      var t := transcripts[k];
      assert transcripts[..k + 1] == transcripts[..k] + [t];
      ghost var closed, open := PackNext(groups, current, transcripts[..k], t, limit);
      if |content| > 0 && |content| + |t| + 2 > limit {
        FileAdded(files, groups, current);
        groups, current := groups + [current], [];
        files := files + [File(fileIndex, content)];
        content := "";
        fileIndex := fileIndex + 1;
      }
      JoinNext(current, t);
      assert [] + [t] == [t];
      if |t| > limit {
        if |content| > 0 {
          assert false;
        }
        FileAdded(files, groups, [t]);
        groups := groups + [[t]];
        files := files + [File(fileIndex, t)];
        fileIndex := fileIndex + 1;
      } else {
        assert content == "" ==> content + "" + t == t;
        content := content + (if content != "" then "\n\n" else "") + t;
        current := current + [t];
        assert groups + [] == groups;
      }
      assert groups == closed && current == open;
    }
    assert transcripts[..|transcripts|] == transcripts;
    PackedIsTight(groups, current, transcripts, limit);
    if |content| > 0 {
      FileAdded(files, groups, current);
      files := files + [File(fileIndex, content)];
    } else {
      assert groups + [] == groups;
    }
    groups := WithOpen(groups, current);
    WhatThePackingIs(files, groups, transcripts, limit);
  }

  /** At the limit of the program: no in-order split into files that may be written has fewer files. */
  method WriteTranscripts(transcripts: seq<string>) returns (files: seq<File>)
    requires forall k :: 0 <= k < |transcripts| ==> transcripts[k] != ""
    ensures exists groups :: IsPacking(files, groups, transcripts, MAX_CHARS_PER_FILE)
    ensures forall k :: 0 <= k < |files| ==> |files[k].content| <= 100_000 || files[k].content in transcripts
    ensures forall other :: IsSplit(other, transcripts, MAX_CHARS_PER_FILE) ==> |files| <= |other|
  {
    files := Pack(transcripts, MAX_CHARS_PER_FILE);
    ghost var groups :| IsPacking(files, groups, transcripts, MAX_CHARS_PER_FILE);
    forall other | IsSplit(other, transcripts, MAX_CHARS_PER_FILE) ensures |files| <= |other| {
      TightIsOptimal(transcripts, groups, other, MAX_CHARS_PER_FILE);
    }
  }
}
