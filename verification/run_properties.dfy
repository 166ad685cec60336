/** Pairing of tool calls with results, queue conservation, scheduling priority and termination. */
module RunProperties {
  import opened Messages
  import opened Streaming
  import opened ToolCalls
  import opened SequentialBatch
  import opened ParallelBatch
  import opened Queues
  import opened LoopSpec
  import opened LoopProperties

  // ----- Tool calls and their results -----

  /** The results answer an initial part of the calls, in order. */
  ghost predicate Answers(results: seq<ToolResultMessage>, calls: seq<ToolCall>) {
    && |results| <= |calls|
    && forall i :: 0 <= i < |results| ==>
         results[i].toolCallId == calls[i].id && results[i].toolName == calls[i].name
  }

  /** No loop check of the mode in use sees an abort before the last call; the one after it changes nothing. */
  predicate NoAbortSeen(sequentialMode: bool, tools: seq<Tool>, script: TurnScript) {
    var n := |script.final.Calls()|;
    if RunsSequentially(sequentialMode, tools, script.final.Calls()) then
      forall i :: 0 <= i < n - 1 ==> !script.calls(i).abortedAfterCall
    else
      forall i :: 0 <= i < n - 1 ==> !script.calls(i).abortedAfterPreparation
  }

  /**
   In every turn the results answer an initial part of the response's calls: a nonempty one if there are calls, all of
   them exactly if no loop check before the last call sees an abort, and none for an error or aborted response.
   */
  lemma TurnAnswersItsCalls(sequentialMode: bool, context: Context, pending: seq<Message>, script: TurnScript)
    ensures var turn := TurnOf(sequentialMode, context, pending, script);
            && turn.response == script.final && turn.injected == pending
            && Answers(turn.results, turn.response.Calls())
            && (turn.response.Failed() ==> turn.results == [] && !turn.more)
            && (!turn.response.Failed() && turn.response.Calls() != [] ==> turn.results != [])
            && (!turn.response.Failed() ==>
                  (|turn.results| == |turn.response.Calls()|
                   <==> NoAbortSeen(sequentialMode, context.tools, script)))
            && (turn.more ==> turn.results != [])
  {
    hide Respond, ToolEventsOf, OutcomeOf, ReachedCalls, NoAbortSeen;
    var calls := script.final.Calls();
    ReachesAPrefix(sequentialMode, context.tools, script);
    if !script.final.Failed() && calls != [] {
      var outcomes := Outcomes(context.tools, ReachedCalls(sequentialMode, context.tools, script), script.calls);
      assert forall i :: 0 <= i < |outcomes| ==> outcomes[i].call == calls[i];
    }
  }

  lemma ReachesAPrefix(sequentialMode: bool, tools: seq<Tool>, script: TurnScript)
    ensures var reached, calls := ReachedCalls(sequentialMode, tools, script), script.final.Calls();
            && reached <= calls
            && (calls != [] ==> reached != [])
            && (|reached| == |calls| <==> NoAbortSeen(sequentialMode, tools, script))
  {
    hide RunsSequentially;
  }

  /** A script in which something else happens to one call, but the loop checks see the same. */
  predicate DiffersInCall(script: TurnScript, i: nat, other: CallScript) {
    && other.abortedAfterCall == script.calls(i).abortedAfterCall
    && other.abortedAfterPreparation == script.calls(i).abortedAfterPreparation
  }

  lemma SameCallsReached(sequentialMode: bool, tools: seq<Tool>, script: TurnScript, i: nat, other: CallScript)
    requires DiffersInCall(script, i, other)
    ensures ReachedCalls(sequentialMode, tools, script.(calls := Replaced(script.calls, i, other)))
            == ReachedCalls(sequentialMode, tools, script)
  {
    hide NeedsSequential;
    var n, replaced := |script.final.Calls()|, Replaced(script.calls, i, other);
    SameReach(n, StopsAfterCall(script.calls), StopsAfterCall(replaced));
    SameReach(n, StopsAfterPreparation(script.calls), StopsAfterPreparation(replaced));
  }

  /**
   A failure is confined to its call. A turn in which a reached call fails still answers every call it reaches, the
   failing one with an error, and asks for another turn; and whatever had happened to that call instead, unless the
   loop had seen another abort, the same calls would be reached and the other results would be the same.
   */
  lemma FailureIsConfined(sequentialMode: bool, tools: seq<Tool>, script: TurnScript, i: nat, other: CallScript)
    requires !script.final.Failed() && i < |ReachedCalls(sequentialMode, tools, script)|
    requires Fails(tools, ReachedCalls(sequentialMode, tools, script)[i], script.calls(i))
    requires DiffersInCall(script, i, other)
    ensures var phase := ToolPhaseOf(sequentialMode, tools, script);
            var otherwise := ToolPhaseOf(sequentialMode, tools, script.(calls := Replaced(script.calls, i, other)));
            && phase.more
            && |phase.results| == |otherwise.results| == |ReachedCalls(sequentialMode, tools, script)|
            && phase.results[i].isError
            && phase.results[i].toolCallId == ReachedCalls(sequentialMode, tools, script)[i].id
            && forall k :: 0 <= k < |phase.results| && k != i ==> phase.results[k] == otherwise.results[k]
  {
    hide OutcomeOf, Fails, ToolEventsOf, ReachedCalls;
    var calls := ReachedCalls(sequentialMode, tools, script);
    ReachesAPrefix(sequentialMode, tools, script);
    SameCallsReached(sequentialMode, tools, script, i, other);
    FailuresBecomeErrorResults(tools, calls[i], script.calls(i));
    var outcomes := Outcomes(tools, calls, script.calls);
    assert outcomes[i].output.terminate != Some(true);
  }

  /** The result messages at the front of a list. */
  function LeadingResults(messages: seq<Message>): seq<ToolResultMessage> {
    if messages == [] || !messages[0].ToolResult? then []
    else [messages[0].result] + LeadingResults(messages[1..])
  }

  ghost predicate PairedAt(messages: seq<Message>, k: nat)
    requires k < |messages|
  {
    messages[k].Assistant? ==>
      var response, results := messages[k].message, LeadingResults(messages[k + 1..]);
      if response.Failed() then results == []
      else Answers(results, response.Calls()) && (response.Calls() != [] ==> results != [])
  }

  /** Every assistant message is followed by results for its calls and by no other results. */
  ghost predicate Paired(messages: seq<Message>) {
    forall k :: 0 <= k < |messages| ==> PairedAt(messages, k)
  }

  lemma {:induction false} LeadingResultsStop(a: seq<Message>, b: seq<Message>)
    requires b == [] || !b[0].ToolResult?
    ensures LeadingResults(a + b) == LeadingResults(a)
  {
    if a == [] {
      assert a + b == b;
    } else {
      LeadingResultsStop(a[1..], b);
      assert (a + b)[1..] == a[1..] + b;
    }
  }

  lemma {:induction false} LeadingResultsAll(results: seq<ToolResultMessage>)
    ensures LeadingResults(AsMessages(results)) == results
  {
    if results == [] {
    } else {
      LeadingResultsAll(results[1..]);
      assert AsMessages(results)[1..] == AsMessages(results[1..]);
    }
  }

  /** A prompt may be any message; a prompted assistant message with a call is never answered. */
  lemma PromptedCallStaysUnanswered(sequentialMode: bool, start: LoopState, script: TurnScript, call: ToolCall)
    requires start.newMessages == [Assistant(AssistantMessage([Call(call)], ToolUse, None))]
    requires start.pending == [] && start.exit.None?
    ensures !Paired(Play(sequentialMode, start, [script]).state.newMessages)
  {
    hide PlayTurn, TurnOf;
    assert [script][..0] == [];
    var turn := PlayTurn(sequentialMode, start, script).turn;
    PlayTurnTurn(sequentialMode, start, script);
    StepAppends(sequentialMode, start, script);
    TurnAnswersItsCalls(sequentialMode, start.context, start.pending, script);
    var messages := start.newMessages + MessagesOf(turn);
    assert messages[1] == Assistant(turn.response) && messages[1..][0] == messages[1];
    assert messages[0].message.Calls() == [call] by {
      var content := [Call(call)];
      assert content[1..] == [];
      assert CallsIn(content) == [content[0].call] + CallsIn(content[1..]);
    }
    assert !PairedAt(messages, 0);
  }

  // ----- Exactly when a run is paired -----

  /** What every turn keeps between its own response and results. */
  ghost predicate AnswersItself(turn: Turn) {
    && Answers(turn.results, turn.response.Calls())
    && (turn.response.Failed() ==> turn.results == [])
    && (!turn.response.Failed() && turn.response.Calls() != [] ==> turn.results != [])
  }

  /**
   What callers put in is paired in itself, and results put in right after a turn answer calls of that turn that
   were not reached. The prompts and the first injection follow each other, so they count as one.
   */
  ghost predicate PartsArePaired(prompts: seq<Message>, turns: seq<Turn>) {
    if turns == [] then Paired(prompts)
    else if |turns| == 1 then Paired(prompts + turns[0].injected)
    else
      var n := |turns| - 1;
      var injected, before := turns[n].injected, turns[n - 1];
      && PartsArePaired(prompts, turns[..n])
      && Paired(injected)
      && Answers(before.results + LeadingResults(injected), before.response.Calls())
  }

  lemma FirstResult(results: seq<ToolResultMessage>, b: seq<Message>)
    requires results != []
    ensures LeadingResults(AsMessages(results) + b) == [results[0]] + LeadingResults(AsMessages(results[1..]) + b)
  {
    assert (AsMessages(results) + b)[1..] == AsMessages(results[1..]) + b;
  }

  lemma {:induction false} LeadingResultsJoin(results: seq<ToolResultMessage>, b: seq<Message>)
    ensures LeadingResults(AsMessages(results) + b) == results + LeadingResults(b)
  {
    if results == [] {
      assert AsMessages(results) + b == b;
    } else {
      LeadingResultsJoin(results[1..], b);
      FirstResult(results, b);
      hide LeadingResults, AsMessages;
      assert results == [results[0]] + results[1..];
    }
  }

  /** Behind an assistant message nothing can change a pairing before it. */
  lemma PairedAtBefore(a: seq<Message>, b: seq<Message>, k: nat)
    requires k < |a| && (b == [] || !b[0].ToolResult?)
    ensures PairedAt(a + b, k) <==> PairedAt(a, k)
  {
    assert (a + b)[k + 1..] == a[k + 1..] + b;
    LeadingResultsStop(a[k + 1..], b);
  }

  lemma PairedAtBehind(a: seq<Message>, b: seq<Message>, k: nat)
    requires k < |b|
    ensures PairedAt(a + b, |a| + k) <==> PairedAt(b, k)
  {
    assert (a + b)[|a| + k + 1..] == b[k + 1..];
  }

  /** A list that goes on with a message that is no result is paired exactly when both parts are. */
  lemma PairedSplit(a: seq<Message>, b: seq<Message>)
    requires b == [] || !b[0].ToolResult?
    ensures Paired(a + b) <==> Paired(a) && Paired(b)
  {
    hide PairedAt;
    if Paired(a + b) {
      forall k | 0 <= k < |a| ensures PairedAt(a, k) {
        PairedAtBefore(a, b, k);
      }
      forall k | 0 <= k < |b| ensures PairedAt(b, k) {
        PairedAtBehind(a, b, k);
      }
    }
    if Paired(a) && Paired(b) {
      forall k | 0 <= k < |a + b| ensures PairedAt(a + b, k) {
        if k < |a| {
          PairedAtBefore(a, b, k);
        } else {
          PairedAtBehind(a, b, k - |a|);
        }
      }
    }
  }

  /** A response with results and whatever follows them. */
  lemma PairedBehindResponse(response: AssistantMessage, results: seq<ToolResultMessage>, rest: seq<Message>)
    requires !response.Failed() && (response.Calls() != [] ==> results != [])
    ensures Paired([Assistant(response)] + AsMessages(results) + rest)
            <==> Paired(rest) && Answers(results + LeadingResults(rest), response.Calls())
  {
    hide Answers;
    var head := [Assistant(response)] + AsMessages(results);
    var all := head + rest;
    assert all[1..] == AsMessages(results) + rest;
    LeadingResultsJoin(results, rest);
    assert PairedAt(all, 0) <==> Answers(results + LeadingResults(rest), response.Calls());
    forall k | 1 <= k < |head| ensures PairedAt(all, k) {
      assert all[k] == ToolResult(results[k - 1]);
    }
    PairedBehind(head, rest);
  }

  lemma PairedBehind(head: seq<Message>, rest: seq<Message>)
    requires |head| > 0 && forall k :: 1 <= k < |head| ==> PairedAt(head + rest, k)
    ensures Paired(head + rest) <==> PairedAt(head + rest, 0) && Paired(rest)
  {
    hide PairedAt;
    if Paired(head + rest) {
      forall k | 0 <= k < |rest| ensures PairedAt(rest, k) {
        PairedAtBehind(head, rest, k);
      }
    }
    if PairedAt(head + rest, 0) && Paired(rest) {
      forall k | 0 <= k < |head + rest| ensures PairedAt(head + rest, k) {
        if k >= |head| {
          PairedAtBehind(head, rest, k - |head|);
        }
      }
    }
  }

  /** What a turn adds behind its injected messages is always paired. */
  lemma TurnTailIsPaired(turn: Turn)
    requires AnswersItself(turn)
    ensures Paired([Assistant(turn.response)] + AsMessages(turn.results))
  {
    LeadingResultsAll(turn.results);
    assert ([Assistant(turn.response)] + AsMessages(turn.results))[1..] == AsMessages(turn.results);
  }

  lemma PairedAfterPrompts(prompts: seq<Message>, turn: Turn)
    requires AnswersItself(turn)
    ensures Paired(prompts + MessagesOf(turn)) <==> Paired(prompts + turn.injected)
  {
    var tail := [Assistant(turn.response)] + AsMessages(turn.results);
    TurnTailIsPaired(turn);
    PairedSplit(prompts + turn.injected, tail);
    assert prompts + MessagesOf(turn) == (prompts + turn.injected) + tail;
  }

  lemma PairedAfterTurn(earlier: seq<Message>, before: Turn, turn: Turn)
    requires AnswersItself(before) && AnswersItself(turn) && !before.response.Failed()
    ensures Paired(earlier + MessagesOf(before) + MessagesOf(turn))
            <==> Paired(earlier + MessagesOf(before)) && Paired(turn.injected)
                 && Answers(before.results + LeadingResults(turn.injected), before.response.Calls())
  {
    hide Paired, Answers, LeadingResults;
    var front := earlier + before.injected;
    var end, tail := [Assistant(before.response)] + AsMessages(before.results),
                     [Assistant(turn.response)] + AsMessages(turn.results);
    TurnTailIsPaired(before);
    TurnTailIsPaired(turn);
    PairedSplit(front, end);
    PairedSplit(front, end + turn.injected + tail);
    PairedSplit(end + turn.injected, tail);
    PairedBehindResponse(before.response, before.results, turn.injected);
    assert earlier + MessagesOf(before) == front + end;
    assert earlier + MessagesOf(before) + MessagesOf(turn) == front + (end + turn.injected + tail);
  }

  lemma {:induction false} PairedExactly(prompts: seq<Message>, turns: seq<Turn>)
    requires AllAnswerThemselves(turns)
    requires forall i :: 0 <= i < |turns| - 1 ==> !turns[i].response.Failed()
    ensures Paired(prompts + Transcript(turns)) <==> PartsArePaired(prompts, turns)
  {
    hide Paired, MessagesOf, AnswersItself;
    if turns == [] {
      assert prompts + [] == prompts;
    } else {
      var n := |turns| - 1;
      var front := turns[..n];
      if n == 0 {
        assert turns[..0] == [];
        assert [] + MessagesOf(turns[0]) == MessagesOf(turns[0]);
        PairedAfterPrompts(prompts, turns[0]);
      } else {
        var earlier := prompts + Transcript(front[..n - 1]);
        PairedExactly(prompts, front);
        JoinMessages(prompts, Transcript(front[..n - 1]), MessagesOf(turns[n - 1]));
        JoinMessages(prompts, Transcript(front), MessagesOf(turns[n]));
        PairedAfterTurn(earlier, turns[n - 1], turns[n]);
      }
    }
  }

  ghost predicate AllAnswerThemselves(turns: seq<Turn>) {
    forall i :: 0 <= i < |turns| ==> AnswersItself(turns[i])
  }

  lemma {:induction false} TurnsAnswerTheirCalls(sequentialMode: bool, start: LoopState, scripts: seq<TurnScript>)
    ensures AllAnswerThemselves(Play(sequentialMode, start, scripts).turns)
  {
    hide PlayTurn, AnswersItself;
    if scripts == [] || start.exit.Some? {
    } else {
      var n := |scripts| - 1;
      TurnsAnswerTheirCalls(sequentialMode, start, scripts[..n]);
      var earlier := Play(sequentialMode, start, scripts[..n]);
      if earlier.state.exit.None? {
        TurnAnswersItself(sequentialMode, earlier.state, scripts[n]);
      }
    }
  }

  lemma TurnAnswersItself(sequentialMode: bool, s: LoopState, script: TurnScript)
    ensures AnswersItself(PlayTurn(sequentialMode, s, script).turn)
  {
    hide PlayTurn, TurnOf;
    PlayTurnTurn(sequentialMode, s, script);
    TurnAnswersItsCalls(sequentialMode, s.context, s.pending, script);
  }

  /**
   The messages of a run are paired exactly when what its callers put in is: the loop itself never breaks a
   pairing, and never repairs one.
   */
  lemma RunIsPairedExactly(sequentialMode: bool, start: LoopState, scripts: seq<TurnScript>)
    requires start.exit.None?
    ensures var run := Play(sequentialMode, start, scripts);
            Paired(run.state.newMessages) <==> PartsArePaired(start.newMessages, run.turns)
  {
    hide Play, Paired, PartsArePaired, Transcript;
    LoopDelivers(sequentialMode, start, scripts);
    TurnsAnswerTheirCalls(sequentialMode, start, scripts);
    PollsAreDisciplined(sequentialMode, start, scripts);
    PairedExactly(start.newMessages, Play(sequentialMode, start, scripts).turns);
  }

  // ----- Pairing and what callers queue -----

  predicate EveryMessage(messages: seq<Message>, good: Message -> bool) {
    forall i :: 0 <= i < |messages| ==> good(messages[i])
  }

  predicate AllQueued(b: Both, good: Message -> bool) {
    EveryMessage(b.steering.messages, good) && EveryMessage(b.followUp.messages, good)
  }

  predicate AllPutIn(ops: seq<Op>, good: Message -> bool) {
    forall i :: 0 <= i < |ops| ==> (ops[i].Steer? || ops[i].FollowUp? ==> good(ops[i].message))
  }

  predicate AllScripted(scripts: seq<TurnScript>, good: Message -> bool) {
    forall i :: 0 <= i < |scripts| ==> AllPutIn(scripts[i].ops, good) && AllPutIn(scripts[i].lateOps, good)
  }

  predicate AllInjected(turns: seq<Turn>, good: Message -> bool) {
    forall i :: 0 <= i < |turns| ==> EveryMessage(turns[i].injected, good)
  }

  lemma {:induction false} OpsKeep(b: Both, ops: seq<Op>, good: Message -> bool)
    requires AllQueued(b, good) && AllPutIn(ops, good)
    ensures AllQueued(ApplyAll(b, ops), good)
  {
    if ops == [] {
    } else {
      OpsKeep(b, ops[..|ops| - 1], good);
    }
  }

  lemma DrainKeeps(q: Queue, good: Message -> bool)
    requires EveryMessage(q.messages, good)
    ensures EveryMessage(Drained(q), good) && EveryMessage(Rest(q).messages, good)
  {
  }

  lemma StepKeeps(sequentialMode: bool, s: LoopState, script: TurnScript, good: Message -> bool)
    requires AllQueued(s.queues, good) && AllPutIn(script.ops, good) && AllPutIn(script.lateOps, good)
    ensures var step := PlayTurn(sequentialMode, s, script);
            && AllQueued(step.state.queues, good) && EveryMessage(step.state.pending, good)
            && step.turn.injected == s.pending
  {
    hide TurnOf, MessagesOf, Grown, EveryMessage;
    var step := UpToSteering(sequentialMode, s, script);
    InjectsPending(sequentialMode, s.context, s.pending, script);
    PlayTurnTurn(sequentialMode, s, script);
    NothingIsGood(good);
    OpsKeep(s.queues, script.ops, good);
    DrainKeeps(ApplyAll(s.queues, script.ops).steering, good);
    assert AllQueued(step.state.queues, good) && EveryMessage(step.state.pending, good);
    OpsKeep(step.state.queues, script.lateOps, good);
    DrainKeeps(ApplyAll(step.state.queues, script.lateOps).followUp, good);
  }

  lemma NothingIsGood(good: Message -> bool)
    ensures EveryMessage([], good)
  {
  }

  /** What holds of all messages in the queues, and of all that are put in, holds of all that are injected. */
  lemma {:induction false} InjectedWereQueued(
      sequentialMode: bool, start: LoopState, scripts: seq<TurnScript>, good: Message -> bool)
    requires EveryMessage(start.pending, good) && AllQueued(start.queues, good) && AllScripted(scripts, good)
    ensures var run := Play(sequentialMode, start, scripts);
            && AllInjected(run.turns, good)
            && EveryMessage(run.state.pending, good) && AllQueued(run.state.queues, good)
  {
    if scripts == [] || start.exit.Some? {
    } else {
      hide PlayTurn, EveryMessage, AllQueued, AllPutIn;
      var n := |scripts| - 1;
      InjectedWereQueued(sequentialMode, start, scripts[..n], good);
      var earlier := Play(sequentialMode, start, scripts[..n]);
      if earlier.state.exit.None? {
        StepKeeps(sequentialMode, earlier.state, scripts[n], good);
      }
    }
  }

  predicate NoResult(message: Message) {
    !message.ToolResult?
  }

  /** A message that needs no results and is none: no tool result, and no assistant message that waits for results. */
  predicate Plain(message: Message) {
    && !message.ToolResult?
    && (message.Assistant? ==> message.message.Failed() || message.message.Calls() == [])
  }

  /** Without tool results, a list is paired exactly when none of its messages waits for any. */
  lemma PairedWithoutResults(messages: seq<Message>)
    requires EveryMessage(messages, NoResult)
    ensures Paired(messages) <==> EveryMessage(messages, Plain)
    ensures LeadingResults(messages) == []
  {
    forall k | 0 <= k < |messages| ensures PairedAt(messages, k) <==> Plain(messages[k]) {
      assert messages[k + 1..] == [] || NoResult(messages[k + 1..][0]);
    }
  }

  lemma {:induction false} PartsWithoutResults(prompts: seq<Message>, turns: seq<Turn>)
    requires AllAnswerThemselves(turns) && AllInjected(turns, NoResult)
    ensures PartsArePaired(prompts, turns) <==> Paired(prompts) && AllInjected(turns, Plain)
  {
    if turns == [] {
    } else {
      hide Paired, EveryMessage, LeadingResults, AnswersItself;
      var n := |turns| - 1;
      var injected := turns[n].injected;
      PairedWithoutResults(injected);
      InjectedNext(turns);
      if n == 0 {
        PairedPrompts(prompts, injected);
        NothingInjected();
        assert turns[..0] == [];
      } else {
        PartsWithoutResults(prompts, turns[..n]);
        assert AnswersItself(turns[n - 1]);
        AnswersOwnCalls(turns[n - 1]);
        assert turns[n - 1].results + [] == turns[n - 1].results;
      }
    }
  }

  lemma NothingInjected()
    ensures AllInjected([], Plain)
  {
  }

  lemma InjectedNext(turns: seq<Turn>)
    requires turns != []
    ensures var n := |turns| - 1;
            && (AllInjected(turns, Plain) <==> AllInjected(turns[..n], Plain) && EveryMessage(turns[n].injected, Plain))
            && (AllInjected(turns, NoResult) ==> AllInjected(turns[..n], NoResult))
  {
    hide EveryMessage;
  }

  lemma PairedPrompts(prompts: seq<Message>, injected: seq<Message>)
    requires EveryMessage(injected, NoResult)
    ensures Paired(prompts + injected) <==> Paired(prompts) && Paired(injected)
  {
    PairedSplit(prompts, injected);
  }

  lemma AnswersOwnCalls(turn: Turn)
    requires AnswersItself(turn)
    ensures Answers(turn.results, turn.response.Calls())
  {
  }

  /**
   When callers queue no tool results, the messages of a run are paired exactly when its prompts are and no queued
   message it has injected waits for results.
   */
  lemma RunIsPairedWithoutQueuedResults(sequentialMode: bool, start: LoopState, scripts: seq<TurnScript>)
    requires start.exit.None?
    requires EveryMessage(start.pending, NoResult) && AllQueued(start.queues, NoResult)
    requires AllScripted(scripts, NoResult)
    ensures var run := Play(sequentialMode, start, scripts);
            Paired(run.state.newMessages)
            <==> Paired(start.newMessages) && AllInjected(run.turns, Plain)
  {
    hide Play, Paired, PartsArePaired, AllAnswerThemselves, AllInjected;
    RunIsPairedExactly(sequentialMode, start, scripts);
    InjectedWereQueued(sequentialMode, start, scripts, NoResult);
    TurnsAnswerTheirCalls(sequentialMode, start, scripts);
    PartsWithoutResults(start.newMessages, Play(sequentialMode, start, scripts).turns);
  }

  /** When callers queue plain messages only, the messages of a run are paired exactly when its prompts are. */
  lemma RunIsPaired(sequentialMode: bool, start: LoopState, scripts: seq<TurnScript>)
    requires start.exit.None?
    requires EveryMessage(start.pending, Plain) && AllQueued(start.queues, Plain) && AllScripted(scripts, Plain)
    ensures var run := Play(sequentialMode, start, scripts);
            Paired(run.state.newMessages) <==> Paired(start.newMessages)
  {
    hide Play, Paired;
    InjectedWereQueued(sequentialMode, start, scripts, Plain);
    RunIsPairedWithoutQueuedResults(sequentialMode, start, scripts);
  }

  // ----- Conservation of queued messages -----

  /** The queue calls of a turn that came before its last poll or its end. */
  function AppliedOps(polls: Polls, script: TurnScript): seq<Op> {
    script.ops + if polls.followUp.Some? then script.lateOps else []
  }

  function AllApplied(polls: seq<Polls>, scripts: seq<TurnScript>): seq<Op>
    requires |polls| <= |scripts|
  {
    if polls == [] then []
    else
      var n := |polls| - 1;
      AllApplied(polls[..n], scripts) + AppliedOps(polls[n], scripts[n])
  }

  predicate CameFromFollowUps(polls: seq<Polls>) {
    polls != [] && polls[|polls| - 1].followUp.Some?
  }

  /** The injected messages of the turns whose injection came from the steering queue. */
  function SteeringDelivered(turns: seq<Turn>, polls: seq<Polls>): seq<Message>
    requires |turns| == |polls|
  {
    if turns == [] then []
    else
      var n := |turns| - 1;
      SteeringDelivered(turns[..n], polls[..n])
      + if CameFromFollowUps(polls[..n]) then [] else turns[n].injected
  }

  function FollowUpsDelivered(turns: seq<Turn>, polls: seq<Polls>): seq<Message>
    requires |turns| == |polls|
  {
    if turns == [] then []
    else
      var n := |turns| - 1;
      FollowUpsDelivered(turns[..n], polls[..n])
      + if CameFromFollowUps(polls[..n]) then turns[n].injected else []
  }

  lemma {:induction false} SteeredAppend(a: seq<Op>, b: seq<Op>)
    ensures Steered(a + b) == Steered(a) + Steered(b)
    ensures FollowedUp(a + b) == FollowedUp(a) + FollowedUp(b)
  {
    if b == [] {
      assert a + b == a;
    } else {
      SteeredAppend(a, b[..|b| - 1]);
      assert (a + b)[..|a + b| - 1] == a + b[..|b| - 1];
    }
  }

  /** One turn: what was queued and what came in is what the polls handed out and what is left, in order. */
  lemma StepConserves(sequentialMode: bool, s: LoopState, script: TurnScript)
    ensures var step := PlayTurn(sequentialMode, s, script);
            var applied := AppliedOps(step.polls, script);
            && step.turn.injected == s.pending
            && s.queues.steering.messages + Steered(applied)
               == Or(step.polls.steering, []) + step.state.queues.steering.messages
            && s.queues.followUp.messages + FollowedUp(applied)
               == Or(step.polls.followUp, []) + step.state.queues.followUp.messages
            && step.state.pending
               == (if step.polls.followUp.Some? then Or(step.polls.followUp, []) else Or(step.polls.steering, []))
            && (step.polls.followUp.Some? ==> Or(step.polls.steering, []) == [])
  {
    hide TurnOf, MessagesOf, Grown, ApplyAll, Drained, Rest, Steered, FollowedUp;
    PlayTurnTurn(sequentialMode, s, script);
    InjectsPending(sequentialMode, s.context, s.pending, script);
    var first := UpToSteering(sequentialMode, s, script);
    var step := PlayTurn(sequentialMode, s, script);
    OpsAppend(s.queues, script.ops);
    assert script.ops + [] == script.ops;
    if step.polls.followUp.Some? {
      OpsAppend(first.state.queues, script.lateOps);
      SteeredAppend(script.ops, script.lateOps);
    }
  }

  lemma InjectsPending(sequentialMode: bool, context: Context, pending: seq<Message>, script: TurnScript)
    ensures TurnOf(sequentialMode, context, pending, script).injected == pending
  {
    hide Respond, ToolPhaseOf;
  }

  /**
   Nothing queued is lost, doubled or reordered. At every turn boundary the messages ever put into a queue are
   those delivered into the transcript from it, then those drained and pending, then those still queued.
   */
  lemma {:induction false} QueuesAreConserved(
      sequentialMode: bool, context: Context, newMessages: seq<Message>, queues: Both, skip: bool,
      scripts: seq<TurnScript>)
    ensures var run := Play(sequentialMode, Enter(context, newMessages, queues, skip), scripts);
            var applied := AllApplied(run.polls, scripts);
            && queues.steering.messages + Steered(applied)
               == SteeringDelivered(run.turns, run.polls)
                  + (if CameFromFollowUps(run.polls) then [] else run.state.pending)
                  + run.state.queues.steering.messages
            && queues.followUp.messages + FollowedUp(applied)
               == FollowUpsDelivered(run.turns, run.polls)
                  + (if CameFromFollowUps(run.polls) then run.state.pending else [])
                  + run.state.queues.followUp.messages
  {
    hide PlayTurn, Drained, Rest, Steered, FollowedUp, SteeringDelivered, FollowUpsDelivered, AllApplied;
    var start := Enter(context, newMessages, queues, skip);
    if scripts == [] {
      NothingDelivered(scripts);
      assert queues.steering.messages + [] == queues.steering.messages;
      assert queues.followUp.messages + [] == queues.followUp.messages;
    } else {
      var n := |scripts| - 1;
      var earlier := Play(sequentialMode, start, scripts[..n]);
      QueuesAreConserved(sequentialMode, context, newMessages, queues, skip, scripts[..n]);
      AppliedPrefix(earlier.polls, scripts, n);
      if earlier.state.exit.None? {
        var step := PlayTurn(sequentialMode, earlier.state, scripts[n]);
        var applied, more := AllApplied(earlier.polls, scripts), AppliedOps(step.polls, scripts[n]);
        var fromFollowUps := CameFromFollowUps(earlier.polls);
        StepConserves(sequentialMode, earlier.state, scripts[n]);
        SteeredAppend(applied, more);
        DeliveredNext(earlier.turns, earlier.polls, step.turn, step.polls, scripts);
        MoveAlong(queues.steering.messages, Steered(applied), SteeringDelivered(earlier.turns, earlier.polls),
                  if fromFollowUps then [] else earlier.state.pending, earlier.state.queues.steering.messages,
                  Steered(more), Or(step.polls.steering, []), step.state.queues.steering.messages);
        MoveAlong(queues.followUp.messages, FollowedUp(applied), FollowUpsDelivered(earlier.turns, earlier.polls),
                  if fromFollowUps then earlier.state.pending else [], earlier.state.queues.followUp.messages,
                  FollowedUp(more), Or(step.polls.followUp, []), step.state.queues.followUp.messages);
      }
    }
  }

  lemma NothingDelivered(scripts: seq<TurnScript>)
    ensures AllApplied([], scripts) == [] && Steered([]) == [] && FollowedUp([]) == []
    ensures SteeringDelivered([], []) == [] && FollowUpsDelivered([], []) == []
  {
  }

  /** Pending messages are delivered, drained ones become pending. */
  lemma MoveAlong(
      queued: seq<Message>, added: seq<Message>, delivered: seq<Message>, pending: seq<Message>,
      left: seq<Message>, addedNow: seq<Message>, drainedNow: seq<Message>, leftNow: seq<Message>)
    requires queued + added == delivered + pending + left
    requires left + addedNow == drainedNow + leftNow
    ensures queued + (added + addedNow) == (delivered + pending) + drainedNow + leftNow
    ensures pending == [] ==> delivered + pending == delivered
  {
    JoinMessages(queued, added, addedNow);
    JoinMessages(delivered + pending, left, addedNow);
    JoinMessages(delivered + pending, drainedNow, leftNow);
  }

  lemma {:induction false} AppliedPrefix(polls: seq<Polls>, scripts: seq<TurnScript>, n: nat)
    requires |polls| <= n <= |scripts|
    ensures AllApplied(polls, scripts[..n]) == AllApplied(polls, scripts)
  {
    if polls == [] {
    } else {
      AppliedPrefix(polls[..|polls| - 1], scripts, n);
    }
  }

  lemma DeliveredNext(turns: seq<Turn>, polls: seq<Polls>, turn: Turn, p: Polls, scripts: seq<TurnScript>)
    requires |turns| == |polls| < |scripts|
    ensures AllApplied(polls + [p], scripts) == AllApplied(polls, scripts) + AppliedOps(p, scripts[|polls|])
    ensures CameFromFollowUps(polls + [p]) == p.followUp.Some?
    ensures SteeringDelivered(turns + [turn], polls + [p])
            == SteeringDelivered(turns, polls) + if CameFromFollowUps(polls) then [] else turn.injected
    ensures FollowUpsDelivered(turns + [turn], polls + [p])
            == FollowUpsDelivered(turns, polls) + if CameFromFollowUps(polls) then turn.injected else []
  {
    assert (turns + [turn])[..|turns|] == turns && (polls + [p])[..|polls|] == polls;
  }

  // ----- Scheduling priority -----

  /** A follow-up poll is made only after a turn without tool work and right after an empty steering poll. */
  predicate Disciplined(turn: Turn, polls: Polls) {
    && (polls.followUp.Some? ==> polls.steering == Some([]) && !turn.more)
    && (turn.response.Failed() ==> polls == Polls(None, None))
  }

  /** What the last turn and its polls were like when a run ended. */
  predicate EndedProperly(turn: Turn, polls: Polls, exit: Exit) {
    match exit
    case ResponseFailed => turn.response.Failed() && polls == Polls(None, None)
    case StoppedByHook => !turn.response.Failed() && polls == Polls(None, None)
    case NothingLeft => !turn.response.Failed() && !turn.more && polls == Polls(Some([]), Some([]))
  }

  lemma StepIsDisciplined(sequentialMode: bool, s: LoopState, script: TurnScript)
    ensures var step := PlayTurn(sequentialMode, s, script);
            && Disciplined(step.turn, step.polls)
            && (step.state.exit.Some? ==>
                  EndedProperly(step.turn, step.polls, step.state.exit.value) && step.state.pending == [])
            && (step.state.exit.None? ==>
                  && !step.turn.response.Failed() && step.polls.steering.Some?
                  && (step.turn.more || Or(step.polls.steering, []) != [] || Or(step.polls.followUp, []) != []))
  {
    hide TurnOf, MessagesOf, Grown, ApplyAll;
  }

  /**
   Steering comes before follow-ups, tool work before both, in every run. A run that ends by itself has polled
   both queues last and found both empty; an error or aborted response is the last of its run.
   */
  lemma {:induction false} PollsAreDisciplined(sequentialMode: bool, start: LoopState, scripts: seq<TurnScript>)
    requires start.exit.None?
    ensures var run := Play(sequentialMode, start, scripts);
            && (forall i :: 0 <= i < |run.turns| ==> Disciplined(run.turns[i], run.polls[i]))
            && (forall i :: 0 <= i < |run.turns| && run.turns[i].response.Failed() ==>
                  i == |run.turns| - 1 && run.state.exit == Some(ResponseFailed))
            && (run.state.exit.Some? ==>
                  && run.turns != [] && run.state.pending == []
                  && EndedProperly(run.turns[|run.turns| - 1], run.polls[|run.polls| - 1], run.state.exit.value))
  {
    hide PlayTurn, Disciplined, EndedProperly;
    if scripts == [] {
    } else {
      var n := |scripts| - 1;
      PollsAreDisciplined(sequentialMode, start, scripts[..n]);
      var earlier := Play(sequentialMode, start, scripts[..n]);
      if earlier.state.exit.None? {
        StepIsDisciplined(sequentialMode, earlier.state, scripts[n]);
        FailureEndsRun(sequentialMode, earlier.state, scripts[n]);
      }
    }
  }

  lemma FailureEndsRun(sequentialMode: bool, s: LoopState, script: TurnScript)
    ensures var step := PlayTurn(sequentialMode, s, script);
            step.turn.response.Failed() <==> step.state.exit == Some(ResponseFailed)
  {
    hide TurnOf, MessagesOf, Grown, ApplyAll;
  }

  predicate OneAtATimeQueues(b: Both) {
    b.steering.mode == OneAtATime && b.followUp.mode == OneAtATime
  }

  predicate KeepsModes(ops: seq<Op>) {
    forall i :: 0 <= i < |ops| ==> ops[i] != SetSteering(All) && ops[i] != SetFollowUp(All)
  }

  lemma {:induction false} ModesKept(b: Both, ops: seq<Op>)
    requires OneAtATimeQueues(b) && KeepsModes(ops)
    ensures OneAtATimeQueues(ApplyAll(b, ops))
  {
    if ops == [] {
    } else {
      ModesKept(b, ops[..|ops| - 1]);
    }
  }

  lemma OneAtATimeStep(sequentialMode: bool, s: LoopState, script: TurnScript)
    requires OneAtATimeQueues(s.queues) && KeepsModes(script.ops) && KeepsModes(script.lateOps)
    ensures var step := PlayTurn(sequentialMode, s, script);
            && OneAtATimeQueues(step.state.queues) && |step.state.pending| <= 1
            && step.turn.injected == s.pending
  {
    hide TurnOf, MessagesOf, Grown, ApplyAll;
    PlayTurnTurn(sequentialMode, s, script);
    InjectsPending(sequentialMode, s.context, s.pending, script);
    ModesKept(s.queues, script.ops);
    ModesKept(UpToSteering(sequentialMode, s, script).state.queues, script.lateOps);
  }

  /** In one-at-a-time mode no turn injects more than one queued message. */
  lemma {:induction false} OneMessagePerTurn(sequentialMode: bool, start: LoopState, scripts: seq<TurnScript>)
    requires OneAtATimeQueues(start.queues) && |start.pending| <= 1
    requires forall i :: 0 <= i < |scripts| ==> KeepsModes(scripts[i].ops) && KeepsModes(scripts[i].lateOps)
    ensures var run := Play(sequentialMode, start, scripts);
            && OneAtATimeQueues(run.state.queues) && |run.state.pending| <= 1
            && forall i :: 0 <= i < |run.turns| ==> |run.turns[i].injected| <= 1
  {
    hide PlayTurn, KeepsModes, OneAtATimeQueues;
    if scripts == [] || start.exit.Some? {
    } else {
      var n := |scripts| - 1;
      OneMessagePerTurn(sequentialMode, start, scripts[..n]);
      var earlier := Play(sequentialMode, start, scripts[..n]);
      if earlier.state.exit.None? {
        OneAtATimeStep(sequentialMode, earlier.state, scripts[n]);
      }
    }
  }

  // ----- How long a run can be -----

  function Count<T>(items: seq<T>, holds: T -> bool): (count: nat)
    ensures count <= |items|
  {
    if items == [] then 0
    else Count(items[..|items| - 1], holds) + if holds(items[|items| - 1]) then 1 else 0
  }

  lemma CountNext<T>(items: seq<T>, item: T, holds: T -> bool)
    ensures Count(items + [item], holds) == Count(items, holds) + if holds(item) then 1 else 0
  {
    assert (items + [item])[..|items|] == items;
  }

  /** Turns whose tool batch did not terminate. */
  function Continuing(turns: seq<Turn>): nat {
    Count(turns, (turn: Turn) => turn.more)
  }

  /** Turns after which a poll returned messages. */
  function NonemptyPolls(polls: seq<Polls>): nat {
    Count(polls, (p: Polls) => Or(p.steering, []) != [] || Or(p.followUp, []) != [])
  }

  function ToolCalling(scripts: seq<TurnScript>): nat {
    Count(scripts, (script: TurnScript) => !script.final.Failed() && script.final.Calls() != [])
  }

  /**
   The number of turns is at most one plus the turns whose batch did not terminate plus the polls that returned
   messages.
   */
  lemma {:induction false} TurnBound(sequentialMode: bool, start: LoopState, scripts: seq<TurnScript>)
    ensures var run := Play(sequentialMode, start, scripts);
            && |run.turns| <= 1 + Continuing(run.turns) + NonemptyPolls(run.polls)
            && (run.state.exit.None? ==> |run.turns| <= Continuing(run.turns) + NonemptyPolls(run.polls))
  {
    hide PlayTurn;
    if scripts == [] || start.exit.Some? {
    } else {
      var n := |scripts| - 1;
      TurnBound(sequentialMode, start, scripts[..n]);
      var earlier := Play(sequentialMode, start, scripts[..n]);
      if earlier.state.exit.None? {
        var step := PlayTurn(sequentialMode, earlier.state, scripts[n]);
        StepIsDisciplined(sequentialMode, earlier.state, scripts[n]);
        CountNext(earlier.turns, step.turn, (turn: Turn) => turn.more);
        CountNext(earlier.polls, step.polls, (p: Polls) => Or(p.steering, []) != [] || Or(p.followUp, []) != []);
      }
    }
  }

  /** Messages that wait in a queue. */
  function Waiting(b: Both): nat {
    |b.steering.messages| + |b.followUp.messages|
  }

  /** Messages that callers put into the queues during the scripts. */
  function Enqueued(scripts: seq<TurnScript>): nat {
    if scripts == [] then 0
    else
      var n := |scripts| - 1;
      var all := scripts[n].ops + scripts[n].lateOps;
      Enqueued(scripts[..n]) + |Steered(all)| + |FollowedUp(all)|
  }

  lemma {:induction false} PollsUseUpMessages(sequentialMode: bool, start: LoopState, scripts: seq<TurnScript>)
    ensures var run := Play(sequentialMode, start, scripts);
            && NonemptyPolls(run.polls) + Waiting(run.state.queues) <= Waiting(start.queues) + Enqueued(scripts)
            && Continuing(run.turns) <= ToolCalling(scripts)
  {
    hide PlayTurn;
    if scripts == [] || start.exit.Some? {
    } else {
      hide Steered, FollowedUp;
      var n := |scripts| - 1;
      PollsUseUpMessages(sequentialMode, start, scripts[..n]);
      var earlier := Play(sequentialMode, start, scripts[..n]);
      var tools := (script: TurnScript) => !script.final.Failed() && script.final.Calls() != [];
      assert scripts[..n] + [scripts[n]] == scripts;
      CountNext(scripts[..n], scripts[n], tools);
      if earlier.state.exit.None? {
        var step := PlayTurn(sequentialMode, earlier.state, scripts[n]);
        CountNext(earlier.turns, step.turn, (turn: Turn) => turn.more);
        CountNext(earlier.polls, step.polls, (p: Polls) => Or(p.steering, []) != [] || Or(p.followUp, []) != []);
        StepUsesUp(sequentialMode, earlier.state, scripts[n]);
      }
    }
  }

  lemma StepUsesUp(sequentialMode: bool, s: LoopState, script: TurnScript)
    ensures var step := PlayTurn(sequentialMode, s, script);
            var all := script.ops + script.lateOps;
            && (if Or(step.polls.steering, []) != [] || Or(step.polls.followUp, []) != [] then 1 else 0)
               + Waiting(step.state.queues) <= Waiting(s.queues) + |Steered(all)| + |FollowedUp(all)|
            && (step.turn.more ==> !script.final.Failed() && script.final.Calls() != [])
  {
    hide PlayTurn, Steered, FollowedUp;
    var step := PlayTurn(sequentialMode, s, script);
    StepConserves(sequentialMode, s, script);
    SteeredAppend(script.ops, script.lateOps);
    assert script.ops + [] == script.ops;
    var a := s.queues.steering.messages + Steered(AppliedOps(step.polls, script));
    var b := s.queues.followUp.messages + FollowedUp(AppliedOps(step.polls, script));
    assert |a| == |Or(step.polls.steering, [])| + |step.state.queues.steering.messages|;
    assert |b| == |Or(step.polls.followUp, [])| + |step.state.queues.followUp.messages|;
    PlayTurnTurn(sequentialMode, s, script);
    MoreNeedsCalls(sequentialMode, s.context, s.pending, script);
  }

  lemma MoreNeedsCalls(sequentialMode: bool, context: Context, pending: seq<Message>, script: TurnScript)
    ensures TurnOf(sequentialMode, context, pending, script).more ==>
              !script.final.Failed() && script.final.Calls() != []
  {
    hide Respond, ToolEventsOf, BatchFor;
  }

  /**
   With finitely many tool-calling responses and queued messages every run ends: no run is still going after
   more turns than there are tool-calling responses and messages to deliver.
   */
  lemma EveryFiniteRunEnds(sequentialMode: bool, start: LoopState, scripts: seq<TurnScript>)
    requires |scripts| > ToolCalling(scripts) + Waiting(start.queues) + Enqueued(scripts)
    ensures Play(sequentialMode, start, scripts).state.exit.Some?
  {
    hide Play;
    TurnBound(sequentialMode, start, scripts);
    PollsUseUpMessages(sequentialMode, start, scripts);
  }
}
