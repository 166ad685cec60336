/**
 What a tool call comes to, said of its script and the tool list alone: which calls are refused and with what answer,
 and what the others answer with.
 */
module CallOutcomes {
  import opened Messages
  import opened Events
  import opened ToolCalls
  import opened SequentialBatch
  import opened ParallelBatch
  import opened ParallelTrace

  /** The first tool of a name. */
  ghost predicate IsFirstNamed(tools: seq<Tool>, k: nat, name: string) {
    k < |tools| && tools[k].name == name && forall j :: 0 <= j < k ==> tools[j].name != name
  }

  ghost predicate HasTool(tools: seq<Tool>, name: string) {
    exists tool :: tool in tools && tool.name == name
  }

  lemma ShiftFirstNamed(tools: seq<Tool>, k: nat, name: string)
    requires tools != [] && tools[0].name != name
    ensures IsFirstNamed(tools[1..], k, name) <==> IsFirstNamed(tools, k + 1, name)
  {
    var rest := tools[1..];
    if IsFirstNamed(rest, k, name) {
      forall j | 0 <= j < k + 1 ensures tools[j].name != name {
        assert j > 0 ==> tools[j] == rest[j - 1];
      }
    }
    if IsFirstNamed(tools, k + 1, name) {
      assert forall j :: 0 <= j < k ==> rest[j] == tools[j + 1];
    }
  }

  /** A call is for the first tool that bears its name. */
  lemma {:induction false} FindsTheFirst(tools: seq<Tool>, name: string)
    ensures Find(tools, name).Some? <==> HasTool(tools, name)
    ensures forall k: nat :: IsFirstNamed(tools, k, name) ==> Find(tools, name) == Some(tools[k])
    ensures Find(tools, name).Some? ==>
              exists k: nat :: IsFirstNamed(tools, k, name) && Find(tools, name) == Some(tools[k])
  {
    if tools == [] {
    } else if tools[0].name == name {
      assert IsFirstNamed(tools, 0, name) && tools[0] in tools;
      forall k: nat | IsFirstNamed(tools, k, name) ensures k == 0 {
      }
    } else {
      var rest := tools[1..];
      FindsTheFirst(rest, name);
      HasToolBehind(tools, name);
      hide HasTool;
      forall k: nat | IsFirstNamed(tools, k, name) ensures Find(tools, name) == Some(tools[k]) {
        assert k > 0;
        ShiftFirstNamed(tools, k - 1, name);
      }
      if Find(tools, name).Some? {
        var k: nat :| IsFirstNamed(rest, k, name) && Find(rest, name) == Some(rest[k]);
        ShiftFirstNamed(tools, k, name);
      }
    }
  }

  lemma HasToolBehind(tools: seq<Tool>, name: string)
    requires tools != [] && tools[0].name != name
    ensures HasTool(tools, name) <==> HasTool(tools[1..], name)
  {
    if HasTool(tools, name) {
      var tool :| tool in tools && tool.name == name;
      assert tool in tools[1..];
    }
    if HasTool(tools[1..], name) {
      var tool :| tool in tools[1..] && tool.name == name;
      assert tool in tools;
    }
  }

  // ----- Refusals -----

  predicate HookThrows(s: CallScript) {
    s.before.Some? && s.before.value.Throws?
  }

  predicate HookBlocks(s: CallScript) {
    s.before.Some? && s.before.value.Returns? && s.before.value.value.Some? && s.before.value.value.value.block
  }

  /** Everything that keeps a call from its tool. */
  ghost predicate Refused(tools: seq<Tool>, call: ToolCall, s: CallScript) {
    || !HasTool(tools, call.name)
    || s.validated.Throws?
    || HookThrows(s)
    || HookBlocks(s)
    || (s.before.Some? && s.abortedAfterBefore)
    || s.abortedAtStart
  }

  /** Every other call is prepared, with its validated arguments. */
  lemma RefusedExactly(tools: seq<Tool>, call: ToolCall, s: CallScript)
    ensures Refused(tools, call, s) <==> Prepare(tools, call, s).Immediate?
    ensures !Refused(tools, call, s) ==> Prepare(tools, call, s) == Prepared(call, s.validated.value)
  {
    FindsTheFirst(tools, call.name);
  }

  /**
   A refused call never runs its tool: whatever the tool, its progress callbacks and the after hook would do, it has
   the same error result, asks for nothing, and reports no progress.
   */
  lemma RefusedCallsNeverRun(
      tools: seq<Tool>, call: ToolCall, s: CallScript, execution: Outcome<ToolOutput>, updates: seq<string>,
      lateUpdates: seq<string>, after: Option<Outcome<Option<AfterResult>>>)
    requires Refused(tools, call, s)
    ensures var t := s.(execution := execution, updates := updates, lateUpdates := lateUpdates, after := after);
            && OutcomeOf(tools, call, t) == OutcomeOf(tools, call, s)
            && OutcomeOf(tools, call, s).isError
            && OutcomeOf(tools, call, s).output.terminate.None?
            && OutcomeOf(tools, call, s).output.details == ""
            && forall e :: e in ToolPart(tools, call, t) ==> !e.ToolUpdate?
  {
    RefusedExactly(tools, call, s);
  }

  /** In a parallel batch, too, under every schedule. */
  lemma RefusedCallsReportNoProgress(
      tools: seq<Tool>, calls: seq<ToolCall>, scripts: nat -> CallScript, schedule: seq<Action>, i: nat)
    requires i < |calls| && Refused(tools, calls[i], scripts(i))
    ensures forall e :: e in OfCall(MarkedToolPart(Entries(tools, calls, scripts), schedule), i) ==> !e.ToolUpdate?
  {
    RefusedExactly(tools, calls[i], scripts(i));
    ParallelBracketing(Entries(tools, calls, scripts), schedule, i);
  }

  /** The progress a call reports otherwise: all updates in sequential mode, the accepted ones in parallel mode. */
  lemma AcceptedCallsReportProgress(
      tools: seq<Tool>, calls: seq<ToolCall>, scripts: nat -> CallScript, schedule: seq<Action>, i: nat)
    requires i < |calls| && !Refused(tools, calls[i], scripts(i))
    ensures var call := calls[i];
            && ToolPart(tools, call, scripts(i))
               == [ToolStart(call)] + CallUpdates(call, scripts(i).updates)
                  + [OutcomeOf(tools, call, scripts(i)).End()]
            && OfCall(MarkedToolPart(Entries(tools, calls, scripts), schedule), i)
               == [ToolStart(call)] + CallUpdates(call, Accepted(schedule, i))
                  + [OutcomeOf(tools, call, scripts(i)).End()]
  {
    RefusedExactly(tools, calls[i], scripts(i));
    ParallelBracketing(Entries(tools, calls, scripts), schedule, i);
  }

  /** The reason of a refusal is that of the first thing that refuses: tool, validation, hook, abort, block, abort. */
  lemma RefusalsTellTheFirstReason(tools: seq<Tool>, call: ToolCall, s: CallScript)
    requires Refused(tools, call, s)
    ensures var told := OutcomeOf(tools, call, s).output.content;
            if !HasTool(tools, call.name) then told == "Tool " + call.name + " not found"
            else if s.validated.Throws? then told == s.validated.message
            else if HookThrows(s) then told == s.before.value.message
            else if HookBlocks(s) && !s.abortedAfterBefore then
              var reason := s.before.value.value.value.reason;
              told == if reason.None? || reason == Some("") then "Tool execution was blocked" else reason.value
            else told == "Operation aborted"
  {
    FindsTheFirst(tools, call.name);
  }

  // ----- Answers -----

  predicate HookSilent(s: CallScript) {
    s.after.None? || s.after == Some(Returns(None))
  }

  /** A call that nothing refuses answers with its execution, unless an after hook has something to say. */
  lemma AcceptedCallsAnswerWithTheirExecution(tools: seq<Tool>, call: ToolCall, s: CallScript)
    requires !Refused(tools, call, s) && HookSilent(s)
    ensures var f := OutcomeOf(tools, call, s);
            match s.execution
            case Returns(output) => f == Finalized(call, output, false)
            case Throws(message) => f == Finalized(call, ToolOutput(message, "", None), true)
  {
    RefusedExactly(tools, call, s);
  }

  /**
   An after hook that throws replaces the answer by its error. One that returns something replaces exactly the fields
   it names, each by its own; the others are as without it.
   */
  lemma AfterHooksReplaceWhatTheyName(tools: seq<Tool>, call: ToolCall, s: CallScript)
    requires !Refused(tools, call, s) && !HookSilent(s)
    ensures var f, plain := OutcomeOf(tools, call, s), OutcomeOf(tools, call, s.(after := None));
            match s.after.value
            case Throws(message) => f == Finalized(call, ToolOutput(message, "", None), true)
            case Returns(said) =>
              var AfterResult(content, details, isError, terminate) := said.value;
              && f.output.content == (if content.Some? then content.value else plain.output.content)
              && f.output.details == (if details.Some? then details.value else plain.output.details)
              && f.output.terminate == (if terminate.Some? then terminate else plain.output.terminate)
              && f.isError == (if isError.Some? then isError.value else plain.isError)
  {
    RefusedExactly(tools, call, s);
    RefusedExactly(tools, call, s.(after := None));
  }
}
