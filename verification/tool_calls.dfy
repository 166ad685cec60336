/**
 One tool call: its preparation, execution and finalization.

 Everything a tool or a hook decides is an oracle value in a CallScript, so a call's outcome depends on that
 call alone. `nat -> CallScript` gives the values for the calls of one assistant message by position.
 */
module ToolCalls {
  import opened Messages
  import opened Events
  import opened Reducer

  /** What a foreign function did: return a value, or throw an error with a message. */
  datatype Outcome<+T> = Returns(value: T) | Throws(message: string)

  /** `sequential` is executionMode === "sequential". */
  datatype Tool = Tool(name: string, sequential: bool)

  datatype BeforeResult = BeforeResult(block: bool, reason: Option<string>)

  datatype AfterResult = AfterResult(
    content: Option<string>, details: Option<string>, isError: Option<bool>, terminate: Option<bool>)

  /**
   - validated: argument preparation and schema validation
   - before, after: the hooks, None when none is configured; a hook may return nothing
   - abortedAfterBefore, abortedAtStart: the abort signal at the two checks during preparation
   - updates, lateUpdates: progress callbacks made before and after execution settles (sequential mode)
   - abortedAfterPreparation, abortedAfterCall: the signal at the loop check of parallel and sequential mode
   */
  datatype CallScript = CallScript(
    validated: Outcome<string>,
    before: Option<Outcome<Option<BeforeResult>>>,
    abortedAfterBefore: bool,
    abortedAtStart: bool,
    execution: Outcome<ToolOutput>,
    updates: seq<string>,
    lateUpdates: seq<string>,
    after: Option<Outcome<Option<AfterResult>>>,
    abortedAfterPreparation: bool,
    abortedAfterCall: bool)

  datatype Preparation =
    | Immediate(output: ToolOutput, isError: bool)
    | Prepared(call: ToolCall, arguments: string)

  datatype Executed = Executed(output: ToolOutput, isError: bool)

  datatype Finalized = Finalized(call: ToolCall, output: ToolOutput, isError: bool) {
    function End(): Event {
      ToolEnd(call.id, call.name, output, isError)
    }

    function Result(): ToolResultMessage {
      ToolResultMessage(call.id, call.name, output.content, output.details, isError)
    }
  }

  function Or<T>(value: Option<T>, otherwise: T): T {
    if value.Some? then value.value else otherwise
  }

  function ErrorOutput(message: string): ToolOutput {
    ToolOutput(message, "", None)
  }

  function Find(tools: seq<Tool>, name: string): Option<Tool> {
    if tools == [] then None
    else if tools[0].name == name then Some(tools[0])
    else Find(tools[1..], name)
  }

  function Prepare(tools: seq<Tool>, call: ToolCall, s: CallScript): Preparation {
    if Find(tools, call.name).None? then
      Immediate(ErrorOutput("Tool " + call.name + " not found"), true)
    else if s.validated.Throws? then
      Immediate(ErrorOutput(s.validated.message), true)
    else if s.before.Some? && s.before.value.Throws? then
      Immediate(ErrorOutput(s.before.value.message), true)
    else if s.before.Some? && s.abortedAfterBefore then
      Immediate(ErrorOutput("Operation aborted"), true)
    else if s.before.Some? && s.before.value.value.Some? && s.before.value.value.value.block then
      var reason := s.before.value.value.value.reason;
      Immediate(ErrorOutput(if reason.Some? && reason.value != "" then reason.value
                            else "Tool execution was blocked"), true)
    else if s.abortedAtStart then
      Immediate(ErrorOutput("Operation aborted"), true)
    else
      Prepared(call, s.validated.value)
  }

  function Execute(s: CallScript): Executed {
    match s.execution
    case Returns(output) => Executed(output, false)
    case Throws(message) => Executed(ErrorOutput(message), true)
  }

  function Finalize(call: ToolCall, executed: Executed, s: CallScript): (f: Finalized)
    ensures f.call == call
  {
    match s.after
    case Some(Throws(message)) => Finalized(call, ErrorOutput(message), true)
    case Some(Returns(Some(r))) =>
      Finalized(call,
                ToolOutput(Or(r.content, executed.output.content),
                           Or(r.details, executed.output.details),
                           if r.terminate.Some? then r.terminate else executed.output.terminate),
                Or(r.isError, executed.isError))
    case _ => Finalized(call, executed.output, executed.isError)
  }

  /** What a call comes to, whatever happens to other calls. */
  function OutcomeOf(tools: seq<Tool>, call: ToolCall, s: CallScript): (f: Finalized)
    ensures f.call == call
  {
    match Prepare(tools, call, s)
    case Immediate(output, isError) => Finalized(call, output, isError)
    case Prepared(_, _) => Finalize(call, Execute(s), s)
  }

  /** The tool throws, and no hook makes up for it: there is none, or it leaves the error and the rest as they are. */
  predicate ToolFails(s: CallScript) {
    s.execution.Throws? &&
    match s.after
    case Some(Returns(Some(r))) => Or(r.isError, true) && (r.terminate.None? || !r.terminate.value)
    case _ => true
  }

  /** Something goes wrong with a call: in its preparation, in its tool, or in its after hook. */
  predicate Fails(tools: seq<Tool>, call: ToolCall, s: CallScript) {
    || Prepare(tools, call, s).Immediate?
    || ToolFails(s)
    || (s.after.Some? && s.after.value.Throws?)
  }

  /** What goes wrong with a call turns into an error result that does not ask the batch to terminate. */
  lemma FailuresBecomeErrorResults(tools: seq<Tool>, call: ToolCall, s: CallScript)
    requires Fails(tools, call, s)
    ensures var f := OutcomeOf(tools, call, s);
            f.isError && f.output.terminate != Some(true) && f.call == call
  {
  }

  function Outcomes(tools: seq<Tool>, calls: seq<ToolCall>, scripts: nat -> CallScript): (all: seq<Finalized>)
    ensures |all| == |calls|
    ensures forall i :: 0 <= i < |calls| ==> all[i] == OutcomeOf(tools, calls[i], scripts(i))
  {
    seq(|calls|, i requires 0 <= i < |calls| => OutcomeOf(tools, calls[i], scripts(i)))
  }

  /** The scripts of a batch with another one for the call at position `i`. */
  function Replaced(scripts: nat -> CallScript, i: nat, s: CallScript): nat -> CallScript {
    (k: nat) => if k == i then s else scripts(k)
  }

  function Results(finalized: seq<Finalized>): (results: seq<ToolResultMessage>)
    ensures |results| == |finalized|
    ensures forall i :: 0 <= i < |results| ==> results[i] == finalized[i].Result()
  {
    seq(|finalized|, i requires 0 <= i < |finalized| => finalized[i].Result())
  }

  predicate ShouldTerminate(finalized: seq<Finalized>) {
    && |finalized| > 0
    && forall i :: 0 <= i < |finalized| ==> finalized[i].output.terminate == Some(true)
  }

  /** What a batch hands back to the loop. */
  datatype Batch = Batch(results: seq<ToolResultMessage>, terminate: bool)

  function BatchOf(finalized: seq<Finalized>): Batch {
    Batch(Results(finalized), ShouldTerminate(finalized))
  }

  /**
   How many of `n` calls a batch reaches when it may break after each one: up to and including the first at
   which `stop` holds. What holds at the last call makes no difference.
   */
  function Reach(n: nat, stop: nat -> bool): (reached: nat)
    ensures reached <= n
    ensures n > 0 ==> reached > 0
    ensures forall i :: 0 <= i < reached - 1 ==> !stop(i)
    ensures 0 < reached < n ==> stop(reached - 1)
    ensures reached == n <==> forall i :: 0 <= i < n - 1 ==> !stop(i)
  {
    if n == 0 then 0
    else
      var earlier := Reach(n - 1, stop);
      if earlier == n - 1 && (n == 1 || !stop(n - 2)) then n else earlier
  }

  lemma {:induction false} ReachStops(n: nat, stop: nat -> bool, k: nat)
    requires 0 < k <= n
    requires forall i :: 0 <= i < k - 1 ==> !stop(i)
    requires k == n || stop(k - 1)
    ensures Reach(n, stop) == k
  {
    if k == n {
    } else {
      ReachStops(n - 1, stop, k);
    }
  }

  lemma {:induction false} SameReach(n: nat, stop: nat -> bool, other: nat -> bool)
    requires forall i :: 0 <= i < n ==> stop(i) == other(i)
    ensures Reach(n, stop) == Reach(n, other)
  {
    if n == 0 {
    } else {
      SameReach(n - 1, stop, other);
    }
  }

  function CallUpdates(call: ToolCall, partials: seq<string>): seq<Event> {
    if partials == [] then []
    else CallUpdates(call, partials[..|partials| - 1]) + [ToolUpdate(call, partials[|partials| - 1])]
  }

  /** One update for each partial result, in order. */
  lemma {:induction false} CallUpdatesAreUpdates(call: ToolCall, partials: seq<string>)
    ensures |CallUpdates(call, partials)| == |partials|
    ensures forall k :: 0 <= k < |partials| ==> CallUpdates(call, partials)[k] == ToolUpdate(call, partials[k])
    ensures forall e :: e in CallUpdates(call, partials) ==> e.ToolUpdate? && e.call == call
  {
    if partials == [] {
    } else {
      CallUpdatesAreUpdates(call, partials[..|partials| - 1]);
    }
  }

  /** The progress callback handed to a tool. */
  method OnUpdate(call: ToolCall, partial: string, acceptingUpdates: bool, sink: AgentState)
    requires sink.Valid()
    modifies sink, sink.messages
    ensures sink.Valid() && sink.messages == old(sink.messages) && sink.base == old(sink.base)
    ensures sink.trace == old(sink.trace) + if acceptingUpdates then [ToolUpdate(call, partial)] else []
  {
    if acceptingUpdates {
      sink.Process(ToolUpdate(call, partial));
    }
  }

  /** Run a prepared call by itself. Progress callbacks are forwarded until the execution has settled. */
  method ExecutePreparedToolCall(call: ToolCall, s: CallScript, sink: AgentState) returns (executed: Executed)
    requires sink.Valid()
    modifies sink, sink.messages
    ensures sink.Valid() && sink.messages == old(sink.messages) && sink.base == old(sink.base)
    ensures sink.trace == old(sink.trace) + CallUpdates(call, s.updates)
    ensures executed == Execute(s)
  {
    hide ReduceAll;
    var acceptingUpdates := true;
    for k := 0 to |s.updates|
      invariant sink.Valid() && sink.messages == old(sink.messages) && sink.base == old(sink.base)
      invariant sink.trace == old(sink.trace) + CallUpdates(call, s.updates[..k])
    {
      OnUpdate(call, s.updates[k], acceptingUpdates, sink);
      assert s.updates[..k + 1][..k] == s.updates[..k];
      Associate(old(sink.trace), CallUpdates(call, s.updates[..k]), [ToolUpdate(call, s.updates[k])]);
    }
    assert s.updates[..|s.updates|] == s.updates;
    match s.execution {
      case Returns(output) =>
        acceptingUpdates := false;
        executed := Executed(output, false);
      case Throws(message) =>
        acceptingUpdates := false;
        executed := Executed(ErrorOutput(message), true);
    }
    for k := 0 to |s.lateUpdates|
      invariant sink.Valid() && sink.messages == old(sink.messages) && sink.base == old(sink.base)
      invariant sink.trace == old(sink.trace) + CallUpdates(call, s.updates)
    {
      OnUpdate(call, s.lateUpdates[k], acceptingUpdates, sink);
    }
  }
}
