/** The two queues of messages that callers add to while a run is active. */
module Queues {
  import opened Messages

  datatype Mode = All | OneAtATime

  datatype Queue = Queue(messages: seq<Message>, mode: Mode)

  /** What one drain hands out, and what it leaves. */
  function Drained(q: Queue): (messages: seq<Message>)
    ensures messages <= q.messages
    ensures messages == [] <==> q.messages == []
    ensures q.mode == OneAtATime ==> |messages| <= 1
    ensures q.mode == All ==> messages == q.messages
  {
    if q.mode == All || q.messages == [] then q.messages else q.messages[..1]
  }

  function Rest(q: Queue): (rest: Queue)
    ensures q.messages == Drained(q) + rest.messages && rest.mode == q.mode
  {
    q.(messages := q.messages[|Drained(q)|..])
  }

  class PendingMessageQueue {
    var messages: seq<Message>
    var mode: Mode

    function Value(): Queue
      reads this
    {
      Queue(messages, mode)
    }

    constructor (mode: Mode)
      ensures Value() == Queue([], mode)
    {
      this.messages, this.mode := [], mode;
    }

    method Enqueue(message: Message)
      modifies this`messages
      ensures messages == old(messages) + [message]
    {
      messages := messages + [message];
    }

    method HasItems() returns (has: bool)
      ensures has <==> messages != []
    {
      has := |messages| > 0;
    }

    method Drain() returns (drained: seq<Message>)
      modifies this`messages
      ensures drained == Drained(old(Value())) && Value() == Rest(old(Value()))
    {
      if mode == All {
        drained := messages;
        messages := [];
        return;
      }
      if |messages| == 0 {
        return [];
      }
      drained := [messages[0]];
      messages := messages[1..];
    }

    method Clear()
      modifies this`messages
      ensures messages == []
    {
      messages := [];
    }
  }

  // ----- What callers do to the queues while the loop is waiting -----

  datatype Op = Steer(message: Message) | FollowUp(message: Message) | SetSteering(mode: Mode) | SetFollowUp(mode: Mode)

  datatype Both = Both(steering: Queue, followUp: Queue)

  function Apply(b: Both, op: Op): Both {
    match op
    case Steer(m) => b.(steering := b.steering.(messages := b.steering.messages + [m]))
    case FollowUp(m) => b.(followUp := b.followUp.(messages := b.followUp.messages + [m]))
    case SetSteering(mode) => b.(steering := b.steering.(mode := mode))
    case SetFollowUp(mode) => b.(followUp := b.followUp.(mode := mode))
  }

  function ApplyAll(b: Both, ops: seq<Op>): Both {
    if ops == [] then b else Apply(ApplyAll(b, ops[..|ops| - 1]), ops[|ops| - 1])
  }

  function Steered(ops: seq<Op>): seq<Message> {
    if ops == [] then []
    else
      var last := ops[|ops| - 1];
      Steered(ops[..|ops| - 1]) + if last.Steer? then [last.message] else []
  }

  function FollowedUp(ops: seq<Op>): seq<Message> {
    if ops == [] then []
    else
      var last := ops[|ops| - 1];
      FollowedUp(ops[..|ops| - 1]) + if last.FollowUp? then [last.message] else []
  }

  /** Calls only ever add at the end of the queue they name. */
  lemma {:induction false} OpsAppend(b: Both, ops: seq<Op>)
    ensures ApplyAll(b, ops).steering.messages == b.steering.messages + Steered(ops)
    ensures ApplyAll(b, ops).followUp.messages == b.followUp.messages + FollowedUp(ops)
  {
    if ops == [] {
    } else {
      OpsAppend(b, ops[..|ops| - 1]);
    }
  }

  /** The mode a queue has been set to last. */
  function SteeringMode(mode: Mode, ops: seq<Op>): Mode {
    if ops == [] then mode
    else if ops[|ops| - 1].SetSteering? then ops[|ops| - 1].mode
    else SteeringMode(mode, ops[..|ops| - 1])
  }

  function FollowUpMode(mode: Mode, ops: seq<Op>): Mode {
    if ops == [] then mode
    else if ops[|ops| - 1].SetFollowUp? then ops[|ops| - 1].mode
    else FollowUpMode(mode, ops[..|ops| - 1])
  }

  lemma {:induction false} ModesAreTheLastSet(b: Both, ops: seq<Op>)
    ensures ApplyAll(b, ops).steering.mode == SteeringMode(b.steering.mode, ops)
    ensures ApplyAll(b, ops).followUp.mode == FollowUpMode(b.followUp.mode, ops)
  {
    if ops == [] {
    } else {
      ModesAreTheLastSet(b, ops[..|ops| - 1]);
    }
  }

  method PerformOps(ops: seq<Op>, steering: PendingMessageQueue, followUp: PendingMessageQueue)
    requires steering != followUp
    modifies steering, followUp
    ensures Both(steering.Value(), followUp.Value()) == ApplyAll(old(Both(steering.Value(), followUp.Value())), ops)
  {
    for k := 0 to |ops|
      invariant Both(steering.Value(), followUp.Value())
                == ApplyAll(old(Both(steering.Value(), followUp.Value())), ops[..k])
    {
      match ops[k] {
        case Steer(m) => steering.Enqueue(m);
        case FollowUp(m) => followUp.Enqueue(m);
        case SetSteering(mode) => steering.mode := mode;
        case SetFollowUp(mode) => followUp.mode := mode;
      }
      assert ops[..k + 1][..k] == ops[..k];
    }
    assert ops[..|ops|] == ops;
  }
}
