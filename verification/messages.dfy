/**
 Messages, tool calls and the mutable message list of the agent runtime.

 Message contents, argument objects and result details are opaque strings; timestamps are left out.
 */
module Messages {

  datatype Option<+T> = None | Some(value: T)

  datatype StopReason = Stop | Length | ToolUse | Error | Aborted

  datatype ToolCall = ToolCall(id: string, name: string, arguments: string)

  datatype Block = Text(text: string) | Thinking(thinking: string) | Call(call: ToolCall)

  datatype AssistantMessage =
    AssistantMessage(content: seq<Block>, stopReason: StopReason, errorMessage: Option<string>)
  {
    predicate Failed() {
      stopReason == Error || stopReason == Aborted
    }

    function Calls(): seq<ToolCall> {
      CallsIn(content)
    }
  }

  datatype ToolResultMessage =
    ToolResultMessage(toolCallId: string, toolName: string, content: string, details: string, isError: bool)

  /** Anything that can appear in a transcript; Custom stands for the messages an application adds. */
  datatype Message =
    | User(text: string)
    | Assistant(message: AssistantMessage)
    | ToolResult(result: ToolResultMessage)
    | Custom(payload: string)

  function CallsIn(content: seq<Block>): seq<ToolCall> {
    if content == [] then []
    else (if content[0].Call? then [content[0].call] else []) + CallsIn(content[1..])
  }

  /** The calls of a message are those of its call blocks, in order: every further block adds its own call or none. */
  lemma {:induction false} CallsGoOn(content: seq<Block>, block: Block)
    ensures CallsIn([]) == []
    ensures CallsIn(content + [block]) == CallsIn(content) + if block.Call? then [block.call] else []
  {
    if content == [] {
      assert [block][1..] == [] && content + [block] == [block];
    } else {
      CallsGoOn(content[1..], block);
      assert (content + [block])[1..] == content[1..] + [block];
    }
  }

  function AsMessages(results: seq<ToolResultMessage>): (messages: seq<Message>)
    ensures |messages| == |results|
    ensures forall i :: 0 <= i < |results| ==> messages[i] == ToolResult(results[i])
  {
    seq(|results|, i requires 0 <= i < |results| => ToolResult(results[i]))
  }

  /** Why a call that would start a run is refused. */
  datatype Refusal = Busy | NoMessages | LastIsAssistant

  /** An array of messages: shared by reference, pushed to, and overwritten at its last position. */
  class MessageList {
    var items: seq<Message>

    constructor (items: seq<Message>)
      ensures this.items == items
    {
      this.items := items;
    }

    method Push(message: Message)
      modifies this
      ensures items == old(items) + [message]
    {
      items := items + [message];
    }

    method SetLast(message: Message)
      requires |items| > 0
      modifies this
      ensures items == old(items)[|old(items)| - 1 := message]
    {
      items := items[|items| - 1 := message];
    }
  }
}
