/** The values that flow through a run: messages, tool calls and outcomes, the
    events a run emits, and the log that records events together with the other
    observable steps of the loop (provider requests, tool executions, queue polls). */
module Messages {

  /** JSON values are kept in serialised form: the loop only passes them along. */
  type Json = string

  datatype Option<+T> = None | Some(value: T) {
    function GetOr(default: T): T {
      if Some? then value else default
    }
  }

  /** How a callback that may throw came back. */
  datatype Attempt<+T> = Returned(value: T) | Threw(message: string)

  datatype StopReason = Stop | Length | ToolUse | Error | Aborted

  datatype ToolCall = ToolCall(id: string, name: string, arguments: Json)

  datatype Block = Text(text: string) | Thinking(thinking: string) | Call(call: ToolCall)

  datatype AssistantMessage =
    AssistantMessage(content: seq<Block>, stopReason: StopReason, errorMessage: Option<string>)
  {
    /** The reply ended a run before any of its tool calls could be processed. */
    predicate Failed() {
      stopReason.Error? || stopReason.Aborted?
    }

    function ToolCalls(): seq<ToolCall> {
      CallsIn(content)
    }
  }

  function CallsIn(content: seq<Block>): seq<ToolCall> {
    if content == [] then []
    else (if content[0].Call? then [content[0].call] else []) + CallsIn(content[1..])
  }

  /** The calls are exactly the call blocks, in order. */
  lemma {:induction false} CallsExact(a: seq<Block>, b: seq<Block>, block: Block)
    ensures CallsIn(a + b) == CallsIn(a) + CallsIn(b)
    ensures CallsIn([block]) == if block.Call? then [block.call] else []
    decreases |a|
  {
    assert [block][1..] == [];
    if a == [] {
      assert a + b == b;
    } else {
      assert (a + b)[1..] == a[1..] + b;
      CallsExact(a[1..], b, block);
    }
  }

  /** What a tool returns; `terminate` is a three-valued hint (absent, false, true). */
  datatype ToolOutcome = ToolOutcome(content: seq<string>, details: Json, terminate: Option<bool>)

  datatype Message =
    | User(text: string)
    | Assistant(reply: AssistantMessage)
    | ToolResult(toolCallId: string, toolName: string, content: seq<string>, details: Json, isError: bool)
    | Custom(kind: string, payload: Json)

  datatype AgentEvent =
    | AgentStart
    | AgentEnd(messages: seq<Message>)
    | TurnStart
    | TurnEnd(message: Message, toolResults: seq<Message>)
    | MessageStart(message: Message)
    | MessageUpdate(message: Message)
    | MessageEnd(message: Message)
    | ToolStart(toolCallId: string, toolName: string, args: Json)
    | ToolUpdate(toolCallId: string, toolName: string, args: Json, partialResult: ToolOutcome)
    | ToolEnd(toolCallId: string, toolName: string, result: ToolOutcome, isError: bool)

  datatype ThinkingLevel = Off | Minimal | Low | Medium | High | XHigh

  datatype QueueName = Steering | FollowUp

  /** One observable step of a run. */
  datatype Entry =
    | Emit(event: AgentEvent)
    | Request(transcript: seq<Message>, model: string, reasoning: Option<ThinkingLevel>)
    | Execute(toolCallId: string, args: Json)
    | Poll(queue: QueueName, batch: seq<Message>)

  type Log = seq<Entry>

  /** The bracket announcing one finished message. */
  function Bracket(m: Message): (log: Log) {
    [Emit(MessageStart(m)), Emit(MessageEnd(m))]
  }

  function Brackets(messages: seq<Message>): (log: Log) {
    if messages == [] then [] else Bracket(messages[0]) + Brackets(messages[1..])
  }

  /** The messages whose `message_end` appears in the log, in order. */
  function Ended(log: Log): (messages: seq<Message>) {
    if log == [] then []
    else (if log[0].Emit? && log[0].event.MessageEnd? then [log[0].event.message] else []) + Ended(log[1..])
  }

  /** The messages taken from one queue, in the order of the polls. */
  function DrainedFrom(queue: QueueName, log: Log): (messages: seq<Message>) {
    if log == [] then []
    else (if log[0].Poll? && log[0].queue == queue then log[0].batch else []) + DrainedFrom(queue, log[1..])
  }

  /** The messages taken from either queue, in the order of the polls. */
  function Drained(log: Log): (messages: seq<Message>) {
    if log == [] then []
    else (if log[0].Poll? then log[0].batch else []) + Drained(log[1..])
  }

  predicate EndsInAssistant(messages: seq<Message>) {
    messages != [] && messages[|messages| - 1].Assistant?
  }

  lemma {:induction false} Assoc<T>(a: seq<T>, b: seq<T>, c: seq<T>)
    ensures a + (b + c) == (a + b) + c
  {
    assert a + (b + c) == (a + b) + c;
  }

  lemma {:induction false} EndedConcat(a: Log, b: Log)
    ensures Ended(a + b) == Ended(a) + Ended(b)
  {
    if a == [] {
      assert a + b == b;
    } else {
      assert (a + b)[1..] == a[1..] + b;
      EndedConcat(a[1..], b);
    }
  }

  lemma {:induction false} EndedBrackets(messages: seq<Message>)
    ensures Ended(Brackets(messages)) == messages
  {
    if messages != [] {
      EndedBrackets(messages[1..]);
      EndedConcat(Bracket(messages[0]), Brackets(messages[1..]));
      assert Ended(Bracket(messages[0])) == [messages[0]] by {
        assert Bracket(messages[0])[1..] == [Emit(MessageEnd(messages[0]))];
      }
    }
  }
}
