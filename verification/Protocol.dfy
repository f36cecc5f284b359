/** The values that cross the adapter boundary (`runtime/protocol/types.py`). */
module Protocol {

  /** `NoRole` is the zero role, which no working adapter produces. */
  datatype Role = NoRole | System | User | Assistant | Tool

  datatype Attachment = Attachment(name: string, mime: string, data: string)

  datatype ToolCall = ToolCall(id: string, name: string, input: string)

  /** An absent `tool_calls` and an empty one are the same value here. */
  datatype Message = Message(
    role: Role,
    content: string,
    reasoning: string,
    toolCallId: string,
    toolName: string,
    toolCalls: seq<ToolCall>,
    interrupted: bool,
    attachments: seq<Attachment>)

  datatype ToolSpec = ToolSpec(name: string, risky: bool)

  datatype ModelResponse = ModelResponse(content: string, reasoning: string, toolCalls: seq<ToolCall>)

  datatype StreamChunk = StreamChunk(contentDelta: string, reasoningDelta: string)

  datatype CommandClass = ZeroClass | ReadOnly | Write | Network | Destructive | Unknown

  /** Why a tool call needs a decision (`runtime/permission/types.py`). */
  datatype Request = Request(
    toolName: string,
    command: string,
    commandClass: CommandClass,
    cwd: string,
    touchedPaths: seq<string>,
    envVars: seq<string>,
    reason: string)

  /** The request that carries nothing. */
  const NoRequest := Request("", "", ZeroClass, "", [], [], "")

  function UserMessage(content: string, attachments: seq<Attachment>): Message {
    Message(User, content, "", "", "", [], false, attachments)
  }

  function AssistantMessage(content: string, reasoning: string, calls: seq<ToolCall>, interrupted: bool): Message {
    Message(Assistant, content, reasoning, "", "", calls, interrupted, [])
  }

  function ToolMessage(call: ToolCall, result: string): Message {
    Message(Tool, result, "", call.id, call.name, [], false, [])
  }

  function SystemMessage(content: string): Message {
    Message(System, content, "", "", "", [], false, [])
  }

  /** Only the `system` messages, in order: the rule that reset and replay share. */
  function SystemMessages(messages: seq<Message>): seq<Message> {
    if messages == [] then []
    else
      var rest := SystemMessages(messages[..|messages| - 1]);
      var last := messages[|messages| - 1];
      if last.role.System? then rest + [last] else rest
  }

  /** Everything but the `system` messages, in order. */
  function NonSystem(messages: seq<Message>): seq<Message> {
    if messages == [] then []
    else
      var rest := NonSystem(messages[..|messages| - 1]);
      var last := messages[|messages| - 1];
      if last.role.System? then rest else rest + [last]
  }

  lemma {:induction false} SystemConcat(a: seq<Message>, b: seq<Message>)
    ensures SystemMessages(a + b) == SystemMessages(a) + SystemMessages(b)
  {
    if b == [] {
      assert a + b == a;
    } else {
      SystemConcat(a, b[..|b| - 1]);
      assert (a + b)[..|a + b| - 1] == a + b[..|b| - 1];
    }
  }

  lemma {:induction false} NonSystemConcat(a: seq<Message>, b: seq<Message>)
    ensures NonSystem(a + b) == NonSystem(a) + NonSystem(b)
  {
    if b == [] {
      assert a + b == a;
    } else {
      NonSystemConcat(a, b[..|b| - 1]);
      assert (a + b)[..|a + b| - 1] == a + b[..|b| - 1];
    }
  }

  lemma FiltersConcat(a: seq<Message>, b: seq<Message>)
    ensures SystemMessages(a + b) == SystemMessages(a) + SystemMessages(b)
    ensures NonSystem(a + b) == NonSystem(a) + NonSystem(b)
  {
    SystemConcat(a, b);
    NonSystemConcat(a, b);
  }

  lemma {:induction false} FiltersIdempotent(messages: seq<Message>)
    ensures forall i :: 0 <= i < |SystemMessages(messages)| ==> SystemMessages(messages)[i].role.System?
    ensures forall i :: 0 <= i < |NonSystem(messages)| ==> !NonSystem(messages)[i].role.System?
  {
    if messages != [] {
      FiltersIdempotent(messages[..|messages| - 1]);
    }
  }

  lemma {:induction false} FilterOfUniform(messages: seq<Message>)
    ensures (forall m :: m in messages ==> m.role.System?)
            ==> SystemMessages(messages) == messages && NonSystem(messages) == []
    ensures (forall m :: m in messages ==> !m.role.System?)
            ==> SystemMessages(messages) == [] && NonSystem(messages) == messages
  {
    if messages != [] {
      var front := messages[..|messages| - 1];
      FilterOfUniform(front);
      assert messages == front + [messages[|messages| - 1]];
    }
  }
}
