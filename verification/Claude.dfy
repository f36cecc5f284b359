/**
 The Messages API translation (`llm/claude.py`): system messages are lifted out, the rest becomes
 content blocks, and adjacent messages of one role are merged. JSON and base64 decoding are inputs.
 */
module Claude {
  import opened Outcomes
  import opened Protocol

  datatype Content<+J> =
    | Text(text: string)
    | Media(mime: string, data: string)
    | ToolUse(id: string, name: string, input: J)
    | ToolResult(toolUseId: string, content: string)

  datatype Speaker = ByUser | ByAssistant

  datatype Param<+J> = Param(role: Speaker, content: seq<Content<J>>)

  /**
   `parse` is `json.loads` with `{}` for input that is not JSON; `decodeText` is the strict base64
   decoding of a text attachment, `None` when it raises.
   */
  datatype Decoders<!J> = Decoders(parse: string -> J, decodeText: string -> Option<string>)

  // ----- split_system_messages -----

  function JoinedSystem(messages: seq<Message>): string {
    if messages == [] then ""
    else
      var before := JoinedSystem(messages[..|messages| - 1]);
      var last := messages[|messages| - 1];
      if !last.role.System? then before
      else (if before != "" then before + "\n\n" else before) + last.content
  }

  method SplitSystemMessages(messages: seq<Message>) returns (system: string, conversation: seq<Message>)
    ensures system == JoinedSystem(messages) && conversation == NonSystem(messages)
  {
    system, conversation := "", [];
    for i := 0 to |messages|
      invariant system == JoinedSystem(messages[..i]) && conversation == NonSystem(messages[..i])
    {
      assert messages[..i + 1][..i] == messages[..i];
      if messages[i].role.System? {
        if system != "" {
          system := system + "\n\n";
        }
        system := system + messages[i].content;
      } else {
        conversation := conversation + [messages[i]];
      }
    }
    assert messages[..|messages|] == messages;
  }

  // ----- to_claude_messages, before merging -----

  function AttachmentBlocks<J>(d: Decoders<J>, a: Attachment): seq<Content<J>> {
    if "image/" <= a.mime || a.mime == "application/pdf" then [Media(a.mime, a.data)]
    else if "text/" <= a.mime then
      match d.decodeText(a.data)
      case None => []
      case Some(text) => [Text("Attachment " + a.name + ":\n" + text)]
    else [Text("Attached file: " + a.name + " (" + a.mime + ")")]
  }

  function AllAttachmentBlocks<J>(d: Decoders<J>, attachments: seq<Attachment>): seq<Content<J>> {
    if attachments == [] then []
    else AllAttachmentBlocks(d, attachments[..|attachments| - 1]) + AttachmentBlocks(d, attachments[|attachments| - 1])
  }

  function ToolUses<J>(d: Decoders<J>, calls: seq<ToolCall>): seq<Content<J>> {
    if calls == [] then []
    else
      var last := calls[|calls| - 1];
      ToolUses(d, calls[..|calls| - 1]) + [ToolUse(last.id, last.name, d.parse(last.input))]
  }

  /** What one message contributes: at most one param, and an empty assistant message none. */
  function Translate<J>(d: Decoders<J>, m: Message): seq<Param<J>> {
    match m.role
    case User => [Param(ByUser, [Text(m.content)] + AllAttachmentBlocks(d, m.attachments))]
    case Assistant =>
      var blocks := (if m.content != "" then [Text(m.content)] else []) + ToolUses(d, m.toolCalls);
      if blocks == [] then [] else [Param(ByAssistant, blocks)]
    case Tool => [Param(ByUser, [ToolResult(m.toolCallId, m.content)])]
    case _ => []
  }

  function TranslateAll<J>(d: Decoders<J>, messages: seq<Message>): seq<Param<J>> {
    if messages == [] then []
    else TranslateAll(d, messages[..|messages| - 1]) + Translate(d, messages[|messages| - 1])
  }

  // ----- merge_adjacent_messages -----

  function Push<J>(merged: seq<Param<J>>, p: Param<J>): seq<Param<J>> {
    var n := |merged|;
    if n > 0 && merged[n - 1].role == p.role
    then merged[..n - 1] + [Param(p.role, merged[n - 1].content + p.content)]
    else merged + [p]
  }

  function Merge<J>(params: seq<Param<J>>): seq<Param<J>> {
    if params == [] then []
    else Push(Merge(params[..|params| - 1]), params[|params| - 1])
  }

  /** The source's loop, with the param being grown held aside. */
  method MergeAdjacentMessages<J>(params: seq<Param<J>>) returns (merged: seq<Param<J>>)
    ensures merged == Merge(params)
  {
    if |params| == 0 {
      return params;
    }
    merged := [];
    var current := params[0];
    assert params[..1][..0] == [];
    for i := 1 to |params|
      invariant merged + [current] == Merge(params[..i])
    {
      assert params[..i + 1][..i] == params[..i];
      assert (merged + [current])[..|merged|] == merged;
      if current.role == params[i].role {
        current := Param(current.role, current.content + params[i].content);
      } else {
        merged := merged + [current];
        current := params[i];
      }
    }
    merged := merged + [current];
    assert params[..|params|] == params;
  }

  function ToClaude<J>(d: Decoders<J>, messages: seq<Message>): seq<Param<J>> {
    Merge(TranslateAll(d, messages))
  }

  method ToClaudeMessages<J>(d: Decoders<J>, messages: seq<Message>) returns (params: seq<Param<J>>)
    ensures params == ToClaude(d, messages)
  {
    var result := [];
    for i := 0 to |messages|
      invariant result == TranslateAll(d, messages[..i])
    {
      assert messages[..i + 1][..i] == messages[..i];
      result := result + Translate(d, messages[i]);
    }
    assert messages[..|messages|] == messages;
    params := MergeAdjacentMessages(result);
  }
}
