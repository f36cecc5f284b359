/**
 What the provider gets to read: every message of the conversation, word for word and in order, under
 the role it is sent with. Stated from the messages, whatever the translation and the merging do.
 */
module ClaudeContents {
  import opened Protocol
  import opened Claude
  import opened ClaudePairing

  // ----- What one message says -----

  /** An attachment as the model sees it. A text that does not decode is left out. */
  function Shown<J>(d: Decoders<J>, a: Attachment): seq<Content<J>> {
    if a.mime == "application/pdf" || "image/" <= a.mime then [Media(a.mime, a.data)]
    else if !("text/" <= a.mime) then [Text("Attached file: " + a.name + " (" + a.mime + ")")]
    else if d.decodeText(a.data).None? then []
    else [Text("Attachment " + a.name + ":\n" + d.decodeText(a.data).value)]
  }

  function AllShown<J>(d: Decoders<J>, attachments: seq<Attachment>): seq<Content<J>> {
    if attachments == [] then []
    else AllShown(d, attachments[..|attachments| - 1]) + Shown(d, attachments[|attachments| - 1])
  }

  /** The calls of a message as tool uses, one for each, in order. */
  function Used<J>(d: Decoders<J>, calls: seq<ToolCall>): seq<Content<J>> {
    seq(|calls|, i requires 0 <= i < |calls| => ToolUse(calls[i].id, calls[i].name, d.parse(calls[i].input)))
  }

  /** A user speaks with the attachments behind, the assistant with the calls behind, a tool answers one call. */
  function Said<J>(d: Decoders<J>, m: Message): seq<(Speaker, Content<J>)> {
    if m.role.User? then Tagged(ByUser, [Text(m.content)] + AllShown(d, m.attachments))
    else if m.role.Tool? then Tagged(ByUser, [ToolResult(m.toolCallId, m.content)])
    else if !m.role.Assistant? then []
    else if m.content == "" then Tagged(ByAssistant, Used(d, m.toolCalls))
    else Tagged(ByAssistant, [Text(m.content)] + Used(d, m.toolCalls))
  }

  function AllSaid<J>(d: Decoders<J>, messages: seq<Message>): seq<(Speaker, Content<J>)> {
    if messages == [] then [] else AllSaid(d, messages[..|messages| - 1]) + Said(d, messages[|messages| - 1])
  }

  lemma {:induction false} AttachmentsAreShown<J>(d: Decoders<J>, attachments: seq<Attachment>)
    ensures AllAttachmentBlocks(d, attachments) == AllShown(d, attachments)
  {
    if attachments != [] {
      AttachmentsAreShown(d, attachments[..|attachments| - 1]);
    }
  }

  lemma {:induction false} CallsAreUsed<J>(d: Decoders<J>, calls: seq<ToolCall>)
    ensures ToolUses(d, calls) == Used(d, calls)
  {
    if calls != [] {
      var front := calls[..|calls| - 1];
      CallsAreUsed(d, front);
      assert Used(d, calls) == Used(d, front) + [Used(d, calls)[|calls| - 1]];
    }
  }

  lemma SpokenOne<J>(p: Param<J>)
    ensures Spoken([p]) == Tagged(p.role, p.content)
  {
    assert [p][..0] == [];
  }

  lemma MessageIsSaid<J>(d: Decoders<J>, m: Message)
    ensures Spoken(Translate(d, m)) == Said(d, m)
  {
    AttachmentsAreShown(d, m.attachments);
    CallsAreUsed(d, m.toolCalls);
    assert [] + Used(d, m.toolCalls) == Used(d, m.toolCalls);
    if Translate(d, m) != [] {
      SpokenOne(Translate(d, m)[0]);
    }
  }

  lemma SpokenSnoc<J>(params: seq<Param<J>>, p: Param<J>)
    ensures Spoken(params + [p]) == Spoken(params) + Tagged(p.role, p.content)
  {
    assert (params + [p])[..|params|] == params;
  }

  lemma {:induction false} TranslationSays<J>(d: Decoders<J>, messages: seq<Message>)
    ensures Spoken(TranslateAll(d, messages)) == AllSaid(d, messages)
  {
    if messages != [] {
      var front, m := messages[..|messages| - 1], messages[|messages| - 1];
      TranslationSays(d, front);
      MessageIsSaid(d, m);
      if Translate(d, m) == [] {
        assert TranslateAll(d, front) + [] == TranslateAll(d, front) && AllSaid(d, front) + [] == AllSaid(d, front);
      } else {
        var p := Translate(d, m)[0];
        assert Translate(d, m) == [p];
        SpokenOne(p);
        SpokenSnoc(TranslateAll(d, front), p);
      }
    }
  }

  lemma {:induction false} SystemIsNotSaid<J>(d: Decoders<J>, messages: seq<Message>)
    ensures AllSaid(d, NonSystem(messages)) == AllSaid(d, messages)
  {
    if messages != [] {
      var front, m := messages[..|messages| - 1], messages[|messages| - 1];
      SystemIsNotSaid(d, front);
      if !m.role.System? {
        assert NonSystem(messages)[..|NonSystem(messages)| - 1] == NonSystem(front);
      }
    }
  }

  /** The request holds what the messages say: nothing is lost, changed, added or moved. */
  lemma {:induction false} RequestSaysEverything<J>(d: Decoders<J>, messages: seq<Message>)
    ensures Spoken(ToClaude(d, NonSystem(messages))) == AllSaid(d, messages)
  {
    MergePreservesAndAlternates(TranslateAll(d, NonSystem(messages)));
    TranslationSays(d, NonSystem(messages));
    SystemIsNotSaid(d, messages);
  }

  // ----- Answers, calls and texts, each on their own -----

  function Results<J>(spoken: seq<(Speaker, Content<J>)>): seq<(string, string)> {
    if spoken == [] then []
    else
      var last := spoken[|spoken| - 1];
      Results(spoken[..|spoken| - 1])
      + (if last.1.ToolResult? && last.0.ByUser? then [(last.1.toolUseId, last.1.content)] else [])
  }

  function Uses<J>(spoken: seq<(Speaker, Content<J>)>): seq<(string, string, J)> {
    if spoken == [] then []
    else
      var last := spoken[|spoken| - 1];
      Uses(spoken[..|spoken| - 1])
      + (if last.1.ToolUse? && last.0.ByAssistant? then [(last.1.id, last.1.name, last.1.input)] else [])
  }

  /** The texts and media, with who sends them. */
  function Plain<J>(spoken: seq<(Speaker, Content<J>)>): seq<(Speaker, Content<J>)> {
    if spoken == [] then []
    else
      var last := spoken[|spoken| - 1];
      Plain(spoken[..|spoken| - 1]) + (if last.1.Text? || last.1.Media? then [last] else [])
  }

  /** Every user content with its attachments behind it, and every assistant content that is not empty. */
  function Texts<J>(d: Decoders<J>, messages: seq<Message>): seq<(Speaker, Content<J>)> {
    if messages == [] then []
    else
      var m := messages[|messages| - 1];
      Texts(d, messages[..|messages| - 1])
      + (if m.role.User? then Tagged(ByUser, [Text(m.content)] + AllShown(d, m.attachments))
         else if m.role.Assistant? && m.content != "" then [(ByAssistant, Text(m.content))]
         else [])
  }

  /** The contents of the tool messages, with the calls they answer. */
  function Answers(messages: seq<Message>): seq<(string, string)> {
    if messages == [] then []
    else
      var m := messages[|messages| - 1];
      Answers(messages[..|messages| - 1]) + (if m.role.Tool? then [(m.toolCallId, m.content)] else [])
  }

  /** The calls with their parsed inputs. */
  function CallsOf<J>(d: Decoders<J>, calls: seq<ToolCall>): seq<(string, string, J)> {
    seq(|calls|, i requires 0 <= i < |calls| => (calls[i].id, calls[i].name, d.parse(calls[i].input)))
  }

  /** The calls of the assistant messages, with their parsed inputs. */
  function Calls<J>(d: Decoders<J>, messages: seq<Message>): seq<(string, string, J)> {
    if messages == [] then []
    else
      var m := messages[|messages| - 1];
      Calls(d, messages[..|messages| - 1])
      + (if m.role.Assistant? then CallsOf(d, m.toolCalls) else [])
  }

  lemma {:induction false} ResultsConcat<J>(a: seq<(Speaker, Content<J>)>, b: seq<(Speaker, Content<J>)>)
    ensures Results(a + b) == Results(a) + Results(b)
  {
    if b == [] {
      assert a + b == a;
    } else {
      ResultsConcat(a, b[..|b| - 1]);
      assert (a + b)[..|a + b| - 1] == a + b[..|b| - 1];
    }
  }

  lemma {:induction false} UsesConcat<J>(a: seq<(Speaker, Content<J>)>, b: seq<(Speaker, Content<J>)>)
    ensures Uses(a + b) == Uses(a) + Uses(b)
  {
    if b == [] {
      assert a + b == a;
    } else {
      UsesConcat(a, b[..|b| - 1]);
      assert (a + b)[..|a + b| - 1] == a + b[..|b| - 1];
    }
  }

  lemma {:induction false} PlainConcat<J>(a: seq<(Speaker, Content<J>)>, b: seq<(Speaker, Content<J>)>)
    ensures Plain(a + b) == Plain(a) + Plain(b)
  {
    if b == [] {
      assert a + b == a;
    } else {
      PlainConcat(a, b[..|b| - 1]);
      assert (a + b)[..|a + b| - 1] == a + b[..|b| - 1];
    }
  }

  lemma ProjectionsConcat<J>(a: seq<(Speaker, Content<J>)>, b: seq<(Speaker, Content<J>)>)
    ensures Results(a + b) == Results(a) + Results(b) && Uses(a + b) == Uses(a) + Uses(b)
    ensures Plain(a + b) == Plain(a) + Plain(b)
  {
    ResultsConcat(a, b);
    UsesConcat(a, b);
    PlainConcat(a, b);
  }

  lemma {:induction false} PlainProjects<J>(role: Speaker, blocks: seq<Content<J>>)
    requires PlainBlocks(blocks)
    ensures Results(Tagged(role, blocks)) == [] && Uses(Tagged(role, blocks)) == []
    ensures Plain(Tagged(role, blocks)) == Tagged(role, blocks)
  {
    if blocks != [] {
      var front := blocks[..|blocks| - 1];
      assert blocks[|blocks| - 1] in blocks;
      PlainProjects(role, front);
      assert Tagged(role, blocks)[..|blocks| - 1] == Tagged(role, front);
    }
  }

  lemma {:induction false} UsedProjects<J>(d: Decoders<J>, calls: seq<ToolCall>)
    ensures var spoken := Tagged(ByAssistant, Used(d, calls));
            && Results(spoken) == [] && Plain(spoken) == []
            && Uses(spoken) == CallsOf(d, calls)
  {
    if calls != [] {
      var front := calls[..|calls| - 1];
      UsedProjects(d, front);
      assert Tagged(ByAssistant, Used(d, calls))[..|calls| - 1] == Tagged(ByAssistant, Used(d, front));
      assert CallsOf(d, calls) == CallsOf(d, front) + [CallsOf(d, calls)[|calls| - 1]];
    }
  }

  lemma UserProjects<J>(d: Decoders<J>, m: Message)
    requires m.role.User?
    ensures Results(Said(d, m)) == [] && Uses(Said(d, m)) == [] && Plain(Said(d, m)) == Said(d, m)
  {
    var text: seq<Content<J>> := [Text(m.content)];
    AttachmentsArePlain(d, m.attachments);
    AttachmentsAreShown(d, m.attachments);
    PlainProjects(ByUser, text + AllShown(d, m.attachments));
  }

  lemma ToolProjects<J>(d: Decoders<J>, m: Message)
    requires m.role.Tool?
    ensures Results(Said(d, m)) == [(m.toolCallId, m.content)] && Uses(Said(d, m)) == [] && Plain(Said(d, m)) == []
  {
    assert Said(d, m)[..0] == [];
  }

  lemma TextThenCalls<J>(text: seq<(Speaker, Content<J>)>, used: seq<(Speaker, Content<J>)>)
    requires Results(text) == [] && Uses(text) == [] && Plain(text) == text
    requires Results(used) == [] && Plain(used) == []
    ensures Results(text + used) == [] && Uses(text + used) == Uses(used) && Plain(text + used) == text
  {
    ProjectionsConcat(text, used);
  }

  lemma AssistantSays<J>(d: Decoders<J>, m: Message, text: seq<Content<J>>)
    requires m.role.Assistant? && m.content != "" && text == [Text(m.content)]
    ensures Said(d, m) == Tagged(ByAssistant, text) + Tagged(ByAssistant, Used(d, m.toolCalls))
    ensures Tagged(ByAssistant, text) == [(ByAssistant, Text(m.content))] && PlainBlocks(text)
  {
  }

  lemma AssistantProjects<J>(d: Decoders<J>, m: Message)
    requires m.role.Assistant?
    ensures Results(Said(d, m)) == [] && Uses(Said(d, m)) == CallsOf(d, m.toolCalls)
    ensures Plain(Said(d, m)) == if m.content != "" then [(ByAssistant, Text(m.content))] else []
  {
    UsedProjects(d, m.toolCalls);
    if m.content != "" {
      var text: seq<Content<J>> := [Text(m.content)];
      AssistantSays(d, m, text);
      PlainProjects(ByAssistant, text);
      TextThenCalls(Tagged(ByAssistant, text), Tagged(ByAssistant, Used(d, m.toolCalls)));
    }
  }

  lemma {:induction false} SaidProjects<J>(d: Decoders<J>, m: Message)
    ensures Results(Said(d, m)) == if m.role.Tool? then [(m.toolCallId, m.content)] else []
    ensures Uses(Said(d, m)) == if m.role.Assistant? then CallsOf(d, m.toolCalls) else []
    ensures Plain(Said(d, m)) == if m.role.User? then Tagged(ByUser, [Text(m.content)] + AllShown(d, m.attachments))
                                 else if m.role.Assistant? && m.content != "" then [(ByAssistant, Text(m.content))]
                                 else []
  {
    match m.role {
      case User => UserProjects(d, m);
      case Tool => ToolProjects(d, m);
      case Assistant => AssistantProjects(d, m);
      case _ =>
    }
  }

  lemma {:induction false} AllSaidProjects<J>(d: Decoders<J>, messages: seq<Message>)
    ensures Results(AllSaid(d, messages)) == Answers(messages) && Uses(AllSaid(d, messages)) == Calls(d, messages)
    ensures Plain(AllSaid(d, messages)) == Texts(d, messages)
  {
    if messages != [] {
      var front, m := messages[..|messages| - 1], messages[|messages| - 1];
      AllSaidProjects(d, front);
      SaidProjects(d, m);
      ProjectionsConcat(AllSaid(d, front), Said(d, m));
    }
  }

  /**
   The tool results are the tool messages, the tool uses the calls, the texts what user and assistant
   wrote, each with all it carries, in order, under the right role.
   */
  lemma {:induction false} EverythingArrives<J>(d: Decoders<J>, messages: seq<Message>)
    ensures var spoken := Spoken(ToClaude(d, NonSystem(messages)));
            && Results(spoken) == Answers(messages) && Uses(spoken) == Calls(d, messages)
            && Plain(spoken) == Texts(d, messages)
  {
    RequestSaysEverything(d, messages);
    AllSaidProjects(d, messages);
  }

  // ----- The system text -----

  lemma {:induction false} SystemTextGrows(messages: seq<Message>, more: seq<Message>)
    ensures JoinedSystem(messages) <= JoinedSystem(messages + more)
  {
    if more == [] {
      assert messages + more == messages;
    } else {
      var front := more[..|more| - 1];
      SystemTextGrows(messages, front);
      assert (messages + more)[..|messages + more| - 1] == messages + front;
    }
  }

  /**
   Every system message is in the system text, word for word, behind what the ones in front of it say
   and an empty line; no other message adds anything.
   */
  lemma {:induction false} SystemTextHolds(before: seq<Message>, m: Message, behind: seq<Message>)
    ensures var text := JoinedSystem(before);
            var here := if !m.role.System? then text else if text == "" then m.content else text + "\n\n" + m.content;
            JoinedSystem(before + [m]) == here && here <= JoinedSystem(before + [m] + behind)
  {
    assert (before + [m])[..|before|] == before;
    SystemTextGrows(before + [m], behind);
  }
}
