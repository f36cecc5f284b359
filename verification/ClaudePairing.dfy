/** What the provider requires of a request, and why a complete transcript meets it. */
module ClaudePairing {
  import opened Protocol
  import opened Transcript
  import opened TalkedOver
  import opened Claude

  predicate Alternating<J>(params: seq<Param<J>>) {
    forall i :: 0 < i < |params| ==> params[i - 1].role != params[i].role
  }

  function UseIds<J>(blocks: seq<Content<J>>): seq<string> {
    if blocks == [] then []
    else
      var last := blocks[|blocks| - 1];
      UseIds(blocks[..|blocks| - 1]) + (if last.ToolUse? then [last.id] else [])
  }

  function ResultIds<J>(blocks: seq<Content<J>>): seq<string> {
    if blocks == [] then []
    else
      var last := blocks[|blocks| - 1];
      ResultIds(blocks[..|blocks| - 1]) + (if last.ToolResult? then [last.toolUseId] else [])
  }

  /** No result behind any other kind of block: the results are the start of the message. */
  predicate ResultsLead<J>(blocks: seq<Content<J>>) {
    forall i, j :: 0 <= i < j < |blocks| && blocks[j].ToolResult? ==> blocks[i].ToolResult?
  }

  function UsesOf<J>(p: Param<J>): seq<string> {
    UseIds(p.content)
  }

  /**
   How a message answers the uses `asked` by the one in front of it: its results are exactly those,
   in order, and they lead; only assistant messages use, only user messages bring results.
   */
  predicate Follows<J>(asked: seq<string>, p: Param<J>) {
    && ResultIds(p.content) == asked
    && ResultsLead(p.content)
    && (p.role.ByUser? ==> UsesOf(p) == [])
    && (p.role.ByAssistant? ==> ResultIds(p.content) == [])
  }

  /** What the messages in front of position `i` wait for. */
  function AskedBefore<J>(params: seq<Param<J>>, i: nat): seq<string>
    requires i <= |params|
  {
    if i == 0 then [] else UsesOf(params[i - 1])
  }

  predicate PairedAt<J>(params: seq<Param<J>>, i: nat)
    requires i < |params|
  {
    Follows(AskedBefore(params, i), params[i])
  }

  /** A paired request: every message answers the one in front of it, and the last asks for nothing. */
  predicate Paired<J>(params: seq<Param<J>>) {
    (forall i :: 0 <= i < |params| ==> PairedAt(params, i)) && Asked(params) == []
  }

  function Asked<J>(params: seq<Param<J>>): seq<string> {
    AskedBefore(params, |params|)
  }

  /** The same, one message at a time. */
  predicate Chain<J>(params: seq<Param<J>>) {
    params == [] ||
    (Chain(params[..|params| - 1]) && Follows(Asked(params[..|params| - 1]), params[|params| - 1]))
  }

  lemma AskedBeforeFront<J>(params: seq<Param<J>>, n: nat, i: nat)
    requires i <= n <= |params|
    ensures AskedBefore(params[..n], i) == AskedBefore(params, i)
  {
  }

  lemma {:induction false} ChainPairs<J>(params: seq<Param<J>>, i: nat)
    requires Chain(params) && i < |params|
    ensures PairedAt(params, i)
  {
    var n := |params| - 1;
    AskedBeforeFront(params, n, i);
    if i < n {
      ChainPairs(params[..n], i);
    }
  }

  // ----- Merging loses nothing and alternates -----

  /** Every block with the role it is sent under, in order. */
  function Spoken<J>(params: seq<Param<J>>): seq<(Speaker, Content<J>)> {
    if params == [] then []
    else Spoken(params[..|params| - 1]) + Tagged(params[|params| - 1].role, params[|params| - 1].content)
  }

  function Tagged<J>(role: Speaker, blocks: seq<Content<J>>): seq<(Speaker, Content<J>)> {
    seq(|blocks|, i requires 0 <= i < |blocks| => (role, blocks[i]))
  }

  lemma SpokenPush<J>(merged: seq<Param<J>>, p: Param<J>)
    ensures Spoken(Push(merged, p)) == Spoken(merged) + Tagged(p.role, p.content)
  {
    var n := |merged|;
    if n > 0 && merged[n - 1].role == p.role {
      var joined := Param(p.role, merged[n - 1].content + p.content);
      assert (merged[..n - 1] + [joined])[..n - 1] == merged[..n - 1];
      assert Tagged(p.role, joined.content) == Tagged(p.role, merged[n - 1].content) + Tagged(p.role, p.content);
    } else {
      assert (merged + [p])[..n] == merged;
    }
  }

  /** Merging changes no block, no role and no order, and two neighbours never share a role. */
  lemma {:induction false} MergePreservesAndAlternates<J>(params: seq<Param<J>>)
    ensures Spoken(Merge(params)) == Spoken(params)
    ensures Alternating(Merge(params))
  {
    if params != [] {
      MergePreservesAndAlternates(params[..|params| - 1]);
      SpokenPush(Merge(params[..|params| - 1]), params[|params| - 1]);
    }
  }

  lemma {:induction false} MergeConcatOne<J>(params: seq<Param<J>>, p: Param<J>)
    ensures Merge(params + [p]) == Push(Merge(params), p)
  {
    assert (params + [p])[..|params|] == params;
  }

  // ----- Identifiers of concatenated blocks -----

  lemma {:induction false} IdsConcat<J>(a: seq<Content<J>>, b: seq<Content<J>>)
    ensures UseIds(a + b) == UseIds(a) + UseIds(b)
    ensures ResultIds(a + b) == ResultIds(a) + ResultIds(b)
  {
    if b == [] {
      assert a + b == a;
    } else {
      IdsConcat(a, b[..|b| - 1]);
      assert (a + b)[..|a + b| - 1] == a + b[..|b| - 1];
    }
  }

  ghost predicate PlainBlocks<J>(blocks: seq<Content<J>>) {
    forall b :: b in blocks ==> !b.ToolUse? && !b.ToolResult?
  }

  lemma {:induction false} PlainHasNoIds<J>(blocks: seq<Content<J>>)
    requires PlainBlocks(blocks)
    ensures UseIds(blocks) == [] && ResultIds(blocks) == []
  {
    if blocks != [] {
      var last := blocks[|blocks| - 1];
      assert last in blocks;
      PlainHasNoIds(blocks[..|blocks| - 1]);
    }
  }

  lemma {:induction false} AttachmentsArePlain<J>(d: Decoders<J>, attachments: seq<Attachment>)
    ensures PlainBlocks(AllAttachmentBlocks(d, attachments))
  {
    if attachments != [] {
      AttachmentsArePlain(d, attachments[..|attachments| - 1]);
    }
  }

  function Ids(calls: seq<ToolCall>): seq<string> {
    seq(|calls|, i requires 0 <= i < |calls| => calls[i].id)
  }

  lemma {:induction false} ToolUsesIds<J>(d: Decoders<J>, calls: seq<ToolCall>)
    ensures UseIds(ToolUses(d, calls)) == Ids(calls) && ResultIds(ToolUses(d, calls)) == []
    ensures forall b :: b in ToolUses(d, calls) ==> b.ToolUse?
    ensures |ToolUses(d, calls)| == |calls|
  {
    if calls != [] {
      var front := calls[..|calls| - 1];
      ToolUsesIds(d, front);
      var use := ToolUse(calls[|calls| - 1].id, calls[|calls| - 1].name, d.parse(calls[|calls| - 1].input));
      assert ToolUses(d, calls)[..|calls| - 1] == ToolUses(d, front);
      assert Ids(calls) == Ids(front) + [use.id];
    }
  }

  ghost predicate AllResults<J>(blocks: seq<Content<J>>) {
    forall b :: b in blocks ==> b.ToolResult?
  }

  ghost predicate NoResults<J>(blocks: seq<Content<J>>) {
    forall b :: b in blocks ==> !b.ToolResult?
  }

  lemma LeadConcat<J>(a: seq<Content<J>>, b: seq<Content<J>>)
    requires ResultsLead(a) && NoResults(b)
    ensures ResultsLead(a + b)
  {
    forall i, j | 0 <= i < j < |a + b| && (a + b)[j].ToolResult?
      ensures (a + b)[i].ToolResult?
    {
    }
  }

  lemma AllResultsLead<J>(blocks: seq<Content<J>>)
    requires AllResults(blocks)
    ensures ResultsLead(blocks)
  {
    forall i | 0 <= i < |blocks|
      ensures blocks[i].ToolResult?
    {
      assert blocks[i] in blocks;
    }
  }

  // ----- What holds after each prefix of the transcript -----

  /** The newest assistant message has asked and nothing has been answered yet. */
  predicate JustAsked<J>(params: seq<Param<J>>, calls: seq<string>) {
    && params != [] && params[|params| - 1].role.ByAssistant?
    && Asked(params) == calls
    && Chain(params)
  }

  /** Some of the newest calls are answered, and nothing else was said since. */
  ghost predicate HalfAnswered<J>(params: seq<Param<J>>, answered: seq<string>, calls: seq<string>) {
    && params != []
    && var n := |params| - 1;
       && params[n].role.ByUser? && n > 0 && params[n - 1].role.ByAssistant?
       && Chain(params[..n]) && Asked(params[..n]) == calls
       && ResultIds(params[n].content) == answered && UsesOf(params[n]) == []
       && AllResults(params[n].content)
  }

  ghost predicate Matches<J>(params: seq<Param<J>>, p: Progress) {
    && p.InBlock? && p.answered <= |p.calls|
    && if Closed(p) then Chain(params) && Asked(params) == []
       else Answering(params, Ids(p.calls), p.answered)
  }

  /** The param that a push leaves at the end. */
  function Joined<J>(params: seq<Param<J>>, p: Param<J>): Param<J> {
    if params != [] && params[|params| - 1].role == p.role
    then Param(p.role, params[|params| - 1].content + p.content) else p
  }

  function Kept<J>(params: seq<Param<J>>, p: Param<J>): seq<Param<J>> {
    if params != [] && params[|params| - 1].role == p.role then params[..|params| - 1] else params
  }

  lemma PushShape<J>(params: seq<Param<J>>, p: Param<J>)
    ensures var pushed := Push(params, p);
            && |pushed| == |Kept(params, p)| + 1 && pushed[|pushed| - 1] == Joined(params, p)
            && pushed[..|pushed| - 1] == Kept(params, p)
  {
  }

  lemma PushPlain<J>(params: seq<Param<J>>, p: Param<J>)
    requires Chain(params) && Asked(params) == [] && PlainBlocks(p.content)
    ensures Chain(Push(params, p)) && Asked(Push(params, p)) == []
  {
    PushShape(params, p);
    PlainHasNoIds(p.content);
    assert NoResults(p.content);
    if params != [] {
      IdsConcat(params[|params| - 1].content, p.content);
      LeadConcat(params[|params| - 1].content, p.content);
    }
    assert [] + p.content == p.content;
    LeadConcat([], p.content);
  }

  lemma {:induction false} PushAsk<J>(params: seq<Param<J>>, p: Param<J>, calls: seq<string>)
    requires Chain(params) && Asked(params) == [] && p.role.ByAssistant?
    requires UsesOf(p) == calls && ResultIds(p.content) == [] && NoResults(p.content)
    ensures JustAsked(Push(params, p), calls)
  {
    PushShape(params, p);
    if params != [] {
      IdsConcat(params[|params| - 1].content, p.content);
      LeadConcat(params[|params| - 1].content, p.content);
    }
    assert [] + calls == calls;
    assert [] + p.content == p.content;
    LeadConcat([], p.content);
  }

  lemma OneResult<J>(answer: Content<J>)
    requires answer.ToolResult?
    ensures ResultIds([answer]) == [answer.toolUseId] && UseIds([answer]) == [] && AllResults([answer])
  {
    assert [answer][..0] == [];
    assert ResultIds([answer][..0]) == [] && UseIds([answer][..0]) == [];
  }

  lemma FirstAnswer<J>(params: seq<Param<J>>, calls: seq<string>, answer: Content<J>)
    requires JustAsked(params, calls) && answer.ToolResult?
    ensures HalfAnswered(Push(params, Param(ByUser, [answer])), [answer.toolUseId], calls)
  {
    PushShape(params, Param(ByUser, [answer]));
    OneResult(answer);
  }

  lemma NextAnswer<J>(params: seq<Param<J>>, answered: seq<string>, calls: seq<string>, answer: Content<J>)
    requires HalfAnswered(params, answered, calls) && answer.ToolResult?
    ensures HalfAnswered(Push(params, Param(ByUser, [answer])), answered + [answer.toolUseId], calls)
  {
    PushShape(params, Param(ByUser, [answer]));
    OneResult(answer);
    IdsConcat(params[|params| - 1].content, [answer]);
  }

  lemma FullyAnswered<J>(params: seq<Param<J>>, calls: seq<string>)
    requires HalfAnswered(params, calls, calls)
    ensures Chain(params) && Asked(params) == []
  {
    AllResultsLead(params[|params| - 1].content);
  }

  /** Before the first answer the calls stand open; after it they are half answered. */
  ghost predicate Answering<J>(params: seq<Param<J>>, ids: seq<string>, k: nat)
    requires k <= |ids|
  {
    if k == 0 then JustAsked(params, ids) else HalfAnswered(params, ids[..k], ids)
  }

  lemma AnswerAdvances<J>(params: seq<Param<J>>, ids: seq<string>, k: nat, answer: Content<J>)
    requires k < |ids| && Answering(params, ids, k)
    requires answer.ToolResult? && answer.toolUseId == ids[k]
    ensures HalfAnswered(Push(params, Param(ByUser, [answer])), ids[..k + 1], ids)
  {
    assert ids[..k + 1] == ids[..k] + [ids[k]];
    if k == 0 {
      FirstAnswer(params, ids, answer);
    } else {
      NextAnswer(params, ids[..k], ids, answer);
    }
  }

  lemma AnswerMatches<J>(params: seq<Param<J>>, p: Progress, answer: Content<J>)
    requires Matches(params, p) && !Closed(p) && answer.ToolResult? && answer.toolUseId == p.calls[p.answered].id
    ensures Matches(Push(params, Param(ByUser, [answer])), InBlock(p.calls, p.answered + 1))
  {
    var pushed, ids, k := Push(params, Param(ByUser, [answer])), Ids(p.calls), p.answered + 1;
    AnswerAdvances(params, ids, p.answered, answer);
    if k == |ids| {
      assert ids[..k] == ids;
      FullyAnswered(pushed, ids);
    }
  }

  ghost predicate Speaks<J>(p: Param<J>, calls: seq<ToolCall>) {
    && p.role.ByAssistant? && UsesOf(p) == Ids(calls) && ResultIds(p.content) == []
    && NoResults(p.content) && (calls == [] ==> PlainBlocks(p.content))
  }

  lemma TextThenUses<J>(d: Decoders<J>, content: string, calls: seq<ToolCall>)
    ensures Speaks(Param(ByAssistant, (if content != "" then [Text(content)] else []) + ToolUses(d, calls)), calls)
  {
    var text: seq<Content<J>> := if content != "" then [Text(content)] else [];
    var uses := ToolUses(d, calls);
    ToolUsesIds(d, calls);
    PlainHasNoIds(text);
    assert UseIds(text + uses) == Ids(calls) && ResultIds(text + uses) == [] by {
      IdsConcat(text, uses);
    }
  }

  lemma TranslateAssistant<J>(d: Decoders<J>, m: Message)
    requires m.role.Assistant?
    ensures |Translate(d, m)| <= 1
    ensures Translate(d, m) == [] ==> m.toolCalls == []
    ensures Translate(d, m) != [] ==> Speaks(Translate(d, m)[0], m.toolCalls)
  {
    TextThenUses(d, m.content, m.toolCalls);
    ToolUsesIds(d, m.toolCalls);
  }

  lemma {:induction false} StepMatches<J>(d: Decoders<J>, params: seq<Param<J>>, p: Progress, m: Message)
    requires Matches(params, p) && Advance(p, m).InBlock?
    ensures Matches(Grown(d, params, m), Advance(p, m))
  {
    match m.role {
      case Tool => AnswerMatches(params, p, ToolResult(m.toolCallId, m.content));
      case User =>
        AttachmentsArePlain(d, m.attachments);
        assert PlainBlocks(Translate(d, m)[0].content);
        PushPlain(params, Translate(d, m)[0]);
      case Assistant =>
        TranslateAssistant(d, m);
        if Translate(d, m) != [] {
          if m.toolCalls == [] {
            PushPlain(params, Translate(d, m)[0]);
          } else {
            PushAsk(params, Translate(d, m)[0], Ids(m.toolCalls));
          }
        }
      case _ =>
    }
  }

  function Grown<J>(d: Decoders<J>, params: seq<Param<J>>, m: Message): seq<Param<J>> {
    if Translate(d, m) == [] then params else Push(params, Translate(d, m)[0])
  }

  lemma ToClaudeAppend<J>(d: Decoders<J>, front: seq<Message>, m: Message)
    ensures ToClaude(d, front + [m]) == Grown(d, ToClaude(d, front), m)
  {
    assert (front + [m])[..|front|] == front;
    var t := Translate(d, m);
    if t == [] {
      assert TranslateAll(d, front) + t == TranslateAll(d, front);
    } else {
      assert t == [t[0]];
      MergeConcatOne(TranslateAll(d, front), t[0]);
    }
  }

  lemma {:induction false} PrefixMatches<J>(d: Decoders<J>, messages: seq<Message>)
    requires Scan(messages).InBlock?
    ensures Matches(ToClaude(d, messages), Scan(messages))
  {
    if messages != [] {
      var front, m := messages[..|messages| - 1], messages[|messages| - 1];
      assert messages == front + [m];
      ScanAppend(front, m);
      PrefixMatches(d, front);
      StepMatches(d, ToClaude(d, front), Scan(front), m);
      ToClaudeAppend(d, front, m);
    }
  }

  /**
   Translation preserves pairing: a complete transcript becomes a request whose roles strictly
   alternate, whose blocks are those of the messages in order, and in which the results of every
   message are exactly the uses of the message in front of it, in order, ahead of anything else.
   */
  lemma {:induction false} CompleteTranscriptTranslates<J>(d: Decoders<J>, messages: seq<Message>)
    requires Complete(messages)
    ensures var params := ToClaude(d, NonSystem(messages));
            && Alternating(params) && Paired(params)
            && Spoken(params) == Spoken(TranslateAll(d, NonSystem(messages)))
  {
    CompleteIgnoresSystem(messages);
    PrefixMatches(d, NonSystem(messages));
    MergePreservesAndAlternates(TranslateAll(d, NonSystem(messages)));
    forall i | 0 <= i < |ToClaude(d, NonSystem(messages))|
      ensures PairedAt(ToClaude(d, NonSystem(messages)), i)
    {
      ChainPairs(ToClaude(d, NonSystem(messages)), i);
    }
  }

  lemma OpenIsUnpaired<J>(params: seq<Param<J>>, ids: seq<string>, k: nat)
    requires k < |ids| && Answering(params, ids, k)
    ensures !Paired(params)
  {
    if k > 0 {
      var n := |params| - 1;
      AskedBeforeFront(params, n, n);
      assert |ids[..k]| < |ids|;
      assert !PairedAt(params, n);
    }
  }

  /** Where no answer is out of place, translation pairs a transcript exactly if it is complete. */
  lemma {:induction false} PairedExactlyWhenComplete<J>(d: Decoders<J>, messages: seq<Message>)
    requires Scan(messages).InBlock?
    ensures Paired(ToClaude(d, NonSystem(messages))) <==> Complete(messages)
  {
    if Complete(messages) {
      CompleteTranscriptTranslates(d, messages);
    } else {
      ScanIgnoresSystem(NoBlock, messages);
      PrefixMatches(d, NonSystem(messages));
      var p := Scan(messages);
      OpenIsUnpaired(ToClaude(d, NonSystem(messages)), Ids(p.calls), p.answered);
    }
  }

  // ----- A block that was talked over -----

  /** Text among the answers: whatever is merged into this message later, its results no longer fit. */
  ghost predicate Ruined<J>(asked: seq<string>, p: Param<J>) {
    && p.role.ByUser? && (exists b :: b in p.content && !b.ToolResult?)
    && (ResultIds(p.content) != asked || !ResultsLead(p.content))
  }

  ghost predicate RuinedAt<J>(params: seq<Param<J>>, i: nat) {
    i < |params| && Ruined(AskedBefore(params, i), params[i])
  }

  lemma {:induction false} NoResultsNoIds<J>(blocks: seq<Content<J>>)
    requires NoResults(blocks)
    ensures ResultIds(blocks) == []
  {
    if blocks != [] {
      var last := blocks[|blocks| - 1];
      assert last in blocks;
      NoResultsNoIds(blocks[..|blocks| - 1]);
    }
  }

  lemma LeadFront<J>(a: seq<Content<J>>, b: seq<Content<J>>)
    requires ResultsLead(a + b)
    ensures ResultsLead(a)
    ensures (exists x :: x in a && !x.ToolResult?) ==> NoResults(b)
  {
    assert forall i :: 0 <= i < |a| ==> (a + b)[i] == a[i];
    assert forall j :: 0 <= j < |b| ==> (a + b)[|a| + j] == b[j];
  }

  /** More content does not mend it: a result would come behind the text. */
  lemma RuinedStays<J>(asked: seq<string>, p: Param<J>, more: seq<Content<J>>)
    requires Ruined(asked, p)
    ensures Ruined(asked, Param(p.role, p.content + more))
  {
    var b :| b in p.content && !b.ToolResult?;
    assert b in p.content + more;
    if ResultsLead(p.content + more) {
      LeadFront(p.content, more);
      IdsConcat(p.content, more);
      NoResultsNoIds(more);
    }
  }

  lemma RuinBelow<J>(params: seq<Param<J>>, pushed: seq<Param<J>>, n: nat, i: nat)
    requires RuinedAt(params, i) && i < n <= |params| && n <= |pushed| && params[..n] == pushed[..n]
    ensures RuinedAt(pushed, i)
  {
    AskedBeforeFront(params, n, i);
    AskedBeforeFront(pushed, n, i);
    assert params[..n][i] == params[i] && pushed[..n][i] == pushed[i];
  }

  lemma RuinGrows<J>(params: seq<Param<J>>, p: Param<J>)
    requires params != [] && RuinedAt(params, |params| - 1) && params[|params| - 1].role == p.role
    ensures RuinedAt(Push(params, p), |params| - 1)
  {
    var n := |params| - 1;
    AskedBeforeFront(params, n, n);
    AskedBeforeFront(Push(params, p), n, n);
    assert Push(params, p)[..n] == params[..n];
    RuinedStays(AskedBefore(params, n), params[n], p.content);
  }

  lemma {:induction false} PushKeepsRuin<J>(params: seq<Param<J>>, p: Param<J>, i: nat)
    requires RuinedAt(params, i)
    ensures RuinedAt(Push(params, p), i)
  {
    PushShape(params, p);
    var kept := Kept(params, p);
    if i < |kept| {
      RuinBelow(params, Push(params, p), |kept|, i);
    } else {
      RuinGrows(params, p);
    }
  }

  lemma RuinedIsUnpaired<J>(params: seq<Param<J>>, i: nat)
    requires RuinedAt(params, i)
    ensures !Paired(params)
  {
    assert !PairedAt(params, i);
  }

  /** A user's text on top of an open block. */
  lemma {:induction false} TextRuins<J>(params: seq<Param<J>>, ids: seq<string>, k: nat, p: Param<J>) returns (i: nat)
    requires k < |ids| && Answering(params, ids, k)
    requires p.role.ByUser? && p.content != [] && PlainBlocks(p.content)
    ensures RuinedAt(Push(params, p), i)
  {
    PushShape(params, p);
    PlainHasNoIds(p.content);
    var pushed := Push(params, p);
    i := |pushed| - 1;
    AskedBeforeFront(pushed, i, i);
    assert p.content[0] in p.content && !p.content[0].ToolResult?;
    if k == 0 {
      assert pushed[i] == p;
    } else {
      var before := params[|params| - 1].content;
      IdsConcat(before, p.content);
      AskedBeforeFront(params, i, i);
      assert (before + p.content)[|before|] == p.content[0];
      assert |ids[..k]| < |ids| && ids[..k] + [] == ids[..k];
    }
  }

  lemma {:induction false} TalkedOverRuins<J>(d: Decoders<J>, messages: seq<Message>) returns (i: nat)
    requires IsTalkedOver(messages)
    ensures RuinedAt(ToClaude(d, messages), i)
  {
    var front, m := messages[..|messages| - 1], messages[|messages| - 1];
    assert messages == front + [m];
    ToClaudeAppend(d, front, m);
    if IsTalkedOver(front) {
      i := TalkedOverRuins(d, front);
      if Translate(d, m) != [] {
        PushKeepsRuin(ToClaude(d, front), Translate(d, m)[0], i);
      }
    } else {
      i := FirstTextRuins(d, front, m);
    }
  }

  lemma {:induction false} FirstTextRuins<J>(d: Decoders<J>, front: seq<Message>, m: Message) returns (i: nat)
    requires !IsTalkedOver(front) && m.role.User? && Open(Scan(Latest(front)))
    ensures RuinedAt(Push(ToClaude(d, front), Translate(d, m)[0]), i)
  {
    LatestOfUntouched(front);
    PrefixMatches(d, front);
    AttachmentsArePlain(d, m.attachments);
    i := TextRuins(ToClaude(d, front), Ids(Scan(front).calls), Scan(front).answered, Translate(d, m)[0]);
  }

  /**
   Pairing decided for every transcript in which nothing is wrong but blocks that were talked over:
   the request is paired if and only if every call is answered. A talked-over block never pairs again.
   */
  lemma {:induction false} OrderlyPairsExactly<J>(d: Decoders<J>, messages: seq<Message>)
    requires Orderly(messages)
    ensures Paired(ToClaude(d, NonSystem(messages))) <==> Complete(messages)
    ensures IsTalkedOver(messages) ==> !Paired(ToClaude(d, NonSystem(messages)))
    ensures Alternating(ToClaude(d, NonSystem(messages)))
  {
    CompleteExactly(messages);
    MergePreservesAndAlternates(TranslateAll(d, NonSystem(messages)));
    if IsTalkedOver(messages) {
      LatestIgnoresSystem(messages);
      var i := TalkedOverRuins(d, NonSystem(messages));
      RuinedIsUnpaired(ToClaude(d, NonSystem(messages)), i);
    } else {
      PairedExactlyWhenComplete(d, messages);
    }
  }

  lemma AnswerTooLate(ask: Message, empty: Message, answer: Message)
    requires ask.role.Assistant? && |ask.toolCalls| == 1 && empty.role.Assistant? && empty.toolCalls == []
    requires answer.role.Tool? && answer.toolCallId == ask.toolCalls[0].id
    ensures Scan([ask] + [empty] + [answer]).Broken? && Complete([ask] + [answer])
  {
    ScanAppend([], ask);
    assert [] + [ask] == [ask];
    ScanAppend([ask], empty);
    ScanAppend([ask] + [empty], answer);
    ScanAppend([ask], answer);
  }

  lemma SayingNothing<J>(d: Decoders<J>, ask: Message, empty: Message, answer: Message)
    requires empty.role.Assistant? && empty.content == "" && empty.toolCalls == []
    ensures ToClaude(d, [ask] + [empty] + [answer]) == ToClaude(d, [ask] + [answer])
  {
    ToClaudeAppend(d, [ask], empty);
    ToClaudeAppend(d, [ask] + [empty], answer);
    ToClaudeAppend(d, [ask], answer);
  }

  /** Something else can go wrong and still pair: an answer behind an assistant message that says nothing. */
  lemma BrokenCanPair<J>(d: Decoders<J>, call: ToolCall, result: string)
    ensures var messages := [AssistantMessage("", "", [call], false)] + [AssistantMessage("", "", [], false)]
                            + [ToolMessage(call, result)];
            Scan(messages).Broken? && Paired(ToClaude(d, messages))
  {
    var ask, empty, answer :=
      AssistantMessage("", "", [call], false), AssistantMessage("", "", [], false), ToolMessage(call, result);
    AnswerTooLate(ask, empty, answer);
    SayingNothing(d, ask, empty, answer);
    CompleteTranscriptTranslates(d, [ask] + [answer]);
    FilterOfUniform([ask] + [answer]);
  }
}
