/**
 The rule a provider imposes on a transcript: every tool call an assistant message asks for
 is answered, in call order, by the `tool` messages that directly follow it
 (`runtime/machine/transition.py`, `outstanding_tool_results`). The source never checks it.
 */
module Transcript {
  import opened Protocol

  /** `InBlock(calls, n)`: the newest block asked for `calls` and the first `n` are answered. */
  datatype Progress = Broken | InBlock(calls: seq<ToolCall>, answered: nat)

  const NoBlock: Progress := InBlock([], 0)

  predicate Closed(p: Progress) {
    p.InBlock? && p.answered == |p.calls|
  }

  /** The calls a message asks for; only an assistant message can ask. */
  function CallsOf(m: Message): seq<ToolCall> {
    if m.role.Assistant? then m.toolCalls else []
  }

  function Advance(p: Progress, m: Message): Progress {
    if m.role.System? then p
    else if p.Broken? then Broken
    else if m.role.Tool? then
      if p.answered < |p.calls| && p.calls[p.answered].id == m.toolCallId
      then InBlock(p.calls, p.answered + 1)
      else Broken
    else if Closed(p) then InBlock(CallsOf(m), 0)
    else Broken
  }

  function ScanFrom(p: Progress, messages: seq<Message>): Progress {
    if messages == [] then p
    else Advance(ScanFrom(p, messages[..|messages| - 1]), messages[|messages| - 1])
  }

  function Scan(messages: seq<Message>): Progress {
    ScanFrom(NoBlock, messages)
  }

  /** Every tool call is answered. */
  predicate Complete(messages: seq<Message>) {
    Closed(Scan(messages))
  }

  lemma {:induction false} ScanConcat(p: Progress, a: seq<Message>, b: seq<Message>)
    ensures ScanFrom(p, a + b) == ScanFrom(ScanFrom(p, a), b)
  {
    if b == [] {
      assert a + b == a;
    } else {
      ScanConcat(p, a, b[..|b| - 1]);
      assert (a + b)[..|a + b| - 1] == a + b[..|b| - 1];
    }
  }

  lemma ScanAppend(messages: seq<Message>, m: Message)
    ensures Scan(messages + [m]) == Advance(Scan(messages), m)
  {
    assert (messages + [m])[..|messages|] == messages;
  }

  lemma {:induction false} ScanIgnoresSystem(p: Progress, messages: seq<Message>)
    ensures ScanFrom(p, NonSystem(messages)) == ScanFrom(p, messages)
    ensures ScanFrom(p, SystemMessages(messages)) == p
  {
    if messages != [] {
      var front, last := messages[..|messages| - 1], messages[|messages| - 1];
      ScanIgnoresSystem(p, front);
      assert (SystemMessages(front) + [last])[..|SystemMessages(front)|] == SystemMessages(front);
      assert (NonSystem(front) + [last])[..|NonSystem(front)|] == NonSystem(front);
    }
  }

  lemma CompleteIgnoresSystem(messages: seq<Message>)
    ensures Complete(NonSystem(messages)) <==> Complete(messages)
  {
    ScanIgnoresSystem(NoBlock, messages);
  }

  lemma {:induction false} BrokenStays(messages: seq<Message>)
    ensures ScanFrom(Broken, messages).Broken?
  {
    if messages != [] {
      BrokenStays(messages[..|messages| - 1]);
    }
  }

  /** Answering the outstanding calls of the open block, in order, closes it. */
  lemma {:induction false} AnswersAdvance(p: Progress, answers: seq<Message>)
    requires p.InBlock? && p.answered + |answers| <= |p.calls|
    requires forall i :: 0 <= i < |answers| ==>
                           answers[i].role.Tool? && answers[i].toolCallId == p.calls[p.answered + i].id
    ensures ScanFrom(p, answers) == InBlock(p.calls, p.answered + |answers|)
  {
    if answers != [] {
      AnswersAdvance(p, answers[..|answers| - 1]);
    }
  }

  lemma AnswersOwedClose(p: Progress, answers: seq<Message>, owed: seq<ToolCall>)
    requires p.InBlock? && p.answered <= |p.calls|
    requires p.calls[p.answered..] == owed && |answers| == |owed|
    requires forall i :: 0 <= i < |answers| ==> answers[i].role.Tool? && answers[i].toolCallId == owed[i].id
    ensures Closed(ScanFrom(p, answers))
  {
    forall i | 0 <= i < |answers|
      ensures answers[i].toolCallId == p.calls[p.answered + i].id
    {
      assert owed[i] == p.calls[p.answered + i];
    }
    AnswersAdvance(p, answers);
  }

  // ----- The block structure, stated independently of the scan -----

  /** A message that needs no answer, or an assistant message with its answers. */
  datatype Block = Plain(message: Message) | Exchange(ask: Message, answers: seq<Message>)

  predicate Answers(ask: Message, answers: seq<Message>) {
    && |answers| <= |CallsOf(ask)|
    && forall i :: 0 <= i < |answers| ==>
                     answers[i].role.Tool? && answers[i].toolCallId == CallsOf(ask)[i].id
  }

  predicate BlockOk(b: Block) {
    match b
    case Plain(m) => !m.role.System? && !m.role.Tool? && CallsOf(m) == []
    case Exchange(ask, answers) =>
      CallsOf(ask) != [] && |answers| == |CallsOf(ask)| && Answers(ask, answers)
  }

  /** The block in which exactly `calls` were asked for and answered. */
  predicate IsExchangeOf(b: Block, calls: seq<ToolCall>) {
    b.Exchange? && CallsOf(b.ask) == calls && |b.answers| == |calls| && Answers(b.ask, b.answers)
  }

  function Messages(b: Block): seq<Message> {
    match b
    case Plain(m) => [m]
    case Exchange(ask, answers) => [ask] + answers
  }

  function Flatten(blocks: seq<Block>): seq<Message> {
    if blocks == [] then [] else Flatten(blocks[..|blocks| - 1]) + Messages(blocks[|blocks| - 1])
  }

  ghost predicate Parses(messages: seq<Message>, blocks: seq<Block>) {
    (forall b :: b in blocks ==> BlockOk(b)) && Flatten(blocks) == NonSystem(messages)
  }

  lemma {:induction false} BlocksAreComplete(blocks: seq<Block>)
    requires forall b :: b in blocks ==> BlockOk(b)
    ensures Closed(Scan(Flatten(blocks)))
  {
    if blocks != [] {
      var front, b := blocks[..|blocks| - 1], blocks[|blocks| - 1];
      BlocksAreComplete(front);
      assert BlockOk(b);
      ScanConcat(NoBlock, Flatten(front), Messages(b));
      match b {
        case Plain(m) =>
          ScanAppend(Flatten(front), m);
        case Exchange(ask, answers) =>
          var p := Scan(Flatten(front));
          ScanConcat(p, [ask], answers);
          assert ScanFrom(p, [ask]) == InBlock(CallsOf(ask), 0);
          AnswersAdvance(InBlock(CallsOf(ask), 0), answers);
      }
    }
  }

  /** What a scan that has not broken says: complete blocks, then at most one open block. */
  ghost predicate ParsesOpen(messages: seq<Message>, p: Progress, blocks: seq<Block>, open: seq<Message>) {
    && p.InBlock?
    && (forall b :: b in blocks ==> BlockOk(b))
    && NonSystem(messages) == Flatten(blocks) + open
    && if Closed(p) then open == [] && (p.calls != [] ==> blocks != [] && IsExchangeOf(blocks[|blocks| - 1], p.calls))
       else open != [] && CallsOf(open[0]) == p.calls && |open| == p.answered + 1 && Answers(open[0], open[1..])
  }

  lemma FlattenAppend(blocks: seq<Block>, b: Block)
    ensures Flatten(blocks + [b]) == Flatten(blocks) + Messages(b)
  {
    assert (blocks + [b])[..|blocks|] == blocks;
  }

  lemma OneMoreAnswer(open: seq<Message>, m: Message, p: Progress)
    requires p.InBlock? && open != [] && CallsOf(open[0]) == p.calls && |open| == p.answered + 1
    requires Answers(open[0], open[1..]) && m.role.Tool? && Advance(p, m).InBlock?
    ensures var grown := open + [m];
            && grown[0] == open[0] && Answers(open[0], grown[1..])
            && grown == Messages(Exchange(open[0], grown[1..]))
  {
    assert (open + [m])[1..] == open[1..] + [m];
  }

  /** One more answer to the open block, which it may close. */
  lemma AnswerGrowsBlock(front: seq<Message>, m: Message, p: Progress, blocks: seq<Block>, open: seq<Message>)
    returns (blocks': seq<Block>, open': seq<Message>)
    requires ParsesOpen(front, p, blocks, open)
    requires m.role.Tool? && Advance(p, m).InBlock?
    requires NonSystem(front + [m]) == NonSystem(front) + [m]
    ensures ParsesOpen(front + [m], Advance(p, m), blocks', open')
  {
    var grown := open + [m];
    OneMoreAnswer(open, m, p);
    assert Flatten(blocks) + open + [m] == Flatten(blocks) + grown;
    if Closed(Advance(p, m)) {
      var b := Exchange(open[0], grown[1..]);
      FlattenAppend(blocks, b);
      blocks', open' := blocks + [b], [];
    } else {
      blocks', open' := blocks, grown;
    }
  }

  lemma {:induction false} ScanGivesBlocks(messages: seq<Message>) returns (blocks: seq<Block>, open: seq<Message>)
    requires Scan(messages).InBlock?
    ensures ParsesOpen(messages, Scan(messages), blocks, open)
  {
    if messages == [] {
      blocks, open := [], [];
    } else {
      var front, m := messages[..|messages| - 1], messages[|messages| - 1];
      assert messages == front + [m];
      blocks, open := ScanGivesBlocks(front);
      if m.role.System? {
      } else if m.role.Tool? {
        blocks, open := AnswerGrowsBlock(front, m, Scan(front), blocks, open);
      } else if CallsOf(m) == [] {
        FlattenAppend(blocks, Plain(m));
        blocks := blocks + [Plain(m)];
      } else {
        open := [m];
      }
    }
  }

  /** The scan and the block structure agree, in both directions. */
  lemma CompleteIffBlocks(messages: seq<Message>)
    ensures Complete(messages) <==> exists blocks :: Parses(messages, blocks)
  {
    if Complete(messages) {
      var blocks, open := ScanGivesBlocks(messages);
      assert Parses(messages, blocks);
    }
    if blocks :| Parses(messages, blocks) {
      BlocksAreComplete(blocks);
      ScanIgnoresSystem(NoBlock, messages);
    }
  }
}
