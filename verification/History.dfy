/** The history rewrites of `runtime/session/history.py`: compaction and the memory message. */
module History {
  import opened Protocol
  import opened Transcript

  /** The first window position at or before `start` that is not a `tool` message, or 0. */
  function WidenedStart(rest: seq<Message>, start: nat): (w: nat)
    requires start < |rest|
    ensures w <= start
  {
    if start > 0 && rest[start].role.Tool? then WidenedStart(rest, start - 1) else start
  }

  function SummaryMessage(summary: string): Message {
    SystemMessage("Conversation summary:\n" + summary)
  }

  /** `compactedMessages`, with the source's decrementing loop. */
  method CompactedMessages(messages: seq<Message>, summary: string, keepNewest: nat) returns (kept: seq<Message>)
    requires keepNewest >= 1
    ensures kept == CompactedFrom(messages, summary, keepNewest)
  {
    var system, rest := [], [];
    for i := 0 to |messages|
      invariant system == SystemMessages(messages[..i]) && rest == NonSystem(messages[..i])
    {
      assert messages[..i + 1][..i] == messages[..i];
      if messages[i].role.System? {
        system := system + [messages[i]];
      } else {
        rest := rest + [messages[i]];
      }
    }
    assert messages[..|messages|] == messages;
    if |rest| <= keepNewest {
      return system + rest;
    }
    var start := |rest| - keepNewest;
    if rest[start].role.Tool? {
      while start > 0 && rest[start].role.Tool?
        invariant 0 <= start < |rest|
        invariant WidenedStart(rest, start) == WidenedStart(rest, |rest| - keepNewest)
      {
        start := start - 1;
      }
    }
    kept := system + [SummaryMessage(summary)] + rest[start..];
  }

  function CompactedFrom(messages: seq<Message>, summary: string, keepNewest: nat): seq<Message>
    requires keepNewest >= 1
  {
    var system, rest := SystemMessages(messages), NonSystem(messages);
    if |rest| <= keepNewest then system + rest
    else system + [SummaryMessage(summary)] + rest[WidenedStart(rest, |rest| - keepNewest)..]
  }

  lemma {:induction false} WidenedStartIsLatest(rest: seq<Message>, start: nat)
    requires start < |rest|
    ensures var w := WidenedStart(rest, start);
            && w <= start
            && (w == 0 || !rest[w].role.Tool?)
            && forall j :: w < j <= start ==> rest[j].role.Tool?
  {
    if start > 0 && rest[start].role.Tool? {
      WidenedStartIsLatest(rest, start - 1);
    }
  }

  /** A scan that has not broken is closed wherever something other than an answer follows. */
  lemma ClosedBeforeNonTool(rest: seq<Message>, w: nat)
    requires w < |rest| && !rest[w].role.Tool? && !rest[w].role.System? && Complete(rest)
    ensures Closed(Scan(rest[..w]))
    ensures Scan(rest[w..]) == Scan(rest)
  {
    var before, first, tail := rest[..w], rest[w], rest[w + 1..];
    assert rest == before + [first] + tail;
    ScanConcat(NoBlock, before + [first], tail);
    ScanConcat(NoBlock, before, [first]);
    BrokenStays(tail);
    assert rest[w..] == [first] + tail;
    ScanConcat(NoBlock, [first], tail);
    assert ScanFrom(NoBlock, [first]) == Advance(NoBlock, first);
    assert ScanFrom(Scan(before), [first]) == Advance(Scan(before), first);
  }

  /** The first non-system message of a complete transcript is not an answer. */
  lemma {:induction false} FirstIsNotTool(rest: seq<Message>)
    requires rest != [] && Scan(rest).InBlock? && forall m :: m in rest ==> !m.role.System?
    ensures !rest[0].role.Tool?
  {
    assert rest == [rest[0]] + rest[1..];
    ScanConcat(NoBlock, [rest[0]], rest[1..]);
    assert ScanFrom(NoBlock, [rest[0]]) == Advance(NoBlock, rest[0]);
    BrokenStays(rest[1..]);
  }

  /** The kept window: a suffix that starts at the latest non-answer leaving `keepNewest` messages. */
  ghost predicate IsWindow(rest: seq<Message>, keepNewest: nat, window: seq<Message>) {
    exists w :: && 0 <= w <= |rest| - keepNewest && w < |rest| && window == rest[w..]
                && !rest[w].role.Tool? && forall j :: w < j <= |rest| - keepNewest && j < |rest| ==> rest[j].role.Tool?
  }

  lemma WindowIsComplete(rest: seq<Message>, keepNewest: nat)
    requires 1 <= keepNewest < |rest| && Complete(rest) && forall m :: m in rest ==> !m.role.System?
    ensures var window := rest[WidenedStart(rest, |rest| - keepNewest)..];
            Complete(window) && IsWindow(rest, keepNewest, window)
  {
    var w := WidenedStart(rest, |rest| - keepNewest);
    WidenedStartIsLatest(rest, |rest| - keepNewest);
    FirstIsNotTool(rest);
    assert !rest[w].role.System? by {
      assert rest[w] in rest;
    }
    ClosedBeforeNonTool(rest, w);
  }

  /** The kept part of the conversation proper: all of it, or the window. */
  function KeptRest(rest: seq<Message>, keepNewest: nat): seq<Message>
    requires keepNewest >= 1
  {
    if |rest| <= keepNewest then rest else rest[WidenedStart(rest, |rest| - keepNewest)..]
  }

  lemma {:induction false} CompactedParts(messages: seq<Message>, summary: string, keepNewest: nat)
    requires keepNewest >= 1
    ensures var kept, rest := CompactedFrom(messages, summary, keepNewest), NonSystem(messages);
            && NonSystem(kept) == KeptRest(rest, keepNewest)
            && SystemMessages(kept) == SystemMessages(messages)
                                       + (if |rest| <= keepNewest then [] else [SummaryMessage(summary)])
  {
    FiltersIdempotent(messages);
    var system, rest := SystemMessages(messages), NonSystem(messages);
    SplitFilters(if |rest| <= keepNewest then system else system + [SummaryMessage(summary)], KeptRest(rest, keepNewest));
  }

  lemma KeptRestIsComplete(rest: seq<Message>, keepNewest: nat)
    requires keepNewest >= 1 && Complete(rest) && forall m :: m in rest ==> !m.role.System?
    ensures Complete(KeptRest(rest, keepNewest))
    ensures if |rest| <= keepNewest then KeptRest(rest, keepNewest) == rest
            else IsWindow(rest, keepNewest, KeptRest(rest, keepNewest))
  {
    if |rest| > keepNewest {
      WindowIsComplete(rest, keepNewest);
    }
  }

  /**
   Compaction preserves completeness, keeps every system message in order with the summary behind
   them, and keeps of the rest a suffix with at least `keepNewest` messages that starts at the
   latest non-answer allowing it.
   */
  lemma CompactionPreservesCompleteness(messages: seq<Message>, summary: string, keepNewest: nat)
    returns (kept: seq<Message>, rest: seq<Message>, keptRest: seq<Message>)
    requires keepNewest >= 1 && Complete(messages)
    ensures kept == CompactedFrom(messages, summary, keepNewest)
    ensures rest == NonSystem(messages) && keptRest == NonSystem(kept)
    ensures Complete(kept)
    ensures SystemMessages(kept)
         == SystemMessages(messages) + (if |rest| <= keepNewest then [] else [SummaryMessage(summary)])
    ensures if |rest| <= keepNewest then keptRest == rest else IsWindow(rest, keepNewest, keptRest)
  {
    rest := NonSystem(messages);
    kept := CompactedFrom(messages, summary, keepNewest);
    keptRest := KeptRest(rest, keepNewest);
    CompactedParts(messages, summary, keepNewest);
    assert Complete(rest) by {
      CompleteIgnoresSystem(messages);
    }
    assert forall m :: m in rest ==> !m.role.System? by {
      FiltersIdempotent(messages);
    }
    KeptRestIsComplete(rest, keepNewest);
    CompleteIgnoresSystem(kept);
  }

  lemma SplitFilters(system: seq<Message>, rest: seq<Message>)
    requires forall m :: m in system ==> m.role.System?
    requires forall m :: m in rest ==> !m.role.System?
    ensures SystemMessages(system + rest) == system && NonSystem(system + rest) == rest
  {
    FiltersConcat(system, rest);
    FilterOfUniform(system);
    FilterOfUniform(rest);
    assert system + [] == system && [] + rest == rest;
  }

  // ----- Memory -----

  const MemoryPrefix := "Cross-session memory:\n"

  predicate IsMemory(m: Message) {
    m.role.System? && MemoryPrefix <= m.content
  }

  function WithoutMemory(messages: seq<Message>): seq<Message> {
    if messages == [] then []
    else
      var rest := WithoutMemory(messages[..|messages| - 1]);
      var last := messages[|messages| - 1];
      if IsMemory(last) then rest else rest + [last]
  }

  function Join(items: seq<string>): string {
    if items == [] then ""
    else if |items| == 1 then items[0]
    else Join(items[..|items| - 1]) + "\n- " + items[|items| - 1]
  }

  function MemoryMessage(items: seq<string>): (m: Message)
    ensures IsMemory(m)
  {
    SystemMessage(MemoryPrefix + "- " + Join(items))
  }

  function WithMemoryContext(messages: seq<Message>, items: seq<string>): seq<Message> {
    if items == [] then WithoutMemory(messages)
    else [MemoryMessage(items)] + WithoutMemory(messages)
  }

  lemma {:induction false} WithoutMemoryKeeps(messages: seq<Message>)
    ensures NonSystem(WithoutMemory(messages)) == NonSystem(messages)
    ensures forall m :: m in WithoutMemory(messages) ==> !IsMemory(m)
  {
    if messages != [] {
      var front, last := messages[..|messages| - 1], messages[|messages| - 1];
      WithoutMemoryKeeps(front);
      if !IsMemory(last) {
        assert WithoutMemory(messages)[..|WithoutMemory(messages)| - 1] == WithoutMemory(front);
      }
    }
  }

  lemma {:induction false} WithoutMemoryOf(messages: seq<Message>)
    requires forall m :: m in messages ==> !IsMemory(m)
    ensures WithoutMemory(messages) == messages
  {
    if messages != [] {
      WithoutMemoryOf(messages[..|messages| - 1]);
    }
  }

  lemma WithoutMemoryPush(messages: seq<Message>, last: Message)
    ensures WithoutMemory(messages + [last])
         == if IsMemory(last) then WithoutMemory(messages) else WithoutMemory(messages) + [last]
  {
    assert (messages + [last])[..|messages|] == messages;
  }

  lemma {:induction false} WithoutMemoryConcat(a: seq<Message>, b: seq<Message>)
    ensures WithoutMemory(a + b) == WithoutMemory(a) + WithoutMemory(b)
  {
    if b == [] {
      assert a + b == a;
    } else {
      var front, last := b[..|b| - 1], b[|b| - 1];
      WithoutMemoryConcat(a, front);
      assert a + b == a + front + [last] && b == front + [last];
      WithoutMemoryPush(a + front, last);
      WithoutMemoryPush(front, last);
    }
  }

  lemma WithoutMemoryAfter(messages: seq<Message>, items: seq<string>)
    ensures WithoutMemory(WithMemoryContext(messages, items)) == WithoutMemory(messages)
  {
    var bare := WithoutMemory(messages);
    WithoutMemoryKeeps(messages);
    WithoutMemoryOf(bare);
    if items != [] {
      var memory := MemoryMessage(items);
      WithoutMemoryConcat([memory], bare);
      assert IsMemory(memory) && [memory][..0] == [];
      assert WithoutMemory([memory]) == [];
    }
  }

  lemma MemoryKeepsConversation(messages: seq<Message>, items: seq<string>)
    ensures NonSystem(WithMemoryContext(messages, items)) == NonSystem(messages)
  {
    WithoutMemoryKeeps(messages);
    if items != [] {
      var memory := [MemoryMessage(items)];
      FiltersConcat(memory, WithoutMemory(messages));
      FilterOfUniform(memory);
    }
  }

  /**
   The memory message is replaced, never accumulated; the conversation proper is untouched, so
   completeness is.
   */
  lemma MemoryIsReplaced(messages: seq<Message>, before: seq<string>, items: seq<string>)
    ensures WithMemoryContext(WithMemoryContext(messages, before), items) == WithMemoryContext(messages, items)
    ensures Complete(WithMemoryContext(messages, items)) <==> Complete(messages)
  {
    WithoutMemoryAfter(messages, before);
    MemoryKeepsConversation(messages, items);
    ScanIgnoresSystem(NoBlock, messages);
    ScanIgnoresSystem(NoBlock, WithMemoryContext(messages, items));
  }
}
