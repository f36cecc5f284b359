/**
 Transcripts in which a user has spoken into an open block, as happens in the turn behind an undo:
 the block stays unanswered for good, and the rule starts afresh with the user's message.
 */
module TalkedOver {
  import opened Protocol
  import opened Transcript

  predicate Open(p: Progress) {
    p.InBlock? && !Closed(p)
  }

  /** The messages since a user last spoke into an open block. */
  function Latest(messages: seq<Message>): seq<Message> {
    if messages == [] then []
    else
      var before, m := Latest(messages[..|messages| - 1]), messages[|messages| - 1];
      if m.role.User? && Open(Scan(before)) then [m] else before + [m]
  }

  /** Some block was talked over: a user message follows a call that has no answer yet. */
  predicate IsTalkedOver(messages: seq<Message>) {
    messages != []
    && var front, m := messages[..|messages| - 1], messages[|messages| - 1];
       IsTalkedOver(front) || (m.role.User? && Open(Scan(Latest(front))))
  }

  /** Nothing else is wrong with the transcript: since then, every answer is in its place. */
  predicate Orderly(messages: seq<Message>) {
    Scan(Latest(messages)).InBlock?
  }

  lemma LatestPush(messages: seq<Message>, m: Message)
    ensures Latest(messages + [m])
         == if m.role.User? && Open(Scan(Latest(messages))) then [m] else Latest(messages) + [m]
    ensures IsTalkedOver(messages + [m])
       <==> IsTalkedOver(messages) || (m.role.User? && Open(Scan(Latest(messages))))
  {
    assert (messages + [m])[..|messages|] == messages;
  }

  lemma {:induction false} LatestOfUntouched(messages: seq<Message>)
    requires !IsTalkedOver(messages)
    ensures Latest(messages) == messages
  {
    if messages != [] {
      LatestOfUntouched(messages[..|messages| - 1]);
    }
  }

  lemma {:induction false} UnbrokenIsUntouched(messages: seq<Message>)
    requires Scan(messages).InBlock?
    ensures !IsTalkedOver(messages)
  {
    if messages != [] {
      var front := messages[..|messages| - 1];
      UnbrokenIsUntouched(front);
      LatestOfUntouched(front);
    }
  }

  /** An orderly transcript is complete exactly when no block was talked over and none is open. */
  lemma {:induction false} CompleteExactly(messages: seq<Message>)
    ensures Complete(messages) <==> Closed(Scan(Latest(messages))) && !IsTalkedOver(messages)
    ensures Scan(messages).InBlock? <==> Orderly(messages) && !IsTalkedOver(messages)
  {
    if !IsTalkedOver(messages) {
      LatestOfUntouched(messages);
    } else if Scan(messages).InBlock? {
      UnbrokenIsUntouched(messages);
    }
  }

  lemma LatestPushOther(messages: seq<Message>, m: Message)
    requires !m.role.User?
    ensures Latest(messages + [m]) == Latest(messages) + [m]
    ensures IsTalkedOver(messages + [m]) <==> IsTalkedOver(messages)
  {
    LatestPush(messages, m);
  }

  lemma {:induction false} LatestConcat(messages: seq<Message>, more: seq<Message>)
    requires forall m :: m in more ==> !m.role.User?
    ensures Latest(messages + more) == Latest(messages) + more
    ensures IsTalkedOver(messages + more) <==> IsTalkedOver(messages)
  {
    if more == [] {
      assert messages + more == messages && Latest(messages) + more == Latest(messages);
    } else {
      var front, m := more[..|more| - 1], more[|more| - 1];
      LatestConcat(messages, front);
      LatestPushOther(messages + front, m);
      assert messages + more == messages + front + [m];
      assert Latest(messages) + more == Latest(messages) + front + [m];
    }
  }

  /** System messages do not matter. */
  lemma {:induction false} LatestIgnoresSystem(messages: seq<Message>)
    ensures Latest(NonSystem(messages)) == NonSystem(Latest(messages))
    ensures IsTalkedOver(NonSystem(messages)) <==> IsTalkedOver(messages)
  {
    if messages != [] {
      var front, m := messages[..|messages| - 1], messages[|messages| - 1];
      LatestIgnoresSystem(front);
      NonSystemPush(Latest(front), m);
      NonSystemPush([], m);
      if !m.role.System? {
        ScanIgnoresSystem(NoBlock, Latest(front));
        LatestPush(NonSystem(front), m);
      }
    }
  }

  lemma NonSystemPush(messages: seq<Message>, m: Message)
    ensures NonSystem(messages + [m]) == if m.role.System? then NonSystem(messages) else NonSystem(messages) + [m]
  {
    assert (messages + [m])[..|messages|] == messages;
  }

  lemma OrderlyIgnoresSystem(messages: seq<Message>)
    ensures Orderly(NonSystem(messages)) <==> Orderly(messages)
  {
    LatestIgnoresSystem(messages);
    ScanIgnoresSystem(NoBlock, Latest(messages));
  }

  lemma OrderlyFront(messages: seq<Message>)
    requires messages != [] && Orderly(messages)
    ensures Orderly(messages[..|messages| - 1])
  {
    var front, m := messages[..|messages| - 1], messages[|messages| - 1];
    ScanAppend(Latest(front), m);
  }

  lemma {:induction false} OrderlyPrefix(messages: seq<Message>, n: nat)
    requires n <= |messages| && Orderly(messages)
    ensures Orderly(messages[..n])
    decreases |messages|
  {
    if n < |messages| {
      OrderlyFront(messages);
      OrderlyPrefix(messages[..|messages| - 1], n);
      assert messages[..|messages| - 1][..n] == messages[..n];
    } else {
      assert messages[..n] == messages;
    }
  }

  /** The newest message alone, if it is no answer, reads like the whole. */
  lemma {:induction false} LastIsOrderly(front: seq<Message>, m: Message)
    requires !m.role.Tool? && !m.role.System? && Orderly(front + [m])
    ensures Scan(Latest([m])) == Scan(Latest(front + [m]))
  {
    LatestPush(front, m);
    LatestPush([], m);
    ScanAppend(Latest(front), m);
    ScanAppend([], m);
    assert [] + [m] == [m];
  }

  lemma SamePush(a: seq<Message>, b: seq<Message>, m: Message)
    requires Scan(Latest(a)) == Scan(Latest(b))
    ensures Scan(Latest(a + [m])) == Scan(Latest(b + [m]))
  {
    LatestPush(a, m);
    LatestPush(b, m);
    ScanAppend(Latest(a), m);
    ScanAppend(Latest(b), m);
  }

  /** A window that starts at a message of its own reads like the whole. */
  lemma {:induction false} WindowIsOrderly(rest: seq<Message>, w: nat)
    requires w < |rest| && !rest[w].role.Tool? && !rest[w].role.System? && Orderly(rest)
    ensures Scan(Latest(rest[w..])) == Scan(Latest(rest))
    decreases |rest|
  {
    var n := |rest| - 1;
    var front, m := rest[..n], rest[n];
    assert rest == front + [m];
    if w == n {
      LastIsOrderly(front, m);
      assert rest[w..] == [m];
    } else {
      OrderlyFront(rest);
      WindowIsOrderly(front, w);
      SamePush(front[w..], front, m);
      assert rest[w..] == front[w..] + [m];
    }
  }
}
