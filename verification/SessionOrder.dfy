/**
 Session histories with undo: what a checkpoint hands back may end in an open block, the next turn
 talks over it, and from then on the transcript is orderly but for that block. Nothing else breaks.
 */
module SessionOrder {
  import opened Outcomes
  import opened Protocol
  import opened Transcript
  import opened TalkedOver
  import opened Machine
  import opened MachineInvariant
  import opened EngineSteps
  import opened EngineInvariant
  import opened OrderlyRuns
  import opened SessionLog
  import opened History
  import opened SessionSteps
  import opened SessionInvariant

  // ----- Logs -----

  /** Whatever an undo of this log may hand back is orderly. */
  predicate UndoOrderly(records: seq<Record>) {
    records == []
    || (var front, r := records[..|records| - 1], records[|records| - 1];
        UndoOrderly(front) && (UndoPoint(r) ==> Orderly(Replay(front))))
  }

  predicate LogOrderly(records: seq<Record>) {
    Orderly(Replay(records)) && UndoOrderly(records)
  }

  predicate LogsOrderly(s: Session) {
    forall id :: id in s.logs ==> LogOrderly(s.logs[id])
  }

  lemma UndoOrderlyPush(records: seq<Record>, r: Record)
    requires UndoOrderly(records) && (UndoPoint(r) ==> Orderly(Replay(records)))
    ensures UndoOrderly(records + [r])
  {
    assert (records + [r])[..|records|] == records;
  }

  lemma {:induction false} UndoOrderlySaved(records: seq<Record>, messages: seq<Message>)
    requires UndoOrderly(records)
    ensures UndoOrderly(records + RecordsFor(messages))
  {
    if messages == [] {
      assert records + RecordsFor(messages) == records;
    } else {
      var front, m := messages[..|messages| - 1], messages[|messages| - 1];
      UndoOrderlySaved(records, front);
      UndoOrderlyPush(records + RecordsFor(front), RecordFor(m));
      assert records + RecordsFor(messages) == records + RecordsFor(front) + [RecordFor(m)];
    }
  }

  lemma {:induction false} UndoOrderlyCreated(messages: seq<Message>)
    ensures UndoOrderly(CreateRecords(messages))
  {
    if messages != [] {
      UndoOrderlyCreated(messages[..|messages| - 1]);
      UndoOrderlyPush(CreateRecords(messages[..|messages| - 1]),
                      Bare(MessageAppended).(message := Some(messages[|messages| - 1])));
    } else {
      assert CreateRecords([])[..0] == [];
    }
  }

  lemma {:induction false} UndoOrderlyPrefix(records: seq<Record>, n: nat)
    requires n <= |records| && UndoOrderly(records)
    ensures UndoOrderly(records[..n])
    ensures n < |records| && UndoPoint(records[n]) ==> Orderly(Replay(records[..n]))
    decreases |records|
  {
    var k := |records| - 1;
    if n < k {
      UndoOrderlyPrefix(records[..k], n);
      assert records[..k][..n] == records[..n];
    } else if n == |records| {
      assert records[..n] == records;
    }
  }

  lemma UndoIsOrderly(records: seq<Record>)
    requires LogOrderly(records) && UndoPointOf(records).Some?
    ensures var (checkpoint, messages, index) := UndoPointOf(records).value;
            Orderly(messages) && LogOrderly(TruncateAfter(records, index))
  {
    var (checkpoint, messages, index) := UndoPointOf(records).value;
    UndoPointIsNewest(records);
    UndoIsSoundAndIdempotent(records, checkpoint, messages, index);
    UndoOrderlyPrefix(records, index);
    UndoOrderlyPrefix(records, index + 1);
    assert TruncateAfter(records, index) == records[..index + 1];
  }

  // ----- Rewrites -----

  lemma SameRestSameOrder(a: seq<Message>, b: seq<Message>)
    requires NonSystem(a) == NonSystem(b)
    ensures Orderly(a) <==> Orderly(b)
    ensures IsTalkedOver(a) <==> IsTalkedOver(b)
  {
    OrderlyIgnoresSystem(a);
    OrderlyIgnoresSystem(b);
    LatestIgnoresSystem(a);
    LatestIgnoresSystem(b);
  }

  /** A window of an orderly transcript is orderly: it starts at a message of its own, or is all of it. */
  lemma CompactionKeepsOrder(messages: seq<Message>, summary: string, keepNewest: nat)
    requires keepNewest >= 1 && Orderly(messages)
    ensures Orderly(CompactedFrom(messages, summary, keepNewest))
  {
    var rest := NonSystem(messages);
    OrderlyIgnoresSystem(messages);
    FiltersIdempotent(messages);
    if |rest| > keepNewest {
      var w := WidenedStart(rest, |rest| - keepNewest);
      WidenedStartIsLatest(rest, |rest| - keepNewest);
      if rest[w].role.Tool? {
        OrderlyPrefix(rest, 1);
        assert rest[..1] == [rest[0]];
        AnswerAloneIsWrong(rest[0]);
      }
      WindowIsOrderly(rest, w);
    }
    CompactedParts(messages, summary, keepNewest);
    OrderlyIgnoresSystem(CompactedFrom(messages, summary, keepNewest));
  }

  lemma AnswerAloneIsWrong(m: Message)
    requires m.role.Tool?
    ensures !Orderly([m])
  {
    assert [] + [m] == [m];
    LatestPush([], m);
    ScanAppend([], m);
  }

  // ----- The invariant -----

  predicate OrderInv(s: Session) {
    && BaseInv(s) && Tied(s.engine.data) && LogsOrderly(s)
    && (s.holder.Compacting? ==> Orderly(s.holder.current))
  }

  /** The only way in for a transcript that the session did not build. */
  predicate BringsOrder(a: UseCase) {
    a.ReplaceConversation? ==> Orderly(a.messages)
  }

  lemma ReplacedIsTied(e: Engine, messages: seq<Message>)
    requires Orderly(messages)
    ensures Tied(ReplaceMessages(e, messages).data)
  {
  }

  lemma ActKeepsTied(s: Session, a: UseCase)
    requires OrderInv(s) && Allows(s, a) && BringsOrder(a)
    ensures Tied(Act(s, a).engine.data)
  {
    TiedIsOrderly(s.engine.data);
    match a {
      case BeginTurn(text, attachments) => StepKeepsTied(s.engine, StartTurn(text, attachments));
      case Loop(step) => StepKeepsTied(s.engine, step);
      case CancelRun => StepKeepsTied(s.engine, Cancel);
      case ResetConversation => StepKeepsTied(s.engine, Reset);
      case ReplaceConversation(messages) => ReplacedIsTied(s.engine, messages);
      case FinishCompact(summary) => CompactionKeepsOrder(s.holder.current, summary, s.holder.keepNewest);
      case Undo =>
        if UndoPointOf(s.logs[s.active]).Some? {
          UndoIsOrderly(s.logs[s.active]);
        }
      case Resume(id) => MemoryKeepsOrder(Replay(s.logs[id]), s.memory);
      case Remember(value) => MemoryKeepsOrder(Conversation(s), s.memory + [value]);
      case ForgetMemories => MemoryKeepsOrder(Conversation(s), []);
      case _ =>
    }
  }

  lemma MemoryKeepsOrder(messages: seq<Message>, items: seq<string>)
    ensures Orderly(WithMemoryContext(messages, items)) <==> Orderly(messages)
  {
    MemoryKeepsConversation(messages, items);
    SameRestSameOrder(WithMemoryContext(messages, items), messages);
  }

  lemma EmitKeepsUndo(s: Session)
    requires s.active in s.logs && UndoOrderly(s.logs[s.active])
    ensures s.active in Emit(s).logs && UndoOrderly(Emit(s).logs[s.active])
  {
    var messages := Conversation(s);
    UndoOrderlySaved(s.logs[s.active], messages[if s.emitted > |messages| then 0 else s.emitted..]);
  }

  lemma ActKeepsUndoOrder(s: Session, a: UseCase)
    requires OrderInv(s) && Allows(s, a)
    ensures Act(s, a).active in Act(s, a).logs && UndoOrderly(Act(s, a).logs[Act(s, a).active])
  {
    var log := s.logs[s.active];
    assert LogOrderly(log);
    match a {
      case BeginTurn(text, attachments) =>
        EmitKeepsUndo(s.(engine := Start(s.engine, text, attachments), holder := Turn));
      case Loop(step) =>
        if step.Complete? {
          EmitKeepsUndo(s.(engine := Step(s.engine, step)));
        }
      case Audit(record) => UndoOrderlyPush(log, record);
      case EndTurn => EmitKeepsUndo(s);
      case CancelRun => CancelKeepsUndo(s);
      case ResetConversation => ResetKeepsUndo(s);
      case ReplaceConversation(messages) => UndoOrderlyPush(log, ReplacedBy(messages));
      case FinishCompact(summary) =>
        var kept := CompactedFrom(s.holder.current, summary, s.holder.keepNewest);
        UndoOrderlyPush(log, Bare(Kind.Compacted).(compact := Some(Compact(summary, s.holder.current, kept))));
      case Undo =>
        if UndoPointOf(log).Some? {
          UndoIsOrderly(log);
        }
      case Fork(id) => UndoOrderlyCreated(Conversation(s));
      case Resume(id) =>
        assert LogOrderly(s.logs[id]);
        UndoOrderlyPush(s.logs[id], ReplacedBy(WithMemoryContext(Replay(s.logs[id]), s.memory)));
      case Remember(value) => UndoOrderlyPush(log, ReplacedBy(WithMemoryContext(Conversation(s), s.memory + [value])));
      case ForgetMemories => UndoOrderlyPush(log, ReplacedBy(WithMemoryContext(Conversation(s), [])));
      case FailedResume(id) => UndoOrderlyPush(log, ReplacedBy(WithMemoryContext(Replay(log), s.memory)));
      case _ =>
    }
  }

  lemma CancelKeepsUndo(s: Session)
    requires s.active in s.logs && UndoOrderly(s.logs[s.active]) && Machine.Valid(s.engine.data)
    ensures UndoOrderly(Act(s, SessionSteps.CancelRun).logs[s.active])
  {
    var cancelled := s.(engine := Step(s.engine, Cancel));
    EmitKeepsUndo(cancelled);
    UndoOrderlyPush(Unrecorded(s).logs[s.active], Bare(Kind.Cancelled));
  }

  lemma ResetKeepsUndo(s: Session)
    requires s.active in s.logs && UndoOrderly(s.logs[s.active]) && Machine.Valid(s.engine.data)
    ensures UndoOrderly(Act(s, SessionSteps.ResetConversation).logs[s.active])
  {
    UndoOrderlyPush(s.logs[s.active], Bare(WasReset));
    if s.holder.Turn? {
      var reset := Append(s, [Bare(WasReset)]).(engine := Step(s.engine, Reset));
      assert reset.logs[s.active] == s.logs[s.active] + [Bare(WasReset)];
      EmitKeepsUndo(reset);
      assert ResetDuringTurn(s).logs == Emit(reset).logs;
    }
  }

  lemma ActKeepsLogs(s: Session, a: UseCase, id: SessionId)
    requires OrderInv(s) && Allows(s, a) && BringsOrder(a) && id in Act(s, a).logs
    requires BaseInv(Act(s, a)) && Tied(Act(s, a).engine.data)
    ensures LogOrderly(Act(s, a).logs[id])
  {
    var next := Act(s, a);
    if id == next.active {
      ActKeepsUndoOrder(s, a);
      TiedIsOrderly(next.engine.data);
      SameRestSameOrder(Replay(next.logs[id]), Conversation(next));
    } else if a.FailedResume? && a.id == id {
      assert LogOrderly(s.logs[id]);
      FailedResumeShape(s, id);
      MemoryKeepsOrder(Replay(s.logs[id]), s.memory);
      UndoOrderlyPush(s.logs[id], ReplacedBy(WithMemoryContext(Replay(s.logs[id]), s.memory)));
    } else {
      ActKeepsOtherLogs(s, a, id);
      assert LogOrderly(s.logs[id]);
    }
  }

  lemma ActKeepsOrder(s: Session, a: UseCase)
    requires OrderInv(s) && Allows(s, a) && BringsOrder(a)
    ensures OrderInv(Act(s, a))
  {
    ActKeepsBase(s, a);
    ActKeepsTied(s, a);
    TiedIsOrderly(s.engine.data);
    forall id | id in Act(s, a).logs
      ensures LogOrderly(Act(s, a).logs[id])
    {
      ActKeepsLogs(s, a, id);
    }
  }

  /**
   Over every history at all, undo and resets during a turn included: nothing but a talked-over block
   is ever wrong with a conversation, a stored log, or what an undo may hand back.
   */
  lemma {:induction false} OrderOverEveryHistory(s: Session, uses: seq<UseCase>)
    requires OrderInv(s) && AllAllowed(s, uses) && forall a :: a in uses ==> BringsOrder(a)
    ensures OrderInv(ActAll(s, uses))
    decreases |uses|
  {
    if uses != [] {
      ActKeepsOrder(s, uses[0]);
      OrderOverEveryHistory(Act(s, uses[0]), uses[1..]);
    }
  }

  /** A new session beside stored ones, from whichever process they are. */
  lemma CreatedIsOrderly(initial: seq<Message>, id: SessionId, logs: map<SessionId, seq<Record>>, memory: seq<string>)
    requires Transcript.Complete(initial) && forall k :: k in logs ==> LogOrderly(logs[k])
    ensures OrderInv(Created(initial, id, logs, memory))
  {
    CreatedSessionAgrees(initial, id, logs, memory);
    InitialInv(initial);
    DispatchConsistent(Initial(initial), EngineReady);
    ConsistentIsTied(Dispatch(Initial(initial), EngineReady).data);
    CreatedLogReplays(initial);
    UndoOrderlyCreated(initial);
    CompleteExactly(initial);
  }

  // ----- What an open block does to the turns behind it -----

  lemma {:induction false} TalkedOverGrows(before: seq<Message>, after: seq<Message>)
    requires before <= after && IsTalkedOver(before)
    ensures IsTalkedOver(after)
    decreases |after|
  {
    if before != after {
      TalkedOverGrows(before, after[..|after| - 1]);
    }
  }

  /** The use cases that put another conversation in the place of the present one. */
  predicate Rewrites(a: UseCase) {
    a.ReplaceConversation? || a.ResetConversation? || a.FinishCompact? || a.Resume? || a.Undo?
  }

  lemma ActExtends(s: Session, a: UseCase)
    requires BaseInv(s) && Allows(s, a) && !Rewrites(a)
    ensures Conversation(s) <= Conversation(Act(s, a)) || NonSystem(Conversation(s)) == NonSystem(Conversation(Act(s, a)))
  {
    match a {
      case BeginTurn(text, attachments) => StartGrows(s.engine, text, attachments);
      case Loop(step) =>
        match step {
          case Complete(env) => CompleteGrows(s.engine, env);
          case Chunk(run, chunk) => StreamChunkCommit(s.engine.data, chunk);
          case Pop =>
        }
      case CancelRun => CancelGrows(s.engine);
      case Remember(value) => MemoryKeepsConversation(Conversation(s), s.memory + [value]);
      case ForgetMemories => MemoryKeepsConversation(Conversation(s), []);
      case _ =>
    }
  }

  /** A talked-over block stays until the conversation is rewritten. */
  lemma TalkedOverStays(s: Session, a: UseCase)
    requires BaseInv(s) && Allows(s, a) && IsTalkedOver(Conversation(s)) && !Rewrites(a)
    ensures IsTalkedOver(Conversation(Act(s, a)))
  {
    ActExtends(s, a);
    if Conversation(s) <= Conversation(Act(s, a)) {
      TalkedOverGrows(Conversation(s), Conversation(Act(s, a)));
    } else {
      SameRestSameOrder(Conversation(s), Conversation(Act(s, a)));
    }
  }

  lemma TalkedOverUntilRewritten(s: Session, uses: seq<UseCase>)
    requires BaseInv(s) && AllAllowed(s, uses) && IsTalkedOver(Conversation(s))
    requires forall a :: a in uses ==> !Rewrites(a)
    ensures IsTalkedOver(Conversation(ActAll(s, uses)))
    decreases |uses|
  {
    if uses != [] {
      assert uses[0] in uses;
      ActKeepsBase(s, uses[0]);
      TalkedOverStays(s, uses[0]);
      TalkedOverUntilRewritten(Act(s, uses[0]), uses[1..]);
    }
  }

  /** A turn talks over a block exactly when it begins on a transcript that is not complete. */
  lemma TurnTalksOverExactly(s: Session, text: string, attachments: seq<Attachment>)
    requires OrderInv(s) && s.holder.Free? && s.engine.data.state.Idle?
    ensures Allows(s, BeginTurn(text, attachments))
    ensures IsTalkedOver(Conversation(Act(s, BeginTurn(text, attachments)))) <==> !Transcript.Complete(Conversation(s))
  {
    UserJoins(s.engine, text, attachments);
    LatestPush(Conversation(s), UserMessage(text, attachments));
    TiedIsOrderly(s.engine.data);
    CompleteExactly(Conversation(s));
  }
}
