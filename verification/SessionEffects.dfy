/**
 What every use case of a session makes of it: the conversation, the logs, the active session, the
 memory and the flag, each stated on its own (`runtime/session/session.py`, `history.py`, `turn.py`).
 */
module SessionEffects {
  import opened Outcomes
  import opened Protocol
  import opened Machine
  import opened EngineSteps
  import opened EngineInvariant
  import opened EventEffects
  import opened CompletionEffects
  import opened SessionLog
  import opened History
  import opened SessionSteps
  import opened SessionInvariant

  /** The session that is active stays so, and no other log is touched. */
  predicate StaysActive(s: Session, next: Session) {
    && next.active == s.active && s.active in s.logs && next.logs.Keys == s.logs.Keys
    && forall id :: id in s.logs && id != s.active ==> next.logs[id] == s.logs[id]
  }

  /** Its log is continued. */
  predicate Continues(s: Session, next: Session) {
    StaysActive(s, next) && s.logs[s.active] <= next.logs[s.active]
  }

  /** What joined the conversation was stored, and nothing else that a replay would show. */
  predicate StoresNew(s: Session, next: Session) {
    && Continues(s, next) && Conversation(s) <= Conversation(next) && next.emitted == |Conversation(next)|
    && Replay(next.logs[s.active]) == Replay(s.logs[s.active]) + Conversation(next)[|Conversation(s)|..]
  }

  /** A whole new conversation, stored and shown, with an engine at rest. */
  predicate HoldsNew(next: Session, messages: seq<Message>) {
    && next.active in next.logs && Replay(next.logs[next.active]) == messages && next.emitted == |messages|
    && next.engine.data == Data(Idle, messages, None, None, None, None, "", "")
    && next.engine.queue == [] && !next.engine.active
  }

  /** Its log is continued by one record. */
  predicate Records(s: Session, next: Session, record: Record) {
    StaysActive(s, next) && next.logs[s.active] == s.logs[s.active] + [record]
  }

  // ----- Creation -----

  lemma {:induction false} CreatedLogIs(initial: seq<Message>)
    ensures var log := CreateRecords(initial);
            && |log| == |initial| + 1 && log[0] == Bare(SessionStarted)
            && forall i :: 0 <= i < |initial| ==> log[i + 1] == Bare(MessageAppended).(message := Some(initial[i]))
  {
    if initial != [] {
      CreatedLogIs(initial[..|initial| - 1]);
    }
  }

  /** A new session holds its initial messages, on a log of its own, beside whatever is stored. */
  lemma {:induction false} CreatedEffects(initial: seq<Message>, id: SessionId, logs: map<SessionId, seq<Record>>,
                                          memory: seq<string>)
    ensures var s := Created(initial, id, logs, memory);
            && s.active == id && s.holder == Free && s.memory == memory && s.emitted == |initial|
            && s.engine.data == Data(Idle, initial, None, None, None, None, "", "") && s.engine.queue == []
            && s.logs.Keys == logs.Keys + {id} && s.logs[id] == CreateRecords(initial) && Replay(s.logs[id]) == initial
            && forall other :: other in logs && other != id ==> s.logs[other] == logs[other]
  {
    CreatedSessionAgrees(initial, id, logs, memory);
    CreatedIsIdle(initial);
    CreatedLogReplays(initial);
  }

  // ----- A turn -----

  lemma EmitStoresNew(s: Session, next: Session)
    requires s.active in s.logs && s.emitted == |Conversation(s)| && Grows(Conversation(s), Conversation(next))
    requires next == s.(engine := next.engine, holder := next.holder)
    ensures StoresNew(s, Emit(next))
  {
    EmitShape(next, Conversation(s));
    SavedMessagesReplay(s.logs[s.active], Conversation(next)[|Conversation(s)|..]);
  }

  /**
   The user's message joins the conversation and the log, the flag is taken, the model is due. An
   engine that is not ready yet refuses the message, and nothing but the flag is taken.
   */
  lemma {:induction false} BeginTurnEffects(s: Session, text: string, attachments: seq<Attachment>)
    requires BaseInv(s) && Allows(s, BeginTurn(text, attachments))
    ensures var next := Act(s, BeginTurn(text, attachments));
            if s.engine.data.state.Idle? then
              && StoresNew(s, next) && next.holder == Turn && next.memory == s.memory
              && Says(s.engine.data, next.engine.data, WaitingLLM)
              && IsUser(Newest(Conversation(next)), text, attachments)
              && |next.engine.queue| == 1 && next.engine.queue[0].action == CallModel
            else
              s.engine.data.state.Initializing? && next == s.(holder := Turn)
  {
    StartEffects(s.engine, text, attachments);
    if s.engine.data.state.Idle? {
      StartGrows(s.engine, text, attachments);
      EmitStoresNew(s, s.(engine := EngineSteps.Start(s.engine, text, attachments), holder := Turn));
    } else {
      NothingToEmit(s);
    }
  }

  lemma NothingToEmit(s: Session)
    requires s.active in s.logs && s.emitted == |Conversation(s)|
    ensures Emit(s) == s
  {
    assert Conversation(s)[s.emitted..] == [];
    assert s.logs[s.active] + RecordsFor([]) == s.logs[s.active];
  }

  /** A step of the loop is the engine's; what it adds to the conversation is stored. */
  lemma {:induction false} LoopEffects(s: Session, step: Label)
    requires BaseInv(s) && Allows(s, Loop(step))
    ensures var next := Act(s, Loop(step));
            && next.engine == Step(s.engine, step) && next.holder == s.holder && next.memory == s.memory
            && StoresNew(s, next) && (!step.Complete? ==> next.logs == s.logs)
  {
    match step {
      case Complete(env) =>
        CompleteGrows(s.engine, env);
        EmitStoresNew(s, s.(engine := Step(s.engine, step)));
      case Chunk(run, chunk) => ChunkEffects(s.engine, run, chunk);
      case Pop =>
    }
    assert !step.Complete? ==> Conversation(Act(s, Loop(step)))[|Conversation(s)|..] == [];
  }

  /** A record is kept beside the messages; the end of a turn frees the flag. */
  lemma {:induction false} BesideEffects(s: Session, record: Record)
    requires BaseInv(s) && s.holder.Turn?
    ensures Allows(s, Audit(record)) ==>
              var next := Act(s, Audit(record));
              && StaysActive(s, next) && next.logs[s.active] == s.logs[s.active] + [record]
              && Replay(next.logs[s.active]) == Replay(s.logs[s.active])
              && next.engine == s.engine && next.emitted == s.emitted
              && next.holder == s.holder && next.memory == s.memory
    ensures Allows(s, EndTurn) ==> Act(s, EndTurn) == s.(holder := Free)
  {
    if Allows(s, Audit(record)) {
      AuditKeepsReplay(s.logs[s.active], record);
    }
    if Allows(s, EndTurn) {
      NothingToEmit(s);
    }
  }

  /** Up to the record. */
  lemma {:induction false} UnrecordedEffects(s: Session)
    requires BaseInv(s)
    ensures var next := Unrecorded(s);
            && next.engine == Step(s.engine, Cancel) && StoresNew(s, next)
            && next.holder == s.holder && next.memory == s.memory
  {
    CancelGrows(s.engine);
    var cancelled := s.(engine := Step(s.engine, Cancel));
    if s.holder.Turn? {
      EmitStoresNew(s, cancelled);
    } else {
      assert Conversation(cancelled)[|Conversation(s)|..] == [];
    }
  }

  lemma RecordBeside(s: Session, next: Session, record: Record)
    requires StoresNew(s, next) && IsAudit(record)
    ensures StoresNew(s, Append(next, [record]))
    ensures Append(next, [record]).logs[s.active] == next.logs[s.active] + [record]
  {
    AuditKeepsReplay(next.logs[s.active], record);
  }

  /** A cancel answers what it leaves, stores the answers, and records itself behind them. */
  lemma {:induction false} CancelRunEffects(s: Session)
    requires BaseInv(s)
    ensures var next := Act(s, SessionSteps.CancelRun);
            && EndsAsCancelled(s.engine.data, next.engine.data) && next.engine.run == s.engine.run + 1
            && StoresNew(s, next) && next.holder == s.holder && next.memory == s.memory
            && next.logs[s.active] != [] && next.logs[s.active][|next.logs[s.active]| - 1] == Bare(Kind.Cancelled)
  {
    CancelEffects(s.engine);
    UnrecordedEffects(s);
    RecordBeside(s, Unrecorded(s), Bare(Kind.Cancelled));
    assert Act(s, SessionSteps.CancelRun) == Append(Unrecorded(s), [Bare(Kind.Cancelled)]);
  }

  /** A reset keeps the system messages and is on the log. */
  lemma {:induction false} ResetEffects(s: Session)
    requires BaseInv(s)
    ensures var next := Act(s, SessionSteps.ResetConversation);
            && next.engine.data == Data(Idle, SystemMessages(Conversation(s)), None, None, None, None, "", "")
            && next.engine.queue == [] && next.emitted == |Conversation(next)|
            && next.holder == s.holder && next.memory == s.memory
            && StaysActive(s, next) && s.logs[s.active] + [Bare(WasReset)] <= next.logs[s.active]
            && (!s.holder.Turn? ==> next.logs[s.active] == s.logs[s.active] + [Bare(WasReset)])
  {
    RewriteEffects(s.engine, []);
  }

  // ----- Rewrites -----

  /** The conversation is what was asked for. */
  lemma {:induction false} ReplaceEffects(s: Session, messages: seq<Message>)
    requires BaseInv(s) && Allows(s, ReplaceConversation(messages))
    ensures var next := Act(s, ReplaceConversation(messages));
            && HoldsNew(next, messages) && next.holder == s.holder && next.memory == s.memory
            && Records(s, next, Bare(ContextReplaced).(messages := messages))
  {
    SwapHolds(s, ReplacedBy(messages), messages);
  }

  /** A compaction reads the conversation at its start, unless there is too little of it. */
  lemma BeginCompactEffects(s: Session, keepNewest: int)
    requires Allows(s, BeginCompact(keepNewest))
    ensures var next := Act(s, BeginCompact(keepNewest));
            && next == s.(holder := next.holder)
            && next.holder == if |NonSystem(Conversation(s))| > (if keepNewest < 1 then 4 else keepNewest)
                              then Compacting(Conversation(s), if keepNewest < 1 then 4 else keepNewest) else Free
  {
  }

  /**
   Every system message first, then the summary, then the newest of the rest: from the latest message
   on that is no answer and leaves as many as asked for, or all of them.
   */
  ghost predicate IsCompaction(current: seq<Message>, summary: string, keep: nat, kept: seq<Message>)
    requires keep >= 1
  {
    var rest := NonSystem(current);
    if |rest| <= keep then kept == SystemMessages(current) + rest
    else exists w :: 0 <= w <= |rest| - keep && KeepsFrom(current, summary, keep, kept, w)
  }

  predicate KeepsFrom(current: seq<Message>, summary: string, keep: nat, kept: seq<Message>, w: nat)
    requires keep >= 1 && w <= |NonSystem(current)| - keep
  {
    var rest := NonSystem(current);
    && (w == 0 || !rest[w].role.Tool?) && (forall j :: w < j <= |rest| - keep ==> rest[j].role.Tool?)
    && kept == SystemMessages(current)
               + [Message(System, "Conversation summary:\n" + summary, "", "", "", [], false, [])] + rest[w..]
  }

  lemma CompactedIsCompaction(current: seq<Message>, summary: string, keep: nat)
    requires keep >= 1
    ensures IsCompaction(current, summary, keep, CompactedFrom(current, summary, keep))
  {
    var rest := NonSystem(current);
    if |rest| > keep {
      WidenedStartIsLatest(rest, |rest| - keep);
      assert KeepsFrom(current, summary, keep, CompactedFrom(current, summary, keep),
                       WidenedStart(rest, |rest| - keep));
    }
  }

  lemma CompactionShape(s: Session, summary: string)
    requires BaseInv(s) && Allows(s, FinishCompact(summary))
    ensures var next, kept := CompactEnd(s, summary), CompactedFrom(s.holder.current, summary, s.holder.keepNewest);
            && Conversation(next) == kept && next.holder == Free && next.memory == s.memory
            && Records(s, next, Bare(Kind.Compacted).(compact := Some(Compact(summary, s.holder.current, kept))))
  {
  }

  lemma {:induction false} FinishCompactEffects(s: Session, summary: string)
    requires BaseInv(s) && Allows(s, FinishCompact(summary))
    ensures var next := Act(s, FinishCompact(summary));
            && HoldsNew(next, Conversation(next)) && next.holder == Free && next.memory == s.memory
            && Records(s, next, Bare(Kind.Compacted).(
                                  compact := Some(Compact(summary, s.holder.current, Conversation(next)))))
            && IsCompaction(s.holder.current, summary, s.holder.keepNewest, Conversation(next))
  {
    CompactAgrees(s, summary);
    CompactionShape(s, summary);
    CompactedIsCompaction(s.holder.current, summary, s.holder.keepNewest);
  }

  lemma AbortCompactEffects(s: Session)
    requires Allows(s, AbortCompact)
    ensures Act(s, AbortCompact) == s.(holder := Free)
  {
  }

  /** A checkpoint that holds files. */
  predicate HoldsFiles(r: Record) {
    r.kind.CheckpointTaken? && r.checkpoint.Some? && r.checkpoint.value.files != []
  }

  /** The newest such record of a log. */
  predicate IsNewestCheckpoint(log: seq<Record>, index: nat) {
    && index < |log| && HoldsFiles(log[index])
    && forall j :: index < j < |log| ==> !HoldsFiles(log[j])
  }

  /** Undo goes back to the newest checkpoint with files: the log ends there, and is what came before it. */
  lemma {:induction false} UndoEffects(s: Session, index: nat)
    requires BaseInv(s) && Allows(s, Undo) && IsNewestCheckpoint(s.logs[s.active], index)
    ensures var next := Act(s, Undo);
            && HoldsNew(next, Replay(s.logs[s.active][..index])) && StaysActive(s, next)
            && next.logs[s.active] == s.logs[s.active][..index + 1]
            && next.holder == s.holder && next.memory == s.memory
  {
    var log := s.logs[s.active];
    UndoPointIsNewest(log);
    assert UndoPoint(log[index]);
    var (checkpoint, messages, found) := UndoPointOf(log).value;
    assert UndoPoint(log[found]);
    UndoIsSoundAndIdempotent(log, checkpoint, messages, found);
  }

  /** Without one it changes nothing. */
  lemma UndoNeedsCheckpoint(s: Session)
    requires Allows(s, Undo) && forall r :: r in s.logs[s.active] ==> !HoldsFiles(r)
    ensures Act(s, Undo) == s
  {
    var log := s.logs[s.active];
    UndoPointIsNewest(log);
    assert forall i :: 0 <= i < |log| ==> !UndoPoint(log[i]);
  }

  /** The same conversation in a new session; the old one is left as it is. */
  lemma {:induction false} ForkEffects(s: Session, id: SessionId)
    requires BaseInv(s) && Allows(s, Fork(id))
    ensures var next := Act(s, Fork(id));
            && HoldsNew(next, Conversation(s)) && next.active == id && next.logs.Keys == s.logs.Keys + {id}
            && (forall other :: other in s.logs ==> other != id && next.logs[other] == s.logs[other])
            && next.holder == s.holder && next.memory == s.memory
  {
    CreatedLogReplays(Conversation(s));
  }

  // ----- Memory -----

  /** The memory in front, if there is any, and no other memory message behind it. */
  predicate WithMemory(before: seq<Message>, after: seq<Message>, items: seq<string>) {
    after == (if items == [] then [] else [MemoryMessage(items)]) + WithoutMemory(before)
  }

  /** A rewrite of the session that is active behind it. */
  lemma SwapHolds(s: Session, record: Record, messages: seq<Message>)
    requires EngineInv(s.engine) && s.active in s.logs && s.holder.Free? && s.engine.loop.Off?
    requires ReplayRecord(Replay(s.logs[s.active]), record) == messages
    ensures HoldsNew(Rewrite(s, record, messages), messages) && Records(s, Rewrite(s, record, messages), record)
    ensures Rewrite(s, record, messages).holder == s.holder && Rewrite(s, record, messages).memory == s.memory
  {
    SwapAgrees(s, record, messages);
  }

  lemma WithMemoryIs(messages: seq<Message>, items: seq<string>)
    ensures WithMemory(messages, WithMemoryContext(messages, items), items)
  {
    assert [] + WithoutMemory(messages) == WithoutMemory(messages);
  }

  /** The stored conversation under the current memory, in the session it was stored in. */
  lemma {:induction false} ResumeEffects(s: Session, id: SessionId)
    requires BaseInv(s) && Allows(s, Resume(id))
    ensures var next := Act(s, Resume(id));
            && next.active == id && HoldsNew(next, Conversation(next))
            && WithMemory(Replay(s.logs[id]), Conversation(next), s.memory)
            && next.logs.Keys == s.logs.Keys
            && next.logs[id] == s.logs[id] + [Bare(ContextReplaced).(messages := Conversation(next))]
            && (forall other :: other in s.logs && other != id ==> next.logs[other] == s.logs[other])
            && next.holder == s.holder && next.memory == s.memory
  {
    var messages := WithMemoryContext(Replay(s.logs[id]), s.memory);
    SwapHolds(s.(active := id), ReplacedBy(messages), messages);
    WithMemoryIs(Replay(s.logs[id]), s.memory);
    assert Act(s, Resume(id)) == Rewrite(s.(active := id), ReplacedBy(messages), messages);
  }

  /** A resume that fails at activation stores the same and swaps nothing. */
  lemma {:induction false} FailedResumeEffects(s: Session, id: SessionId)
    requires BaseInv(s) && Allows(s, FailedResume(id))
    ensures var next := Act(s, FailedResume(id));
            && next == s.(logs := next.logs) && next.logs.Keys == s.logs.Keys
            && next.logs[id] == s.logs[id] + [Bare(ContextReplaced).(messages := Replay(next.logs[id]))]
            && WithMemory(Replay(s.logs[id]), Replay(next.logs[id]), s.memory)
            && forall other :: other in s.logs && other != id ==> next.logs[other] == s.logs[other]
  {
    FailedResumeShape(s, id);
    WithMemoryIs(Replay(s.logs[id]), s.memory);
  }

  lemma {:induction false} MemoryEffects(s: Session, items: seq<string>)
    requires BaseInv(s) && s.holder.Free?
    ensures var next := ReplaceMemory(s, items);
            && HoldsNew(next, Conversation(next)) && next.holder == s.holder
            && Records(s, next, Bare(ContextReplaced).(messages := Conversation(next)))
            && WithMemory(Conversation(s), Conversation(next), items) && next.memory == items
  {
    var kept := WithMemoryContext(Conversation(s), items);
    SwapHolds(s, ReplacedBy(kept), kept);
    WithMemoryIs(Conversation(s), items);
  }

  /** A new line joins the memory and the conversation's memory message; a known one changes nothing. */
  lemma {:induction false} RememberEffects(s: Session, value: string)
    requires BaseInv(s) && Allows(s, Remember(value))
    ensures var next := Act(s, Remember(value));
            if value in s.memory then next == s
            else
              && next.memory == s.memory + [value]
              && WithMemory(Conversation(s), Conversation(next), s.memory + [value])
              && HoldsNew(next, Conversation(next)) && next.holder == s.holder
              && Records(s, next, Bare(ContextReplaced).(messages := Conversation(next)))
  {
    if value !in s.memory {
      MemoryEffects(s, s.memory + [value]);
    }
  }

  /** Nothing is remembered, and the conversation shows no memory. */
  lemma {:induction false} ForgetEffects(s: Session)
    requires BaseInv(s) && Allows(s, ForgetMemories)
    ensures var next := Act(s, ForgetMemories);
            && next.memory == [] && WithMemory(Conversation(s), Conversation(next), [])
            && (forall m :: m in Conversation(next) ==> !IsMemory(m))
            && HoldsNew(next, Conversation(next)) && next.holder == s.holder
            && Records(s, next, Bare(ContextReplaced).(messages := Conversation(next)))
  {
    MemoryEffects(s, []);
    WithoutMemoryKeeps(Conversation(s));
  }
}
