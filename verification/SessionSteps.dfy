/**
 The session over the engine (`runtime/session`): what is persisted when, as atomic steps.

 Observer and emitter calls do not suspend and repository writes succeed, so an engine step and
 the emission that follows it are one step. While a turn runs the observer is installed.
 */
module SessionSteps {
  import opened Outcomes
  import opened Protocol
  import opened Machine
  import opened EngineSteps
  import opened SessionLog
  import opened History

  type SessionId = string

  /** Who holds the turn flag. A compaction holds it while the model writes the summary. */
  datatype Holder = Free | Turn | Compacting(current: seq<Message>, keepNewest: nat)

  datatype Session = Session(
    engine: Engine,
    logs: map<SessionId, seq<Record>>,
    active: SessionId,
    emitted: nat,
    holder: Holder,
    memory: seq<string>)

  datatype UseCase =
    | BeginTurn(text: string, attachments: seq<Attachment>)
    | Loop(step: Label)
    | Audit(record: Record)
    | EndTurn
    | CancelRun
    | ResetConversation
    | ReplaceConversation(messages: seq<Message>)
    | BeginCompact(keepNewest: int)
    | FinishCompact(summary: string)
    | AbortCompact
    | Undo
    | Fork(id: SessionId)
    | Resume(id: SessionId)
    | FailedResume(id: SessionId)
    | Remember(value: string)
    | ForgetMemories

  function Conversation(s: Session): seq<Message> {
    s.engine.data.messages
  }

  /** A new session over a ready engine, beside the sessions and the memory that are stored already. */
  function Created(initial: seq<Message>, id: SessionId, logs: map<SessionId, seq<Record>>,
                   memory: seq<string>): Session {
    var engine := Dispatch(Initial(initial), EngineReady);
    Session(engine, logs[id := CreateRecords(initial)], id, |engine.data.messages|, Free, memory)
  }

  function Append(s: Session, records: seq<Record>): Session
    requires s.active in s.logs
  {
    s.(logs := s.logs[s.active := s.logs[s.active] + records])
  }

  /** `SnapshotEmitter.emit`: every message behind the mark is saved once, then the mark moves. */
  function Emit(s: Session): Session
    requires s.active in s.logs
  {
    var messages := Conversation(s);
    var from := if s.emitted > |messages| then 0 else s.emitted;
    Append(s, RecordsFor(messages[from..])).(emitted := |messages|)
  }

  /** Swaps the conversation of the active session for one that `record` already stores. */
  function Rewrite(s: Session, record: Record, messages: seq<Message>): Session
    requires s.active in s.logs
  {
    Append(s, [record]).(engine := ReplaceMessages(s.engine, messages), emitted := |messages|)
  }

  function ReplacedBy(messages: seq<Message>): Record {
    Bare(ContextReplaced).(messages := messages)
  }

  predicate IsAudit(r: Record) {
    r.kind.ApprovalDecided? || r.kind.Failed? || r.kind.Cancelled? || r.kind.CheckpointTaken?
  }

  predicate Allows(s: Session, a: UseCase) {
    && s.active in s.logs && Machine.Valid(s.engine.data)
    && match a
       case BeginTurn(_, _) => s.holder.Free? && (s.engine.loop.Off? || s.engine.loop.Stalled?)
       case Loop(step) =>
         Enabled(s.engine, step)
         && (step.Chunk? || ((step.Pop? || step.Complete?) && s.holder.Turn?))
       case Audit(record) => s.holder.Turn? && IsAudit(record)
       case EndTurn => s.holder.Turn? && (s.engine.loop.Off? || s.engine.loop.Stalled?)
       case CancelRun => true
       case ResetConversation => true
       case FinishCompact(_) => s.holder.Compacting? && s.holder.keepNewest >= 1
       case AbortCompact => s.holder.Compacting?
       case Fork(id) => s.holder.Free? && id !in s.logs
       case Remember(value) => s.holder.Free? && value != ""
       case Resume(id) => s.holder.Free? && id in s.logs
       case FailedResume(id) => s.holder.Free? && id in s.logs
       case _ => s.holder.Free?
  }

  /** `compact` up to the summary: it may find nothing to do. */
  function CompactStart(s: Session, keepNewest: int): Session {
    var keep := if keepNewest < 1 then 4 else keepNewest;
    if Conversation(s) == [] || |NonSystem(Conversation(s))| <= keep then s
    else s.(holder := Compacting(Conversation(s), keep))
  }

  function CompactEnd(s: Session, summary: string): Session
    requires s.active in s.logs && s.holder.Compacting? && s.holder.keepNewest >= 1
  {
    var kept := CompactedFrom(s.holder.current, summary, s.holder.keepNewest);
    var record := Bare(Kind.Compacted).(compact := Some(Compact(summary, s.holder.current, kept)));
    Rewrite(s, record, kept).(holder := Free)
  }

  /** `undo`; without a checkpoint it raises and changes nothing. */
  function UndoLast(s: Session): Session
    requires s.active in s.logs
  {
    match UndoPointOf(s.logs[s.active])
    case None => s
    case Some((_, messages, index)) =>
      s.(logs := s.logs[s.active := TruncateAfter(s.logs[s.active], index)],
         engine := ReplaceMessages(s.engine, messages), emitted := |messages|)
  }

  function ForkInto(s: Session, id: SessionId): Session {
    var messages := Conversation(s);
    s.(logs := s.logs[id := CreateRecords(messages)], active := id,
       engine := ReplaceMessages(s.engine, messages), emitted := |messages|)
  }

  function ResumeFrom(s: Session, id: SessionId): Session
    requires id in s.logs
  {
    var messages := WithMemoryContext(Replay(s.logs[id]), s.memory);
    Rewrite(s.(active := id), ReplacedBy(messages), messages)
  }

  /** The workspace refuses to activate: the replacement is on the log already, the session is not swapped. */
  function ResumeFails(s: Session, id: SessionId): Session
    requires id in s.logs
  {
    s.(logs := s.logs[id := s.logs[id] + [ReplacedBy(WithMemoryContext(Replay(s.logs[id]), s.memory))]])
  }

  /** A reset is on the log before the engine forgets. */
  function ResetIdle(s: Session): Session
    requires s.active in s.logs && Machine.Valid(s.engine.data)
  {
    var engine := Step(s.engine, Reset);
    Append(s, [Bare(WasReset)]).(engine := engine, emitted := |engine.data.messages|)
  }

  /**
   During a turn the observer is installed: the reset transition notifies it before the emitter is
   re-armed, so the emission still compares against the old mark.
   */
  function ResetDuringTurn(s: Session): Session
    requires s.active in s.logs && Machine.Valid(s.engine.data)
  {
    var reset := Append(s, [Bare(WasReset)]).(engine := Step(s.engine, Reset));
    Emit(reset).(emitted := |Conversation(reset)|)
  }

  function ReplaceMemory(s: Session, items: seq<string>): Session
    requires s.active in s.logs
  {
    var kept := WithMemoryContext(Conversation(s), items);
    Rewrite(s, ReplacedBy(kept), kept).(memory := items)
  }

  function Act(s: Session, a: UseCase): Session
    requires Allows(s, a)
  {
    match a
    case BeginTurn(text, attachments) =>
      Emit(s.(engine := Start(s.engine, text, attachments), holder := Turn))
    case Loop(step) =>
      var next := s.(engine := Step(s.engine, step));
      if step.Complete? then Emit(next) else next
    case Audit(record) => Append(s, [record])
    case EndTurn => Emit(s).(holder := Free)
    case CancelRun =>
      var cancelled := s.(engine := Step(s.engine, Cancel));
      Append(if s.holder.Turn? then Emit(cancelled) else cancelled, [Bare(Kind.Cancelled)])
    case ResetConversation => if s.holder.Turn? then ResetDuringTurn(s) else ResetIdle(s)
    case ReplaceConversation(messages) => Rewrite(s, ReplacedBy(messages), messages)
    case BeginCompact(keepNewest) => CompactStart(s, keepNewest)
    case FinishCompact(summary) => CompactEnd(s, summary)
    case AbortCompact => s.(holder := Free)
    case Undo => UndoLast(s)
    case Fork(id) => ForkInto(s, id)
    case Resume(id) => ResumeFrom(s, id)
    case FailedResume(id) => ResumeFails(s, id)
    case Remember(value) => if value in s.memory then s else ReplaceMemory(s, s.memory + [value])
    case ForgetMemories => ReplaceMemory(s, [])
  }

  predicate AllAllowed(s: Session, uses: seq<UseCase>)
    decreases |uses|
  {
    uses == [] || (Allows(s, uses[0]) && AllAllowed(Act(s, uses[0]), uses[1..]))
  }

  function ActAll(s: Session, uses: seq<UseCase>): Session
    requires AllAllowed(s, uses)
    decreases |uses|
  {
    if uses == [] then s else ActAll(Act(s, uses[0]), uses[1..])
  }
}
