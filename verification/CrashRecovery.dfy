/**
 Sessions and log files together: whatever part of a session's log a crash leaves, reading it back
 gives a conversation that the session has had, or the beginning of one. Over histories that keep the
 replay this is exact; over every other history it holds for everything but system messages.
 */
module CrashRecovery {
  import opened Outcomes
  import opened Protocol
  import opened Machine
  import opened EngineSteps
  import opened SessionLog
  import opened History
  import opened SessionSteps
  import opened SessionInvariant
  import opened LogFile

  /** The conversations that sessions have had, and what failed resumes have stored. */
  type Past = set<(SessionId, seq<Message>)>

  /** The beginning of a conversation: to the letter, or up to system messages. */
  predicate Begins(messages: seq<Message>, whole: seq<Message>, exact: bool) {
    if exact then messages <= whole else NonSystem(messages) <= NonSystem(whole)
  }

  ghost predicate Explained(messages: seq<Message>, id: SessionId, past: Past, exact: bool) {
    exists whole :: (id, whole) in past && Begins(messages, whole, exact)
  }

  /** Every beginning of the log is explained. */
  ghost predicate Traced(records: seq<Record>, id: SessionId, past: Past, exact: bool) {
    && Explained(Replay(records), id, past, exact)
    && (records == [] || Traced(records[..|records| - 1], id, past, exact))
  }

  ghost predicate AllTraced(logs: map<SessionId, seq<Record>>, past: Past, exact: bool) {
    forall id :: id in logs ==> Traced(logs[id], id, past, exact)
  }

  /** What a use case adds to the past. */
  function Moments(s: Session, a: UseCase): Past
    requires Allows(s, a)
  {
    var next := Act(s, a);
    {(next.active, Conversation(next))}
    + (if a.FailedResume? then {(a.id, WithMemoryContext(Replay(s.logs[a.id]), s.memory))} else {})
  }

  function PastOf(s: Session, uses: seq<UseCase>): Past
    requires AllAllowed(s, uses)
    decreases |uses|
  {
    if uses == [] then {} else Moments(s, uses[0]) + PastOf(Act(s, uses[0]), uses[1..])
  }

  ghost predicate TracedInv(s: Session, past: Past, exact: bool) {
    && BaseInv(s) && (exact ==> SessionInv(s))
    && (s.active, Conversation(s)) in past && AllTraced(s.logs, past, exact)
  }

  /** The use cases over which the exact form holds. */
  predicate Suits(s: Session, a: UseCase, exact: bool) {
    exact ==> KeepsReplay(s, a)
  }

  predicate AllSuit(s: Session, uses: seq<UseCase>, exact: bool)
    requires AllAllowed(s, uses)
  {
    exact ==> AllKeepReplay(s, uses)
  }

  // ----- Beginnings -----

  lemma PrefixBegins(messages: seq<Message>, whole: seq<Message>, exact: bool)
    requires messages <= whole
    ensures Begins(messages, whole, exact)
  {
    var more := whole[|messages|..];
    assert whole == messages + more;
    NonSystemConcat(messages, more);
  }

  lemma BeginningBegins(front: seq<Message>, messages: seq<Message>, whole: seq<Message>, exact: bool)
    requires front <= messages && Begins(messages, whole, exact)
    ensures Begins(front, whole, exact)
  {
    PrefixBegins(front, messages, exact);
  }

  // ----- Logs that grow -----

  lemma {:induction false} TracedLonger(records: seq<Record>, id: SessionId, past: Past, more: Past, exact: bool)
    requires Traced(records, id, past, exact)
    ensures Traced(records, id, past + more, exact)
  {
    var whole :| (id, whole) in past && Begins(Replay(records), whole, exact);
    assert (id, whole) in past + more;
    if records != [] {
      TracedLonger(records[..|records| - 1], id, past, more, exact);
    }
  }

  lemma TracedPush(records: seq<Record>, r: Record, id: SessionId, past: Past, whole: seq<Message>, exact: bool)
    requires Traced(records, id, past, exact) && (id, whole) in past && Begins(Replay(records + [r]), whole, exact)
    ensures Traced(records + [r], id, past, exact)
  {
    assert (records + [r])[..|records|] == records;
  }

  lemma {:induction false} TracedSaved(records: seq<Record>, messages: seq<Message>, id: SessionId, past: Past,
                                       whole: seq<Message>, exact: bool)
    requires Traced(records, id, past, exact) && (id, whole) in past
    requires Begins(Replay(records) + messages, whole, exact) && forall m :: m in messages ==> Canonical(m)
    ensures Traced(records + RecordsFor(messages), id, past, exact)
  {
    if messages == [] {
      assert records + RecordsFor(messages) == records;
    } else {
      var front, m := messages[..|messages| - 1], messages[|messages| - 1];
      assert Replay(records) + messages == Replay(records) + front + [m];
      BeginningBegins(Replay(records) + front, Replay(records) + messages, whole, exact);
      TracedSaved(records, front, id, past, whole, exact);
      SavedMessagesReplay(records, messages);
      assert records + RecordsFor(messages) == records + RecordsFor(front) + [RecordFor(m)];
      TracedPush(records + RecordsFor(front), RecordFor(m), id, past, whole, exact);
    }
  }

  lemma {:induction false} TracedCreated(messages: seq<Message>, id: SessionId, past: Past, whole: seq<Message>,
                                         exact: bool)
    requires (id, whole) in past && messages <= whole
    ensures Traced(CreateRecords(messages), id, past, exact)
  {
    CreatedLogReplays(messages);
    PrefixBegins(messages, whole, exact);
    if messages == [] {
      assert [] + [Bare(SessionStarted)] == CreateRecords(messages);
      assert Replay([]) == [];
      TracedPush([], Bare(SessionStarted), id, past, whole, exact);
    } else {
      var front, m := messages[..|messages| - 1], messages[|messages| - 1];
      TracedCreated(front, id, past, whole, exact);
      TracedPush(CreateRecords(front), Bare(MessageAppended).(message := Some(m)), id, past, whole, exact);
    }
  }

  lemma {:induction false} TracedPrefix(records: seq<Record>, n: nat, id: SessionId, past: Past, exact: bool)
    requires n <= |records| && Traced(records, id, past, exact)
    ensures Traced(records[..n], id, past, exact)
    decreases |records|
  {
    if n < |records| {
      TracedPrefix(records[..|records| - 1], n, id, past, exact);
      assert records[..|records| - 1][..n] == records[..n];
    } else {
      assert records[..n] == records;
    }
  }

  // ----- Use cases -----

  /** The log replays to `messages`: to the letter, or up to system messages. */
  predicate Holds(log: seq<Record>, messages: seq<Message>, exact: bool) {
    if exact then Replay(log) == messages else NonSystem(Replay(log)) == NonSystem(messages)
  }

  lemma HeldBegins(log: seq<Record>, before: seq<Message>, more: seq<Message>, exact: bool)
    requires Holds(log, before, exact)
    ensures Begins(Replay(log) + more, before + more, exact)
  {
    if !exact {
      SameBehind(Replay(log), before, more);
    }
  }

  /** An emission behind a conversation that grew. */
  lemma EmitTraced(s: Session, before: seq<Message>, past: Past, exact: bool)
    requires s.active in s.logs && s.emitted == |before| && Grows(before, Conversation(s))
    requires Holds(s.logs[s.active], before, exact) && Traced(s.logs[s.active], s.active, past, exact)
    requires (s.active, Conversation(s)) in past
    ensures Emit(s).active == s.active && s.active in Emit(s).logs
    ensures Traced(Emit(s).logs[s.active], s.active, past, exact)
    ensures Begins(Replay(Emit(s).logs[s.active]), Conversation(s), exact)
  {
    var more := Conversation(s)[|before|..];
    EmitShape(s, before);
    HeldBegins(s.logs[s.active], before, more, exact);
    TracedSaved(s.logs[s.active], more, s.active, past, Conversation(s), exact);
    SavedMessagesReplay(s.logs[s.active], more);
  }

  lemma AuditTraced(log: seq<Record>, r: Record, id: SessionId, past: Past, whole: seq<Message>, exact: bool)
    requires IsAudit(r) && Traced(log, id, past, exact) && (id, whole) in past && Begins(Replay(log), whole, exact)
    ensures Traced(log + [r], id, past, exact)
  {
    AuditKeepsReplay(log, r);
    TracedPush(log, r, id, past, whole, exact);
  }

  /** What the invariant says of the active log. */
  lemma ActiveHolds(s: Session, exact: bool)
    requires BaseInv(s) && (exact ==> SessionInv(s))
    ensures Holds(s.logs[s.active], Conversation(s), exact)
    ensures Begins(Replay(s.logs[s.active]), Conversation(s), exact)
  {
  }

  lemma {:induction false} CancelTraced(s: Session, past: Past, exact: bool)
    requires BaseInv(s) && (exact ==> SessionInv(s)) && Allows(s, SessionSteps.CancelRun)
    requires Traced(s.logs[s.active], s.active, past, exact)
    requires (s.active, Conversation(Act(s, SessionSteps.CancelRun))) in past
    ensures var next := Act(s, SessionSteps.CancelRun);
            next.active == s.active && s.active in next.logs && Traced(next.logs[s.active], s.active, past, exact)
  {
    CancelGrows(s.engine);
    ActiveHolds(s, exact);
    var cancelled := s.(engine := Step(s.engine, Cancel));
    if s.holder.Turn? {
      EmitTraced(cancelled, Conversation(s), past, exact);
    } else {
      BeginsLonger(Replay(s.logs[s.active]), Conversation(s), Conversation(cancelled), exact);
    }
    AuditTraced(Unrecorded(s).logs[s.active], Bare(Kind.Cancelled), s.active, past, Conversation(cancelled), exact);
  }

  lemma BeginsLonger(messages: seq<Message>, whole: seq<Message>, longer: seq<Message>, exact: bool)
    requires Begins(messages, whole, exact) && whole <= longer
    ensures Begins(messages, longer, exact)
  {
    PrefixBegins(whole, longer, exact);
  }

  /** Without a conversation proper everything is a beginning, up to system messages. */
  lemma NothingBegins(messages: seq<Message>, whole: seq<Message>)
    requires NonSystem(messages) == []
    ensures Begins(messages, whole, false)
  {
  }

  /** Up to the record, with the engine reset. */
  function ResetRecord(s: Session): Session
    requires s.active in s.logs && Machine.Valid(s.engine.data)
  {
    Append(s, [Bare(WasReset)]).(engine := Step(s.engine, Reset))
  }

  lemma ResetRecordTraced(s: Session, past: Past, exact: bool)
    requires BaseInv(s) && (exact ==> SessionInv(s)) && Traced(s.logs[s.active], s.active, past, exact)
    requires (s.active, SystemMessages(Conversation(s))) in past
    ensures var reset := ResetRecord(s);
            && Conversation(reset) == SystemMessages(Conversation(s)) && reset.emitted == s.emitted
            && reset.active == s.active && s.active in reset.logs
            && NonSystem(Replay(reset.logs[s.active])) == [] && Traced(reset.logs[s.active], s.active, past, exact)
  {
    var kept := SystemMessages(Conversation(s));
    ResetRecorded(s);
    NoSystemLeft(Replay(s.logs[s.active]));
    TracedPush(s.logs[s.active], Bare(WasReset), s.active, past, kept, exact);
  }

  lemma {:induction false} ResetTraced(s: Session, past: Past, exact: bool)
    requires BaseInv(s) && (exact ==> SessionInv(s)) && Suits(s, SessionSteps.ResetConversation, exact)
    requires Traced(s.logs[s.active], s.active, past, exact)
    requires (s.active, SystemMessages(Conversation(s))) in past
    ensures var next := Act(s, SessionSteps.ResetConversation);
            next.active == s.active && s.active in next.logs && Traced(next.logs[s.active], s.active, past, exact)
  {
    ResetRecordTraced(s, past, exact);
    if s.holder.Turn? {
      assert ResetDuringTurn(s).logs == Emit(ResetRecord(s)).logs;
      if exact {
        SystemMessagesShorter(Conversation(s));
        NothingToEmit(ResetRecord(s));
      } else {
        ResetEmitTraced(s, ResetRecord(s), past);
      }
    }
  }

  /** What the emission behind a reset saves is system messages only. */
  lemma ResetEmitTraced(s: Session, reset: Session, past: Past)
    requires reset.active in reset.logs && Conversation(reset) == SystemMessages(Conversation(s))
    requires NonSystem(Replay(reset.logs[reset.active])) == [] && (reset.active, Conversation(reset)) in past
    requires Traced(reset.logs[reset.active], reset.active, past, false)
    ensures reset.active in Emit(reset).logs && Traced(Emit(reset).logs[reset.active], reset.active, past, false)
  {
    var messages := Conversation(reset);
    var more := messages[if reset.emitted > |messages| then 0 else reset.emitted..];
    var log := reset.logs[reset.active];
    SystemMessagesAreCanonical(Conversation(s));
    NoSystemLeft(Conversation(s));
    PrefixBegins(messages[..|messages| - |more|], messages, false);
    assert messages == messages[..|messages| - |more|] + more;
    NonSystemConcat(messages[..|messages| - |more|], more);
    NonSystemConcat(Replay(log), more);
    NothingBegins(Replay(log) + more, messages);
    TracedSaved(log, more, reset.active, past, messages, false);
  }

  lemma NothingToEmit(s: Session)
    requires s.active in s.logs && (s.emitted == |Conversation(s)| || Conversation(s) == [])
    ensures s.active in Emit(s).logs && Emit(s).logs[s.active] == s.logs[s.active]
  {
    var from := if s.emitted > |Conversation(s)| then 0 else s.emitted;
    assert Conversation(s)[from..] == [];
  }

  /** A record that stores the whole new conversation. */
  lemma SwapTraced(log: seq<Record>, r: Record, id: SessionId, past: Past, whole: seq<Message>, exact: bool)
    requires Traced(log, id, past, exact) && (id, whole) in past && ReplayRecord(Replay(log), r) == whole
    ensures Traced(log + [r], id, past, exact)
  {
    ReplayAppend(log, r);
    PrefixBegins(whole, whole, exact);
    TracedPush(log, r, id, past, whole, exact);
  }

  lemma {:induction false} TurnTraced(s: Session, a: UseCase, past: Past, exact: bool)
    requires BaseInv(s) && (exact ==> SessionInv(s)) && Allows(s, a) && Traced(s.logs[s.active], s.active, past, exact)
    requires a.BeginTurn? || a.Loop? || a.Audit? || a.EndTurn?
    requires (s.active, Conversation(Act(s, a))) in past
    ensures var next := Act(s, a);
            next.active == s.active && s.active in next.logs && Traced(next.logs[s.active], s.active, past, exact)
  {
    ActiveHolds(s, exact);
    match a {
      case BeginTurn(text, attachments) =>
        StartGrows(s.engine, text, attachments);
        EmitTraced(s.(engine := Start(s.engine, text, attachments), holder := Turn), Conversation(s), past, exact);
      case Loop(step) =>
        if step.Complete? {
          CompleteGrows(s.engine, step.env);
          EmitTraced(s.(engine := Step(s.engine, step)), Conversation(s), past, exact);
        }
      case Audit(record) => AuditTraced(s.logs[s.active], record, s.active, past, Conversation(s), exact);
      case EndTurn => EmitTraced(s, Conversation(s), past, exact);
    }
  }

  lemma CompactTraced(s: Session, summary: string, past: Past, exact: bool)
    requires BaseInv(s) && Allows(s, FinishCompact(summary)) && Traced(s.logs[s.active], s.active, past, exact)
    requires (s.active, CompactedFrom(s.holder.current, summary, s.holder.keepNewest)) in past
    ensures var next := CompactEnd(s, summary);
            s.active in next.logs && Traced(next.logs[s.active], s.active, past, exact)
  {
    var kept := CompactedFrom(s.holder.current, summary, s.holder.keepNewest);
    SwapTraced(s.logs[s.active], Bare(Kind.Compacted).(compact := Some(Compact(summary, s.holder.current, kept))),
               s.active, past, kept, exact);
  }

  lemma UndoTraced(log: seq<Record>, id: SessionId, past: Past, exact: bool)
    requires Traced(log, id, past, exact) && UndoPointOf(log).Some?
    ensures Traced(TruncateAfter(log, UndoPointOf(log).value.2), id, past, exact)
  {
    var (checkpoint, messages, index) := UndoPointOf(log).value;
    UndoIsSoundAndIdempotent(log, checkpoint, messages, index);
    TracedPrefix(log, index + 1, id, past, exact);
    assert TruncateAfter(log, index) == log[..index + 1];
  }

  lemma {:induction false} RewriteTraced(s: Session, a: UseCase, past: Past, exact: bool)
    requires BaseInv(s) && Allows(s, a) && AllTraced(s.logs, past, exact)
    requires a.ReplaceConversation? || a.FinishCompact? || a.Undo? || a.Fork? || a.Resume?
    requires (Act(s, a).active, Conversation(Act(s, a))) in past
    ensures var next := Act(s, a); next.active in next.logs && Traced(next.logs[next.active], next.active, past, exact)
  {
    var log := s.logs[s.active];
    match a {
      case ReplaceConversation(messages) => SwapTraced(log, ReplacedBy(messages), s.active, past, messages, exact);
      case FinishCompact(summary) => CompactTraced(s, summary, past, exact);
      case Undo =>
        if UndoPointOf(log).Some? {
          UndoTraced(log, s.active, past, exact);
        }
      case Fork(id) => TracedCreated(Conversation(s), id, past, Conversation(s), exact);
      case Resume(id) => FailedResumeTraced(s, id, past, exact);
    }
  }

  lemma MemoryTraced(s: Session, items: seq<string>, past: Past, exact: bool)
    requires BaseInv(s) && Traced(s.logs[s.active], s.active, past, exact)
    requires (s.active, WithMemoryContext(Conversation(s), items)) in past
    ensures var next := ReplaceMemory(s, items);
            next.active == s.active && s.active in next.logs && Traced(next.logs[s.active], s.active, past, exact)
  {
    var kept := WithMemoryContext(Conversation(s), items);
    SwapTraced(s.logs[s.active], ReplacedBy(kept), s.active, past, kept, exact);
  }

  lemma RememberTraced(s: Session, value: string, past: Past, exact: bool)
    requires TracedInv(s, past, exact) && Allows(s, Remember(value))
    requires (Act(s, Remember(value)).active, Conversation(Act(s, Remember(value)))) in past
    ensures var next := Act(s, Remember(value));
            next.active in next.logs && Traced(next.logs[next.active], next.active, past, exact)
  {
    if value !in s.memory {
      MemoryTraced(s, s.memory + [value], past, exact);
    }
  }

  lemma ResetKeepsSystem(s: Session)
    requires BaseInv(s)
    ensures Conversation(Act(s, SessionSteps.ResetConversation)) == SystemMessages(Conversation(s))
    ensures Act(s, SessionSteps.ResetConversation).active == s.active
  {
    ResetStep(s.engine);
  }

  /** The log that is active behind a use case. */
  lemma {:induction false} ActiveLogTraced(s: Session, a: UseCase, past: Past, exact: bool)
    requires TracedInv(s, past, exact) && Allows(s, a) && Suits(s, a, exact) && !a.FailedResume?
    requires (Act(s, a).active, Conversation(Act(s, a))) in past
    ensures var next := Act(s, a); next.active in next.logs && Traced(next.logs[next.active], next.active, past, exact)
  {
    assert Traced(s.logs[s.active], s.active, past, exact);
    match a {
      case CancelRun => CancelTraced(s, past, exact);
      case ResetConversation =>
        ResetKeepsSystem(s);
        ResetTraced(s, past, exact);
      case Remember(value) => RememberTraced(s, value, past, exact);
      case ForgetMemories => MemoryTraced(s, [], past, exact);
      case _ =>
        if a.BeginTurn? || a.Loop? || a.Audit? || a.EndTurn? {
          TurnTraced(s, a, past, exact);
        } else if a.ReplaceConversation? || a.FinishCompact? || a.Undo? || a.Fork? || a.Resume? {
          RewriteTraced(s, a, past, exact);
        }
    }
  }

  lemma FailedResumeTraced(s: Session, id: SessionId, past: Past, exact: bool)
    requires id in s.logs && Traced(s.logs[id], id, past, exact)
    requires (id, WithMemoryContext(Replay(s.logs[id]), s.memory)) in past
    ensures id in ResumeFails(s, id).logs && Traced(ResumeFails(s, id).logs[id], id, past, exact)
  {
    var messages := WithMemoryContext(Replay(s.logs[id]), s.memory);
    SwapTraced(s.logs[id], ReplacedBy(messages), id, past, messages, exact);
  }

  lemma {:induction false} LogTraced(s: Session, a: UseCase, past: Past, id: SessionId, exact: bool)
    requires TracedInv(s, past, exact) && Allows(s, a) && Suits(s, a, exact) && Moments(s, a) <= past
    requires id in Act(s, a).logs
    ensures Traced(Act(s, a).logs[id], id, past, exact)
  {
    var next := Act(s, a);
    if a.FailedResume? {
      if id == a.id {
        FailedResumeTraced(s, id, past, exact);
      }
    } else if id == next.active {
      ActiveLogTraced(s, a, past, exact);
    } else {
      ActKeepsOtherLogs(s, a, id);
    }
  }

  lemma AllTracedLonger(logs: map<SessionId, seq<Record>>, past: Past, more: Past, exact: bool)
    requires AllTraced(logs, past, exact)
    ensures AllTraced(logs, past + more, exact)
  {
    forall id | id in logs
      ensures Traced(logs[id], id, past + more, exact)
    {
      TracedLonger(logs[id], id, past, more, exact);
    }
  }

  lemma ActKeepsTraced(s: Session, a: UseCase, past: Past, exact: bool)
    requires TracedInv(s, past, exact) && Allows(s, a) && Suits(s, a, exact)
    ensures TracedInv(Act(s, a), past + Moments(s, a), exact)
  {
    var more := past + Moments(s, a);
    ActKeepsBase(s, a);
    if exact {
      ActAgreesExactly(s, a);
    }
    AllTracedLonger(s.logs, past, Moments(s, a), exact);
    forall id | id in Act(s, a).logs
      ensures Traced(Act(s, a).logs[id], id, more, exact)
    {
      LogTraced(s, a, more, id, exact);
    }
  }

  lemma {:induction false} TracedOverEveryHistory(s: Session, uses: seq<UseCase>, past: Past, exact: bool)
    requires TracedInv(s, past, exact) && AllAllowed(s, uses) && AllSuit(s, uses, exact)
    ensures TracedInv(ActAll(s, uses), past + PastOf(s, uses), exact)
    decreases |uses|
  {
    if uses == [] {
      assert past + {} == past;
    } else {
      ActKeepsTraced(s, uses[0], past, exact);
      TracedOverEveryHistory(Act(s, uses[0]), uses[1..], past + Moments(s, uses[0]), exact);
      assert past + Moments(s, uses[0]) + PastOf(Act(s, uses[0]), uses[1..]) == past + PastOf(s, uses);
    }
  }

  /** What the sessions in a store have been, before and in the course of `uses`. */
  function PastFrom(before: Past, s: Session, uses: seq<UseCase>): Past
    requires AllAllowed(s, uses)
  {
    before + {(s.active, Conversation(s))} + PastOf(s, uses)
  }

  lemma CreatedIsTraced(initial: seq<Message>, id: SessionId, logs: map<SessionId, seq<Record>>, memory: seq<string>,
                        before: Past, exact: bool)
    requires AllTraced(logs, before, exact)
    ensures var s := Created(initial, id, logs, memory);
            s.active == id && TracedInv(s, before + {(id, Conversation(s))}, exact)
  {
    CreatedSessionAgrees(initial, id, logs, memory);
    AllTracedLonger(logs, before, {(id, initial)}, exact);
    TracedCreated(initial, id, before + {(id, initial)}, initial, exact);
  }

  lemma {:induction false} HistoryIsTraced(initial: seq<Message>, id: SessionId, logs: map<SessionId, seq<Record>>,
                                           memory: seq<string>, before: Past, uses: seq<UseCase>, exact: bool)
    requires AllTraced(logs, before, exact)
    requires AllAllowed(Created(initial, id, logs, memory), uses)
    requires AllSuit(Created(initial, id, logs, memory), uses, exact)
    ensures var s := Created(initial, id, logs, memory);
            TracedInv(ActAll(s, uses), PastFrom(before, s, uses), exact)
  {
    var s := Created(initial, id, logs, memory);
    CreatedIsTraced(initial, id, logs, memory, before, exact);
    TracedOverEveryHistory(s, uses, before + {(id, Conversation(s))}, exact);
  }

  // ----- Crashes -----

  /** What a file cut anywhere reads as, and that it is explained. */
  ghost predicate ReadsAsPast(c: Codec<Record>, log: seq<Record>, cut: nat, id: SessionId, past: Past, exact: bool)
    requires cut <= |Frames(c, log)|
  {
    var reading := Read(c, Frames(c, log)[..cut]);
    reading.Records? && reading.records <= log && Explained(Replay(reading.records), id, past, exact)
  }

  lemma CutReadsAsPast(c: Codec<Record>, log: seq<Record>, cut: nat, id: SessionId, past: Past, exact: bool)
    requires Lawful(c) && Fits(c, log) && cut <= |Frames(c, log)| && Traced(log, id, past, exact)
    ensures ReadsAsPast(c, log, cut, id, past, exact)
  {
    var n := CutReadsPrefix(c, log, cut);
    TracedPrefix(log, n, id, past, exact);
  }

  /**
   Crash recovery, exactly: after any history from creation whose steps keep the replay, beside stored
   sessions with a past of their own, let any session's file be cut at any byte. It still reads, and
   what it reads replays to a conversation of that session's past, or to the beginning of one.
   */
  lemma {:induction false} CutLogIsPast(c: Codec<Record>, initial: seq<Message>, id: SessionId,
                                        logs: map<SessionId, seq<Record>>, memory: seq<string>, before: Past,
                                        uses: seq<UseCase>, file: SessionId, cut: nat)
    requires Lawful(c) && AllTraced(logs, before, true)
    requires var s := Created(initial, id, logs, memory); AllAllowed(s, uses) && AllKeepReplay(s, uses)
    requires var last := ActAll(Created(initial, id, logs, memory), uses);
             file in last.logs && Fits(c, last.logs[file]) && cut <= |Frames(c, last.logs[file])|
    ensures var s := Created(initial, id, logs, memory);
            ReadsAsPast(c, ActAll(s, uses).logs[file], cut, file, PastFrom(before, s, uses), true)
  {
    var s := Created(initial, id, logs, memory);
    HistoryIsTraced(initial, id, logs, memory, before, uses, true);
    CutReadsAsPast(c, ActAll(s, uses).logs[file], cut, file, PastFrom(before, s, uses), true);
  }

  /** Over every history at all, the same up to system messages. */
  lemma {:induction false} CutConversationIsPast(c: Codec<Record>, initial: seq<Message>, id: SessionId,
                                                 logs: map<SessionId, seq<Record>>, memory: seq<string>, before: Past,
                                                 uses: seq<UseCase>, file: SessionId, cut: nat)
    requires Lawful(c) && AllTraced(logs, before, false)
    requires AllAllowed(Created(initial, id, logs, memory), uses)
    requires var last := ActAll(Created(initial, id, logs, memory), uses);
             file in last.logs && Fits(c, last.logs[file]) && cut <= |Frames(c, last.logs[file])|
    ensures var s := Created(initial, id, logs, memory);
            ReadsAsPast(c, ActAll(s, uses).logs[file], cut, file, PastFrom(before, s, uses), false)
  {
    var s := Created(initial, id, logs, memory);
    HistoryIsTraced(initial, id, logs, memory, before, uses, false);
    CutReadsAsPast(c, ActAll(s, uses).logs[file], cut, file, PastFrom(before, s, uses), false);
  }
}
