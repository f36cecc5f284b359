/** Log and memory agree after every session step, and what breaks it. */
module SessionInvariant {
  import opened Outcomes
  import opened Protocol
  import opened Transcript
  import opened Machine
  import opened MachineInvariant
  import opened Execution
  import opened EngineSteps
  import opened EngineInvariant
  import opened SessionLog
  import opened History
  import opened SessionSteps

  /** The active log replays to the engine's conversation, all of it already emitted. */
  predicate Agrees(s: Session) {
    && s.active in s.logs
    && Replay(s.logs[s.active]) == Conversation(s)
    && s.emitted == |Conversation(s)|
  }

  /** The same up to system messages, which is what the provider's rule is about. */
  predicate Mirrors(s: Session) {
    && s.active in s.logs
    && NonSystem(Replay(s.logs[s.active])) == NonSystem(Conversation(s))
    && s.emitted == |Conversation(s)|
  }

  /** What every history keeps. */
  predicate BaseInv(s: Session) {
    && EngineInv(s.engine) && Mirrors(s)
    && (!s.holder.Turn? ==> s.engine.loop.Off?)
    && (s.holder.Compacting? ==> s.holder.keepNewest >= 1)
  }

  predicate SessionInv(s: Session) {
    BaseInv(s) && Agrees(s)
  }

  /** The conversation only grows, and what is appended survives being saved. */
  predicate Grows(before: seq<Message>, after: seq<Message>) {
    before <= after && forall m :: m in after[|before|..] ==> Canonical(m)
  }

  lemma {:induction false} AnswersAreCanonical(cs: seq<Change>)
    requires forall c :: c in cs ==> c.AppendToolResult?
    ensures forall m :: m in AnswerMessages(cs) ==> Canonical(m)
  {
    if cs != [] {
      AnswersAreCanonical(cs[..|cs| - 1]);
    }
  }

  lemma EndGrows(d: Data, running: string, notExecuted: string)
    requires Valid(d)
    ensures Grows(d.messages, EndMessages(d, running, notExecuted))
  {
    OutstandingAnswersOwed(d, running, notExecuted);
    var answers := AnswerMessages(Outstanding(SnapshotFrom(d).value, running, notExecuted));
    AnswersAreCanonical(Outstanding(SnapshotFrom(d).value, running, notExecuted));
    assert EndMessages(d, running, notExecuted)[|d.messages|..] == Flushed(d)[|d.messages|..] + answers;
  }

  lemma OneMoreGrows(before: seq<Message>, m: Message)
    requires Canonical(m)
    ensures Grows(before, before + [m]) && Grows(before, before)
  {
    assert (before + [m])[|before|..] == [m];
  }

  /** Every event but an end or a reset appends one message at most. */
  lemma StepGrows(d: Data, e: Event)
    requires Accepted(d, e) && !Terminal(e)
    ensures Grows(d.messages, After(d, e).messages)
  {
    var next := After(d, e).messages;
    if next != d.messages {
      assert |next| == |d.messages| + 1 && next == d.messages + [next[|d.messages|]];
      OneMoreGrows(d.messages, next[|d.messages|]);
    }
  }

  lemma {:induction false} AfterGrows(d: Data, e: Event)
    requires Accepted(d, e) && !e.ResetRequested?
    ensures Grows(d.messages, After(d, e).messages)
  {
    match e {
      case ErrorOccurred(err) =>
        var reason := if err.Some? then err.value else "unknown runtime error";
        EndGrows(d, reason, "not executed: " + reason);
      case CancelRequested => EndGrows(d, "cancelled", "not executed: cancelled");
      case _ => StepGrows(d, e);
    }
  }

  lemma GrowsTwice(a: seq<Message>, b: seq<Message>, c: seq<Message>)
    requires Grows(a, b) && Grows(b, c)
    ensures Grows(a, c)
  {
    assert c[|a|..] == b[|a|..] + c[|b|..];
  }

  lemma FailGrows(e: Engine, outcome: Outcome)
    requires Failable(e) && !outcome.Finished?
    ensures Grows(e.data.messages, Fail(e, outcome).data.messages)
  {
    if outcome.WasCancelled? {
      TerminalEventSettles(EngineSteps.CancelRun(e), CancelRequested);
      AfterGrows(e.data, CancelRequested);
    } else {
      var event := ErrorOccurred(Some(outcome.message));
      TerminalEventSettles(e, event);
      AfterGrows(e.data, event);
    }
  }

  lemma CompleteGrows(e: Engine, env: Env)
    requires EngineInv(e) && e.loop.Executing?
    ensures Grows(e.data.messages, CompleteAction(e, env).data.messages)
  {
    match Execute(env.ports, e.loop.queued.action) {
      case Finished(result) =>
        if IsCurrent(e, e.loop.queued.run) {
          match Resolve(result, e.data.batch, env.specs, env.policy) {
            case Err(message) => FailGrows(e, Outcome.Failed(message));
            case Ok(event) =>
              CompletionCommits(e, env, event);
              AfterGrows(e.data, event);
              if RememberError(env.policy, event).Some? {
                FailGrows(Committed(e, event), Outcome.Failed(RememberError(env.policy, event).value));
                GrowsTwice(e.data.messages, After(e.data, event).messages, CompleteAction(e, env).data.messages);
              }
          }
        }
      case WasCancelled => FailGrows(e, WasCancelled);
      case Failed(message) => FailGrows(e, Outcome.Failed(message));
    }
  }

  lemma StartGrows(e: Engine, text: string, attachments: seq<Attachment>)
    requires EngineInv(e)
    ensures Grows(e.data.messages, Start(e, text, attachments).data.messages)
  {
    var event := UserMessageSubmitted(text, attachments);
    if Accepted(e.data, event) {
      AcceptedIsHandled(e.data, event);
      AfterGrows(e.data, event);
      CommitPlanShape(e.(run := e.run + 1, active := true), After(e.data, event), PlanFor(e.data, event));
    }
  }

  /** What a use case owes: the base invariant, and agreement if there was agreement. */
  predicate Keeps(s: Session, next: Session) {
    BaseInv(next) && (Agrees(s) ==> Agrees(next))
  }

  lemma {:induction false} SavedBehind(log: seq<Record>, before: seq<Message>, more: seq<Message>)
    requires NonSystem(Replay(log)) == NonSystem(before)
    requires forall m :: m in more ==> Canonical(m)
    ensures NonSystem(Replay(log + RecordsFor(more))) == NonSystem(before + more)
    ensures Replay(log) == before ==> Replay(log + RecordsFor(more)) == before + more
  {
    SavedMessagesReplay(log, more);
    SameBehind(Replay(log), before, more);
  }

  /** Emitting after the conversation grew restores agreement. */
  lemma {:induction false} EmitAgrees(s: Session, before: seq<Message>)
    requires s.active in s.logs && s.emitted == |before| && Grows(before, Conversation(s))
    requires NonSystem(Replay(s.logs[s.active])) == NonSystem(before)
    ensures Mirrors(Emit(s)) && (Replay(s.logs[s.active]) == before ==> Agrees(Emit(s)))
  {
    var more := Conversation(s)[|before|..];
    SavedBehind(s.logs[s.active], before, more);
    EmitShape(s, before);
  }

  lemma EmitShape(s: Session, before: seq<Message>)
    requires s.active in s.logs && s.emitted == |before| && before <= Conversation(s)
    ensures var more, next := Conversation(s)[|before|..], Emit(s);
            && before + more == Conversation(s) == Conversation(next)
            && next.active == s.active && s.active in next.logs && next.emitted == |Conversation(next)|
            && next.logs[s.active] == s.logs[s.active] + RecordsFor(more)
  {
  }

  lemma {:induction false} SameBehind(a: seq<Message>, b: seq<Message>, more: seq<Message>)
    requires NonSystem(a) == NonSystem(b)
    ensures NonSystem(a + more) == NonSystem(b + more)
  {
    NonSystemConcat(a, more);
    NonSystemConcat(b, more);
  }

  lemma AuditKeepsReplay(records: seq<Record>, r: Record)
    requires IsAudit(r)
    ensures Replay(records + [r]) == Replay(records)
  {
    ReplayAppend(records, r);
  }

  lemma RewriteAgrees(s: Session, record: Record, messages: seq<Message>)
    requires s.active in s.logs
    requires ReplayRecord(Replay(s.logs[s.active]), record) == messages
    ensures Agrees(Rewrite(s, record, messages))
  {
    ReplayAppend(s.logs[s.active], record);
  }

  lemma CancelGrows(e: Engine)
    requires EngineInv(e)
    ensures EngineInv(Step(e, Cancel))
    ensures Grows(e.data.messages, Step(e, Cancel).data.messages)
    ensures Quiet(e.data) ==> Step(e, Cancel).data.messages == e.data.messages
    ensures Step(e, Cancel).loop == e.loop
  {
    StepKeepsEngineInv(e, Cancel);
    TerminalEventSettles(EngineSteps.CancelRun(e), CancelRequested);
    AfterGrows(e.data, CancelRequested);
    if Quiet(e.data) {
      QuietEndChangesNothing(e.data, "cancelled", "not executed: cancelled");
    }
  }

  lemma AuditAgrees(s: Session, r: Record)
    requires Mirrors(s) && IsAudit(r)
    ensures Mirrors(Append(s, [r])) && (Agrees(s) ==> Agrees(Append(s, [r])))
  {
    AuditKeepsReplay(s.logs[s.active], r);
  }

  lemma AuditKeeps(s: Session, r: Record)
    requires BaseInv(s) && IsAudit(r)
    ensures Keeps(s, Append(s, [r]))
  {
    AuditAgrees(s, r);
  }

  /** Up to the record: what a running turn's observer has emitted by then. */
  function Unrecorded(s: Session): Session
    requires s.active in s.logs && Machine.Valid(s.engine.data)
  {
    var cancelled := s.(engine := Step(s.engine, Cancel));
    if s.holder.Turn? then Emit(cancelled) else cancelled
  }

  lemma CancelledAgrees(s: Session)
    requires BaseInv(s)
    ensures Keeps(s, Unrecorded(s))
  {
    CancelGrows(s.engine);
    if s.holder.Turn? {
      EmitAgrees(s.(engine := Step(s.engine, Cancel)), Conversation(s));
    }
  }

  lemma CancelAgrees(s: Session)
    requires BaseInv(s)
    ensures Keeps(s, Act(s, SessionSteps.CancelRun))
  {
    CancelledAgrees(s);
    AuditKeeps(Unrecorded(s), Bare(Kind.Cancelled));
  }

  lemma ResetStep(e: Engine)
    requires EngineInv(e)
    ensures EngineInv(Step(e, Reset)) && Step(e, Reset).loop == e.loop
    ensures Step(e, Reset).data.messages == SystemMessages(e.data.messages)
  {
    StepKeepsEngineInv(e, Reset);
    TerminalEventSettles(EngineSteps.CancelRun(EngineSteps.CancelRun(e)), ResetRequested);
  }

  lemma NoSystemLeft(messages: seq<Message>)
    ensures NonSystem(SystemMessages(messages)) == []
  {
    FiltersIdempotent(messages);
    FilterOfUniform(SystemMessages(messages));
  }

  lemma ResetAgrees(s: Session)
    requires BaseInv(s) && !s.holder.Turn?
    ensures Keeps(s, ResetIdle(s))
  {
    ResetStep(s.engine);
    ReplayAppend(s.logs[s.active], Bare(WasReset));
    NoSystemLeft(Replay(s.logs[s.active]));
    NoSystemLeft(Conversation(s));
  }

  lemma BeginAgrees(s: Session, text: string, attachments: seq<Attachment>)
    requires BaseInv(s) && Allows(s, BeginTurn(text, attachments))
    ensures Keeps(s, Act(s, BeginTurn(text, attachments)))
  {
    StepKeepsEngineInv(s.engine, StartTurn(text, attachments));
    StartGrows(s.engine, text, attachments);
    EmitAgrees(s.(engine := Start(s.engine, text, attachments), holder := Turn), Conversation(s));
  }

  lemma LoopAgrees(s: Session, step: Label)
    requires BaseInv(s) && Allows(s, Loop(step))
    ensures Keeps(s, Act(s, Loop(step)))
  {
    StepKeepsEngineInv(s.engine, step);
    match step {
      case Complete(env) =>
        CompleteGrows(s.engine, env);
        EmitAgrees(s.(engine := Step(s.engine, step)), Conversation(s));
      case Chunk(run, chunk) => StreamChunkCommit(s.engine.data, chunk);
      case Pop =>
    }
  }

  lemma ForkAgrees(s: Session, id: SessionId)
    requires BaseInv(s) && Allows(s, Fork(id))
    ensures Keeps(s, Act(s, Fork(id))) && Agrees(Act(s, Fork(id)))
  {
    CreatedLogReplays(Conversation(s));
    StepKeepsEngineInv(s.engine, Replace(Conversation(s)));
  }

  lemma UndoAgrees(s: Session)
    requires BaseInv(s) && Allows(s, Undo)
    ensures Keeps(s, Act(s, Undo))
  {
    match UndoPointOf(s.logs[s.active]) {
      case None =>
      case Some((checkpoint, messages, index)) =>
        UndoIsSoundAndIdempotent(s.logs[s.active], checkpoint, messages, index);
        StepKeepsEngineInv(s.engine, Replace(messages));
    }
  }

  /** Whatever is stored and swapped in together agrees. */
  lemma SwapAgrees(s: Session, record: Record, messages: seq<Message>)
    requires EngineInv(s.engine) && s.active in s.logs && s.holder.Free? && s.engine.loop.Off?
    requires ReplayRecord(Replay(s.logs[s.active]), record) == messages
    ensures SessionInv(Rewrite(s, record, messages))
  {
    StepKeepsEngineInv(s.engine, Replace(messages));
    RewriteAgrees(s, record, messages);
  }

  lemma CompactAgrees(s: Session, summary: string)
    requires BaseInv(s) && Allows(s, FinishCompact(summary))
    ensures SessionInv(Act(s, FinishCompact(summary)))
  {
    var kept := CompactedFrom(s.holder.current, summary, s.holder.keepNewest);
    SwapAgrees(s.(holder := Free), Bare(Kind.Compacted).(compact := Some(Compact(summary, s.holder.current, kept))),
               kept);
  }

  lemma ResumeAgrees(s: Session, id: SessionId)
    requires BaseInv(s) && Allows(s, Resume(id))
    ensures SessionInv(Act(s, Resume(id)))
  {
    var messages := WithMemoryContext(Replay(s.logs[id]), s.memory);
    SwapAgrees(s.(active := id), ReplacedBy(messages), messages);
  }

  lemma MemoryAgrees(s: Session, items: seq<string>)
    requires BaseInv(s) && s.holder.Free?
    ensures SessionInv(ReplaceMemory(s, items))
  {
    var kept := WithMemoryContext(Conversation(s), items);
    SwapAgrees(s, ReplacedBy(kept), kept);
  }

  // ----- A reset during a turn, and a resume that fails late -----

  lemma {:induction false} SystemMessagesShorter(messages: seq<Message>)
    ensures |SystemMessages(messages)| + |NonSystem(messages)| == |messages|
    ensures NonSystem(messages) == [] ==> SystemMessages(messages) == messages
  {
    if messages != [] {
      SystemMessagesShorter(messages[..|messages| - 1]);
    }
  }

  lemma SystemMessagesAreCanonical(messages: seq<Message>)
    ensures forall m :: m in SystemMessages(messages) ==> Canonical(m)
  {
    FiltersIdempotent(messages);
  }

  /** Emitting behind a mark at or past the end saves nothing, or everything once more. */
  lemma EmitPastTheEnd(s: Session)
    requires s.active in s.logs && s.emitted >= |Conversation(s)|
    requires forall m :: m in Conversation(s) ==> Canonical(m)
    ensures Conversation(Emit(s)) == Conversation(s) && Emit(s).active == s.active && s.active in Emit(s).logs
    ensures Replay(Emit(s).logs[s.active])
         == Replay(s.logs[s.active]) + (if s.emitted == |Conversation(s)| then [] else Conversation(s))
  {
    var from := if s.emitted > |Conversation(s)| then 0 else s.emitted;
    SavedMessagesReplay(s.logs[s.active], Conversation(s)[from..]);
  }

  lemma MidTurnReplay(s: Session)
    requires BaseInv(s)
    ensures var kept, next := SystemMessages(Conversation(s)), ResetDuringTurn(s);
            && Conversation(next) == kept && next.active == s.active && s.active in next.logs
            && Replay(next.logs[s.active])
               == SystemMessages(Replay(s.logs[s.active])) + (if NonSystem(Conversation(s)) == [] then [] else kept)
  {
    SystemMessagesShorter(Conversation(s));
    SystemMessagesAreCanonical(Conversation(s));
    ResetRecorded(s);
    EmitPastTheEnd(Append(s, [Bare(WasReset)]).(engine := Step(s.engine, Reset)));
  }

  lemma ResetRecorded(s: Session)
    requires BaseInv(s)
    ensures var reset := Append(s, [Bare(WasReset)]).(engine := Step(s.engine, Reset));
            && Conversation(reset) == SystemMessages(Conversation(s))
            && reset.active == s.active && s.active in reset.logs && reset.emitted == s.emitted
            && Replay(reset.logs[s.active]) == SystemMessages(Replay(s.logs[s.active]))
  {
    ResetStep(s.engine);
    ReplayAppend(s.logs[s.active], Bare(WasReset));
  }

  lemma MidTurnResetKeepsBase(s: Session)
    requires BaseInv(s) && s.holder.Turn?
    ensures BaseInv(ResetDuringTurn(s))
  {
    ResetStep(s.engine);
    MidTurnReplay(s);
    MidTurnReplayHasNoRest(Replay(s.logs[s.active]), Conversation(s));
  }

  lemma MidTurnReplayHasNoRest(replayed: seq<Message>, messages: seq<Message>)
    ensures NonSystem(SystemMessages(messages)) == []
    ensures NonSystem(SystemMessages(replayed)
                      + (if NonSystem(messages) == [] then [] else SystemMessages(messages))) == []
  {
    NoSystemLeft(messages);
    NoSystemLeft(replayed);
    NonSystemConcat(SystemMessages(replayed), SystemMessages(messages));
    assert SystemMessages(replayed) + [] == SystemMessages(replayed);
  }

  /**
   Replay survives a reset during a turn exactly when the conversation holds no system message,
   or nothing else: otherwise the kept messages are saved a second time and replay doubles them.
   */
  lemma MidTurnResetAgreesExactly(s: Session)
    requires SessionInv(s) && s.holder.Turn?
    ensures var next := ResetDuringTurn(s);
            && Conversation(next) == SystemMessages(Conversation(s))
            && (Agrees(next) <==> SystemMessages(Conversation(s)) == [] || NonSystem(Conversation(s)) == [])
  {
    MidTurnReplay(s);
  }

  lemma PromptIsDoubled(s: Session, prompt: string, text: string)
    requires SessionInv(s) && s.engine.data.state.Idle? && Allows(s, BeginTurn(text, []))
    requires Conversation(s) == [SystemMessage(prompt)]
    ensures var turn := Act(s, BeginTurn(text, []));
            && Allows(turn, SessionSteps.ResetConversation)
            && var next := Act(turn, SessionSteps.ResetConversation);
               && Conversation(next) == [SystemMessage(prompt)] && next.active in next.logs
               && Replay(next.logs[next.active]) == [SystemMessage(prompt), SystemMessage(prompt)]
  {
    TurnBegins(s, text);
    PromptAndQuestion(prompt, text);
    MidTurnReplay(Act(s, BeginTurn(text, [])));
  }

  /** The shortest case: a session with one system message, its first turn, a reset. */
  lemma {:induction false} MidTurnResetDoubles(id: SessionId, prompt: string, text: string)
    ensures var s := Created([SystemMessage(prompt)], id, map[], []);
            var uses := [BeginTurn(text, [])] + [SessionSteps.ResetConversation];
            && AllAllowed(s, uses)
            && var last := ActAll(s, uses);
               && Conversation(last) == [SystemMessage(prompt)] && last.active in last.logs
               && Replay(last.logs[last.active]) == [SystemMessage(prompt), SystemMessage(prompt)]
  {
    var initial := [SystemMessage(prompt)];
    var s := Created(initial, id, map[], []);
    CreatedSessionAgrees(initial, id, map[], []);
    CreatedIsIdle(initial);
    PromptIsDoubled(s, prompt, text);
    ActTwice(s, BeginTurn(text, []), SessionSteps.ResetConversation);
  }

  lemma ActTwice(s: Session, a: UseCase, b: UseCase)
    requires Allows(s, a) && Allows(Act(s, a), b)
    ensures AllAllowed(s, [a] + [b]) && ActAll(s, [a] + [b]) == Act(Act(s, a), b)
  {
    assert ([a] + [b])[1..] == [b];
    assert AllAllowed(Act(s, a), [b]);
    assert ActAll(Act(s, a), [b]) == Act(Act(s, a), b);
  }

  lemma TurnBegins(s: Session, text: string)
    requires SessionInv(s) && s.engine.data.state.Idle? && Allows(s, BeginTurn(text, []))
    ensures var turn := Act(s, BeginTurn(text, []));
            && SessionInv(turn) && turn.holder.Turn? && turn.active == s.active
            && Conversation(turn) == Conversation(s) + [UserMessage(text, [])]
  {
    BeginAgrees(s, text, []);
    UserJoins(s.engine, text, []);
  }

  lemma PromptAndQuestion(prompt: string, text: string)
    ensures var messages := [SystemMessage(prompt)] + [UserMessage(text, [])];
            SystemMessages(messages) == [SystemMessage(prompt)] && NonSystem(messages) != []
  {
    FiltersConcat([SystemMessage(prompt)], [UserMessage(text, [])]);
    FilterOfUniform([SystemMessage(prompt)]);
    FilterOfUniform([UserMessage(text, [])]);
  }

  lemma CreatedIsIdle(initial: seq<Message>)
    ensures var e := Dispatch(Initial(initial), EngineReady);
            EngineInv(e) && e.data.state.Idle? && e.loop.Off? && e.data.messages == initial
  {
    InitialInv(initial);
    ReadyKeeps(Initial(initial));
    AcceptedIsHandled(Initial(initial).data, EngineReady);
    CommitPlanShape(Initial(initial), After(Initial(initial).data, EngineReady),
                    PlanFor(Initial(initial).data, EngineReady));
  }

  lemma UserJoins(e: Engine, text: string, attachments: seq<Attachment>)
    requires EngineInv(e) && e.data.state.Idle?
    ensures Start(e, text, attachments).data.messages == e.data.messages + [UserMessage(text, attachments)]
  {
    var event := UserMessageSubmitted(text, attachments);
    AcceptedIsHandled(e.data, event);
    CommitPlanShape(e.(run := e.run + 1, active := true), After(e.data, event), PlanFor(e.data, event));
  }

  lemma FailedResumeShape(s: Session, id: SessionId)
    requires id in s.logs
    ensures var next := ResumeFails(s, id);
            && next == s.(logs := next.logs) && id in next.logs
            && Replay(next.logs[id]) == WithMemoryContext(Replay(s.logs[id]), s.memory)
            && forall other :: other in s.logs ==>
                                 other in next.logs && (other != id ==> next.logs[other] == s.logs[other])
  {
    ReplayAppend(s.logs[id], ReplacedBy(WithMemoryContext(Replay(s.logs[id]), s.memory)));
  }

  /** A resume that fails at activation swaps nothing but has stored the replacement. */
  lemma FailedResumeKeepsBase(s: Session, id: SessionId)
    requires BaseInv(s) && Allows(s, FailedResume(id))
    ensures BaseInv(Act(s, FailedResume(id)))
  {
    FailedResumeShape(s, id);
    MemoryKeepsConversation(Replay(s.logs[id]), s.memory);
  }

  lemma FailedResumeAgreesExactly(s: Session, id: SessionId)
    requires SessionInv(s) && Allows(s, FailedResume(id))
    ensures Agrees(Act(s, FailedResume(id)))
       <==> (id == s.active ==> WithMemoryContext(Conversation(s), s.memory) == Conversation(s))
  {
    FailedResumeShape(s, id);
  }

  /**
   A session that is created beside a memory has the memory message last. A resume of it that fails at
   activation has stored the memory message first, so its log no longer replays to its conversation.
   */
  lemma {:induction false} FreshSessionCanPart(id: SessionId, logs: map<SessionId, seq<Record>>, rules: string,
                                               items: seq<string>)
    requires items != [] && !IsMemory(SystemMessage(rules))
    ensures var s := Created([SystemMessage(rules)] + [MemoryMessage(items)], id, logs, items);
            && SessionInv(s) && Allows(s, FailedResume(id))
            && var next := Act(s, FailedResume(id));
               && Conversation(next) == [SystemMessage(rules), MemoryMessage(items)] && next.active in next.logs
               && Replay(next.logs[next.active]) == [MemoryMessage(items), SystemMessage(rules)]
               && !Agrees(next)
  {
    var front, memory := [SystemMessage(rules)], MemoryMessage(items);
    var s := Created(front + [memory], id, logs, items);
    CreatedSessionAgrees(front + [memory], id, logs, items);
    WithoutMemoryPush(front, memory);
    WithoutMemoryOf(front);
    assert WithMemoryContext(front + [memory], items) == [memory] + front;
    FailedResumeShape(s, id);
  }

  // ----- Every history -----

  /** The two use cases that can part log and memory, and when they do not. */
  predicate KeepsReplay(s: Session, a: UseCase) {
    match a
    case ResetConversation =>
      s.holder.Turn? ==> SystemMessages(Conversation(s)) == [] || NonSystem(Conversation(s)) == []
    case FailedResume(id) =>
      id == s.active ==> WithMemoryContext(Conversation(s), s.memory) == Conversation(s)
    case _ => true
  }

  predicate Parts(s: Session, a: UseCase) {
    (a.ResetConversation? && s.holder.Turn?) || a.FailedResume?
  }

  lemma OtherActsKeep(s: Session, a: UseCase)
    requires BaseInv(s) && Allows(s, a) && !Parts(s, a)
    ensures Keeps(s, Act(s, a))
  {
    match a {
      case BeginTurn(text, attachments) => BeginAgrees(s, text, attachments);
      case Loop(step) => LoopAgrees(s, step);
      case Audit(record) => AuditKeeps(s, record);
      case EndTurn => EmitAgrees(s, Conversation(s));
      case CancelRun => CancelAgrees(s);
      case ResetConversation => ResetAgrees(s);
      case ReplaceConversation(messages) => SwapAgrees(s, ReplacedBy(messages), messages);
      case FinishCompact(summary) => CompactAgrees(s, summary);
      case Undo => UndoAgrees(s);
      case Fork(id) => ForkAgrees(s, id);
      case Resume(id) => ResumeAgrees(s, id);
      case Remember(value) => MemoryAgrees(s, s.memory + [value]);
      case ForgetMemories => MemoryAgrees(s, []);
      case _ =>
    }
  }

  lemma ActKeepsBase(s: Session, a: UseCase)
    requires BaseInv(s) && Allows(s, a)
    ensures BaseInv(Act(s, a))
  {
    if !Parts(s, a) {
      OtherActsKeep(s, a);
    } else if a.FailedResume? {
      FailedResumeKeepsBase(s, a.id);
    } else {
      MidTurnResetKeepsBase(s);
    }
  }

  /** Every use case changes one log at most: the one that is active behind it, or a failed resume's. */
  lemma ActKeepsOtherLogs(s: Session, a: UseCase, id: SessionId)
    requires Allows(s, a) && id in Act(s, a).logs && id != Act(s, a).active && !(a.FailedResume? && a.id == id)
    ensures id in s.logs && Act(s, a).logs[id] == s.logs[id]
  {
  }

  /** From agreement, a use case leads to agreement if and only if it keeps the replay. */
  lemma ActAgreesExactly(s: Session, a: UseCase)
    requires SessionInv(s) && Allows(s, a)
    ensures BaseInv(Act(s, a)) && (Agrees(Act(s, a)) <==> KeepsReplay(s, a))
  {
    ActKeepsBase(s, a);
    if !Parts(s, a) {
      OtherActsKeep(s, a);
    } else if a.FailedResume? {
      FailedResumeAgreesExactly(s, a.id);
    } else {
      MidTurnResetAgreesExactly(s);
    }
  }

  predicate AllKeepReplay(s: Session, uses: seq<UseCase>)
    requires AllAllowed(s, uses)
    decreases |uses|
  {
    uses == [] || (KeepsReplay(s, uses[0]) && AllKeepReplay(Act(s, uses[0]), uses[1..]))
  }

  /**
   Log replay agrees with memory: from creation on, after every step of every history of turns,
   cancels, resets, compactions, undos, forks, resumes, memory changes and replacements, as long as
   no step is one of the two that part them.
   */
  lemma {:induction false} ReplayAgreesOverEveryHistory(s: Session, uses: seq<UseCase>)
    requires SessionInv(s) && AllAllowed(s, uses) && AllKeepReplay(s, uses)
    ensures SessionInv(ActAll(s, uses))
    decreases |uses|
  {
    if uses != [] {
      ActAgreesExactly(s, uses[0]);
      ReplayAgreesOverEveryHistory(Act(s, uses[0]), uses[1..]);
    }
  }

  /** Over every history at all, log and memory agree on everything but system messages. */
  lemma {:induction false} ConversationIsStoredOverEveryHistory(s: Session, uses: seq<UseCase>)
    requires BaseInv(s) && AllAllowed(s, uses)
    ensures BaseInv(ActAll(s, uses))
    decreases |uses|
  {
    if uses != [] {
      ActKeepsBase(s, uses[0]);
      ConversationIsStoredOverEveryHistory(Act(s, uses[0]), uses[1..]);
    }
  }

  /** A session created over a ready engine that holds the initial messages starts in agreement. */
  lemma CreatedSessionAgrees(initial: seq<Message>, id: SessionId, logs: map<SessionId, seq<Record>>,
                             memory: seq<string>)
    ensures SessionInv(Created(initial, id, logs, memory))
    ensures Created(initial, id, logs, memory).engine.data.state.Idle?
    ensures Conversation(Created(initial, id, logs, memory)) == initial
  {
    CreatedIsIdle(initial);
    CreatedLogReplays(initial);
  }

  // ----- A reset while a compaction is under way -----

  predicate AllowedWhileCompacting(a: UseCase) {
    a.CancelRun? || a.ResetConversation? || a.Loop?
  }

  lemma {:induction false} CompactionHolds(s: Session, uses: seq<UseCase>)
    requires s.holder.Compacting? && AllAllowed(s, uses) && forall a :: a in uses ==> AllowedWhileCompacting(a)
    ensures ActAll(s, uses).holder == s.holder
    decreases |uses|
  {
    if uses != [] {
      assert uses[0] in uses;
      CompactionHolds(Act(s, uses[0]), uses[1..]);
    }
  }

  /**
   A compaction swaps in what it read at its start. Whatever is cancelled or reset in the meantime is
   restored: the conversation behind it is the compaction of the old one, which is never empty.
   */
  lemma {:induction false} CompactionRestoresWhatWasReset(s: Session, keepNewest: int,
                                                          between: seq<UseCase>, summary: string)
    requires Allows(s, BeginCompact(keepNewest)) && CompactStart(s, keepNewest).holder.Compacting?
    requires AllAllowed(CompactStart(s, keepNewest), between)
    requires forall a :: a in between ==> AllowedWhileCompacting(a)
    requires Allows(ActAll(CompactStart(s, keepNewest), between), FinishCompact(summary))
    ensures var keep: nat := if keepNewest < 1 then 4 else keepNewest;
            var last := Act(ActAll(CompactStart(s, keepNewest), between), FinishCompact(summary));
            && Conversation(last) == CompactedFrom(Conversation(s), summary, keep)
            && NonSystem(Conversation(last)) != []
  {
    var keep: nat := if keepNewest < 1 then 4 else keepNewest;
    CompactionHolds(CompactStart(s, keepNewest), between);
    CompactedParts(Conversation(s), summary, keep);
    WidenedStartIsLatest(NonSystem(Conversation(s)), |NonSystem(Conversation(s))| - keep);
  }

  // ----- Undo and completeness -----

  /**
   A checkpoint is taken while a tool runs, so the transcript that a later undo hands back is never
   complete: it ends in the block whose tool was about to run, answered short of that call.
   */
  lemma UndoLeavesOpenBlock(s: Session, checkpoint: Record, more: seq<Record>)
    requires SessionInv(s) && Consistent(s.engine.data) && s.engine.data.state.RunningTool?
    requires UndoPoint(checkpoint)
    requires forall r :: r in more ==> !UndoPoint(r)
    ensures var found := UndoPointOf(s.logs[s.active] + [checkpoint] + more);
            && found.Some? && found.value.1 == Conversation(s)
            && !Transcript.Complete(found.value.1)
            && Scan(found.value.1) == InBlock(s.engine.data.batch.value.calls, s.engine.data.batch.value.index - 1)
  {
    var log := s.logs[s.active];
    UndoPointSurvives(log + [checkpoint], more);
    assert (log + [checkpoint])[..|log|] == log;
  }

  // ----- Completeness over session histories -----

  /** Every way in for a transcript that the session did not build: it must be complete. */
  predicate Trusted(s: Session, a: UseCase)
    requires Allows(s, a)
  {
    match a
    case Undo => UndoPointOf(s.logs[s.active]).None?
    case Resume(id) => Transcript.Complete(Replay(s.logs[id]))
    case ReplaceConversation(messages) => Transcript.Complete(messages)
    case _ => true
  }

  predicate AllTrusted(s: Session, uses: seq<UseCase>)
    requires AllAllowed(s, uses)
    decreases |uses|
  {
    uses == [] || (Trusted(s, uses[0]) && AllTrusted(Act(s, uses[0]), uses[1..]))
  }

  predicate CompleteInv(s: Session) {
    BaseInv(s) && Consistent(s.engine.data)
    && (s.holder.Compacting? ==> Transcript.Complete(s.holder.current))
  }

  lemma ActKeepsComplete(s: Session, a: UseCase)
    requires CompleteInv(s) && Allows(s, a) && Trusted(s, a)
    ensures CompleteInv(Act(s, a))
  {
    ActKeepsBase(s, a);
    match a {
      case BeginTurn(text, attachments) => StepKeepsConsistent(s.engine, StartTurn(text, attachments));
      case Loop(step) => StepKeepsConsistent(s.engine, step);
      case CancelRun => StepKeepsConsistent(s.engine, Cancel);
      case ResetConversation => StepKeepsConsistent(s.engine, Reset);
      case FinishCompact(summary) =>
        var kept, rest, keptRest := CompactionPreservesCompleteness(s.holder.current, summary, s.holder.keepNewest);
      case Resume(id) => MemoryIsReplaced(Replay(s.logs[id]), [], s.memory);
      case Remember(value) => MemoryIsReplaced(Conversation(s), [], s.memory + [value]);
      case ForgetMemories => MemoryIsReplaced(Conversation(s), [], []);
      case _ =>
    }
  }

  /** Over every trusted history, the stored transcript of an idle session is complete. */
  lemma {:induction false} StoredTranscriptIsComplete(s: Session, uses: seq<UseCase>)
    requires CompleteInv(s) && AllAllowed(s, uses) && AllTrusted(s, uses)
    ensures var last := ActAll(s, uses);
            && CompleteInv(last)
            && (Quiet(last.engine.data) ==> Transcript.Complete(Replay(last.logs[last.active])))
    decreases |uses|
  {
    if uses == [] {
      CompleteIgnoresSystem(Conversation(s));
      CompleteIgnoresSystem(Replay(s.logs[s.active]));
    } else {
      ActKeepsComplete(s, uses[0]);
      StoredTranscriptIsComplete(Act(s, uses[0]), uses[1..]);
    }
  }
}
