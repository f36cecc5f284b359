/** The layers in one statement: from a created session to the requests the provider is sent. */
module EndToEnd {
  import opened Protocol
  import opened Transcript
  import opened TalkedOver
  import opened Machine
  import opened MachineInvariant
  import opened EngineSteps
  import opened EngineInvariant
  import opened OrderlyRuns
  import opened SessionLog
  import opened History
  import opened SessionSteps
  import opened SessionInvariant
  import opened SessionOrder
  import opened Claude
  import opened ClaudePairing

  /** The model is being called for the run that is still current. */
  predicate CallsModel(e: Engine) {
    e.loop.Executing? && IsCurrent(e, e.loop.queued.run) && e.loop.queued.action.CallModel?
  }

  /**
   What the provider is being sent: the conversation, when the turn loop calls the model, and the
   conversation with `prompt` behind it, when a compaction asks for its summary.
   */
  function Requests(s: Session, prompt: string): seq<seq<Message>> {
    (if CallsModel(s.engine) then [Conversation(s)] else [])
    + (if s.holder.Compacting? then [s.holder.current + [UserMessage(prompt, [])]] else [])
  }

  predicate WellFormed<J>(d: Decoders<J>, request: seq<Message>) {
    Alternating(ToClaude(d, NonSystem(request))) && Paired(ToClaude(d, NonSystem(request)))
  }

  predicate PairsExactly<J>(d: Decoders<J>, request: seq<Message>) {
    && Alternating(ToClaude(d, NonSystem(request)))
    && (Paired(ToClaude(d, NonSystem(request))) <==> !IsTalkedOver(request))
  }

  // ----- Histories that bring complete transcripts only -----

  lemma CreatedIsComplete(initial: seq<Message>, id: SessionId, logs: map<SessionId, seq<Record>>, memory: seq<string>)
    requires Transcript.Complete(initial)
    ensures CompleteInv(Created(initial, id, logs, memory))
  {
    InitialInv(initial);
    CreatedSessionAgrees(initial, id, logs, memory);
    DispatchConsistent(Initial(initial), EngineReady);
  }

  lemma SummaryRequestIsComplete(current: seq<Message>, prompt: string)
    requires Transcript.Complete(current)
    ensures Transcript.Complete(current + [UserMessage(prompt, [])])
  {
    ScanAppend(current, UserMessage(prompt, []));
  }

  lemma RequestsAreComplete(s: Session, prompt: string, request: seq<Message>)
    requires CompleteInv(s) && request in Requests(s, prompt)
    ensures Transcript.Complete(request)
  {
    if s.holder.Compacting? {
      SummaryRequestIsComplete(s.holder.current, prompt);
    }
  }

  /**
   Every request of every trusted session history is well formed: roles alternate and every tool use
   is answered by the message behind it. The log already holds the conversation.
   */
  lemma {:induction false} EveryRequestIsPaired<J>(d: Decoders<J>, initial: seq<Message>, id: SessionId,
                                                   logs: map<SessionId, seq<Record>>, memory: seq<string>,
                                                   uses: seq<UseCase>, prompt: string)
    requires Transcript.Complete(initial)
    requires var s := Created(initial, id, logs, memory); AllAllowed(s, uses) && AllTrusted(s, uses)
    ensures var last := ActAll(Created(initial, id, logs, memory), uses);
            && (forall request :: request in Requests(last, prompt) ==> WellFormed(d, request))
            && Mirrors(last)
  {
    var s := Created(initial, id, logs, memory);
    CreatedIsComplete(initial, id, logs, memory);
    StoredTranscriptIsComplete(s, uses);
    var last := ActAll(s, uses);
    forall request | request in Requests(last, prompt)
      ensures WellFormed(d, request)
    {
      RequestsAreComplete(last, prompt, request);
      CompleteTranscriptTranslates(d, request);
    }
  }

  // ----- Every history -----

  lemma RequestsAreOrderly(s: Session, prompt: string, request: seq<Message>)
    requires OrderInv(s) && request in Requests(s, prompt)
    ensures Orderly(request) && (Transcript.Complete(request) <==> !IsTalkedOver(request))
  {
    CompleteExactly(request);
    if CallsModel(s.engine) && request == Conversation(s) {
      TiedIsOrderly(s.engine.data);
    } else {
      PromptIsOrderly(s.holder.current, prompt);
    }
  }

  lemma PromptIsOrderly(current: seq<Message>, prompt: string)
    requires Orderly(current)
    ensures Closed(Scan(Latest(current + [UserMessage(prompt, [])])))
  {
    var m := UserMessage(prompt, []);
    LatestPush(current, m);
    ScanAppend(Latest(current), m);
    ScanAppend([], m);
    assert [] + [m] == [m];
  }

  /**
   Over every session history, undo, resets during a turn and resumes of sessions that an earlier
   process stored included: roles alternate in every request, and it is paired if and only if no user
   message in it follows an unanswered call.
   */
  lemma {:induction false} EveryRequestPairsExactly<J>(d: Decoders<J>, initial: seq<Message>, id: SessionId,
                                                       logs: map<SessionId, seq<Record>>, memory: seq<string>,
                                                       uses: seq<UseCase>, prompt: string)
    requires Transcript.Complete(initial) && forall k :: k in logs ==> LogOrderly(logs[k])
    requires AllAllowed(Created(initial, id, logs, memory), uses) && forall a :: a in uses ==> BringsOrder(a)
    ensures var last := ActAll(Created(initial, id, logs, memory), uses);
            forall request :: request in Requests(last, prompt) ==> PairsExactly(d, request)
  {
    var s := Created(initial, id, logs, memory);
    CreatedIsOrderly(initial, id, logs, memory);
    OrderOverEveryHistory(s, uses);
    var last := ActAll(s, uses);
    forall request | request in Requests(last, prompt)
      ensures PairsExactly(d, request)
    {
      RequestsAreOrderly(last, prompt, request);
      OrderlyPairsExactly(d, request);
    }
  }

  // ----- The first request of a turn -----

  /** What the provider is sent when a turn begins now. */
  function FirstRequest(s: Session, text: string, attachments: seq<Attachment>): seq<Message>
    requires Allows(s, BeginTurn(text, attachments))
  {
    Conversation(Act(s, BeginTurn(text, attachments)))
  }

  /** It is paired exactly when the conversation that the turn begins on is complete. */
  lemma {:induction false} FirstRequestPairsExactly<J>(d: Decoders<J>, s: Session, text: string,
                                                       attachments: seq<Attachment>)
    requires OrderInv(s) && s.holder.Free? && s.engine.data.state.Idle?
    ensures Allows(s, BeginTurn(text, attachments))
    ensures var turn := Act(s, BeginTurn(text, attachments));
            && Allows(turn, Loop(Pop)) && CallsModel(Act(turn, Loop(Pop)).engine)
            && Conversation(Act(turn, Loop(Pop))) == FirstRequest(s, text, attachments)
    ensures Paired(ToClaude(d, NonSystem(FirstRequest(s, text, attachments)))) <==> Transcript.Complete(Conversation(s))
  {
    TurnTalksOverExactly(s, text, attachments);
    TurnCallsModel(s, text, attachments);
    var turn := Act(s, BeginTurn(text, attachments));
    ActKeepsOrder(s, BeginTurn(text, attachments));
    TiedIsOrderly(turn.engine.data);
    CompleteExactly(Conversation(turn));
    OrderlyPairsExactly(d, Conversation(turn));
  }

  /** Behind an undo: exactly when the transcript that the checkpoint hands back is complete. */
  lemma {:induction false} TurnBehindUndoPairsExactly<J>(d: Decoders<J>, s: Session, text: string,
                                                         attachments: seq<Attachment>)
    requires OrderInv(s) && s.holder.Free? && UndoPointOf(s.logs[s.active]).Some?
    ensures Allows(s, Undo) && Allows(Act(s, Undo), BeginTurn(text, attachments))
    ensures Paired(ToClaude(d, NonSystem(FirstRequest(Act(s, Undo), text, attachments))))
       <==> Transcript.Complete(UndoPointOf(s.logs[s.active]).value.1)
  {
    ActKeepsOrder(s, Undo);
    FirstRequestPairsExactly(d, Act(s, Undo), text, attachments);
  }

  /** Behind a resume: exactly when the stored transcript is complete. Nothing in between repairs it. */
  lemma {:induction false} TurnBehindResumePairsExactly<J>(d: Decoders<J>, s: Session, id: SessionId, text: string,
                                                           attachments: seq<Attachment>)
    requires OrderInv(s) && s.holder.Free? && id in s.logs
    ensures Allows(s, Resume(id)) && Allows(Act(s, Resume(id)), BeginTurn(text, attachments))
    ensures Paired(ToClaude(d, NonSystem(FirstRequest(Act(s, Resume(id)), text, attachments))))
       <==> Transcript.Complete(Replay(s.logs[id]))
  {
    ActKeepsOrder(s, Resume(id));
    MemoryIsReplaced(Replay(s.logs[id]), [], s.memory);
    FirstRequestPairsExactly(d, Act(s, Resume(id)), text, attachments);
  }

  lemma TurnCallsModel(s: Session, text: string, attachments: seq<Attachment>)
    requires BaseInv(s) && s.holder.Free? && s.engine.data.state.Idle?
    ensures Allows(s, BeginTurn(text, attachments))
    ensures var turn := Act(s, BeginTurn(text, attachments));
            && Allows(turn, Loop(Pop)) && CallsModel(Act(turn, Loop(Pop)).engine)
            && Conversation(Act(turn, Loop(Pop))) == Conversation(turn)
  {
    var event := UserMessageSubmitted(text, attachments);
    AcceptedIsHandled(s.engine.data, event);
    CommitPlanShape(s.engine.(run := s.engine.run + 1, active := true), After(s.engine.data, event),
                    PlanFor(s.engine.data, event));
    ActKeepsBase(s, BeginTurn(text, attachments));
  }
}
