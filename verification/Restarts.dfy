/**
 One process after another over the same store: each begins beside what the one before left behind,
 however its files were cut, and resumes from there. Nothing in `resume` or `load` repairs a block that
 was open when a process died.
 */
module Restarts {
  import opened Bytes
  import opened Outcomes
  import opened Protocol
  import opened Transcript
  import opened TalkedOver
  import opened Machine
  import opened MachineInvariant
  import opened Execution
  import opened EngineSteps
  import opened EngineInvariant
  import opened OrderlyRuns
  import opened SessionLog
  import opened SessionSteps
  import opened SessionInvariant
  import opened SessionOrder
  import opened LogFile
  import opened CrashRecovery
  import opened Claude
  import opened ClaudePairing
  import opened EndToEnd

  type Store = map<SessionId, seq<Record>>

  // ----- Logs that may be cut anywhere -----

  /** Whatever beginning of the log is left, its transcript is orderly. */
  predicate OrderlyHoweverCut(log: seq<Record>) {
    forall n :: 0 <= n <= |log| ==> Orderly(Replay(log[..n]))
  }

  predicate StoreOrderly(logs: Store) {
    forall id :: id in logs ==> OrderlyHoweverCut(logs[id])
  }

  lemma CutAgain(log: seq<Record>, front: seq<Record>)
    requires OrderlyHoweverCut(log) && front <= log
    ensures OrderlyHoweverCut(front)
  {
    forall n | 0 <= n <= |front|
      ensures Orderly(Replay(front[..n]))
    {
      assert front[..n] == log[..n];
    }
  }

  lemma {:induction false} OrderlyCutIsOrderly(log: seq<Record>)
    requires OrderlyHoweverCut(log)
    ensures LogOrderly(log)
  {
    assert log[..|log|] == log;
    if log != [] {
      var front := log[..|log| - 1];
      CutAgain(log, front);
      OrderlyCutIsOrderly(front);
    }
  }

  // ----- The past of a store -----

  /** What the logs of a store have replayed to, one record after the other. */
  function StoredPast(logs: Store): Past {
    set id, n | id in logs && 0 <= n <= |logs[id]| :: (id, Replay(logs[id][..n]))
  }

  lemma {:induction false} LogHasPast(log: seq<Record>, id: SessionId, past: Past, exact: bool)
    requires forall n :: 0 <= n <= |log| ==> (id, Replay(log[..n])) in past
    ensures Traced(log, id, past, exact)
  {
    assert log[..|log|] == log;
    PrefixBegins(Replay(log), Replay(log), exact);
    if log != [] {
      var front := log[..|log| - 1];
      forall n | 0 <= n <= |front|
        ensures (id, Replay(front[..n])) in past
      {
        assert front[..n] == log[..n];
      }
      LogHasPast(front, id, past, exact);
    }
  }

  /** So every store has a past that explains it. */
  lemma StoreHasPast(logs: Store, exact: bool)
    ensures AllTraced(logs, StoredPast(logs), exact)
  {
    forall id | id in logs
      ensures Traced(logs[id], id, StoredPast(logs), exact)
    {
      forall n | 0 <= n <= |logs[id]|
        ensures (id, Replay(logs[id][..n])) in StoredPast(logs)
      {
      }
      LogHasPast(logs[id], id, StoredPast(logs), exact);
    }
  }

  predicate PastOrderly(past: Past) {
    forall moment :: moment in past ==> Orderly(moment.1)
  }

  lemma {:induction false} PastIsOrderly(s: Session, uses: seq<UseCase>)
    requires OrderInv(s) && AllAllowed(s, uses) && forall a :: a in uses ==> BringsOrder(a)
    ensures PastOrderly(PastOf(s, uses))
    decreases |uses|
  {
    if uses != [] {
      var a := uses[0];
      assert a in uses;
      ActKeepsOrder(s, a);
      TiedIsOrderly(Act(s, a).engine.data);
      if a.FailedResume? {
        assert LogOrderly(s.logs[a.id]);
        MemoryKeepsOrder(Replay(s.logs[a.id]), s.memory);
      }
      PastIsOrderly(Act(s, a), uses[1..]);
    }
  }

  lemma BeginningIsOrderly(messages: seq<Message>, whole: seq<Message>)
    requires Begins(messages, whole, false) && Orderly(whole)
    ensures Orderly(messages)
  {
    OrderlyIgnoresSystem(whole);
    OrderlyPrefix(NonSystem(whole), |NonSystem(messages)|);
    assert NonSystem(whole)[..|NonSystem(messages)|] == NonSystem(messages);
    OrderlyIgnoresSystem(messages);
  }

  lemma TracedIsOrderly(log: seq<Record>, id: SessionId, past: Past)
    requires Traced(log, id, past, false) && PastOrderly(past)
    ensures OrderlyHoweverCut(log)
  {
    forall n | 0 <= n <= |log|
      ensures Orderly(Replay(log[..n]))
    {
      TracedPrefix(log, n, id, past, false);
      var whole :| (id, whole) in past && Begins(Replay(log[..n]), whole, false);
      assert Orderly((id, whole).1);
      BeginningIsOrderly(Replay(log[..n]), whole);
    }
  }

  lemma StoredPastIsOrderly(logs: Store)
    requires StoreOrderly(logs)
    ensures PastOrderly(StoredPast(logs))
    ensures forall id :: id in logs ==> LogOrderly(logs[id])
  {
    forall id | id in logs
      ensures LogOrderly(logs[id])
    {
      OrderlyCutIsOrderly(logs[id]);
    }
  }

  /** Over every history, every log of the store stays orderly however it is cut. */
  lemma {:induction false} StoreStaysOrderly(initial: seq<Message>, id: SessionId, logs: Store, memory: seq<string>,
                                             uses: seq<UseCase>)
    requires Transcript.Complete(initial) && StoreOrderly(logs)
    requires AllAllowed(Created(initial, id, logs, memory), uses) && forall a :: a in uses ==> BringsOrder(a)
    ensures StoreOrderly(ActAll(Created(initial, id, logs, memory), uses).logs)
  {
    var s := Created(initial, id, logs, memory);
    var past, last := PastFrom(StoredPast(logs), s, uses), ActAll(s, uses);
    StoreHasPast(logs, false);
    StoredPastIsOrderly(logs);
    CreatedIsOrderly(initial, id, logs, memory);
    TiedIsOrderly(s.engine.data);
    PastIsOrderly(s, uses);
    HistoryIsTraced(initial, id, logs, memory, StoredPast(logs), uses, false);
    forall k | k in last.logs
      ensures OrderlyHoweverCut(last.logs[k])
    {
      TracedIsOrderly(last.logs[k], k, past);
    }
  }

  // ----- One process after another -----

  /** What a dead process leaves: of some of its logs, a beginning. A log that no longer reads is lost. */
  predicate Survives(left: Store, logs: Store) {
    forall id :: id in left ==> id in logs && left[id] <= logs[id]
  }

  lemma SurvivorsAreOrderly(left: Store, logs: Store)
    requires Survives(left, logs) && StoreOrderly(logs)
    ensures StoreOrderly(left)
  {
    forall id | id in left
      ensures OrderlyHoweverCut(left[id])
    {
      CutAgain(logs[id], left[id]);
    }
  }

  /** Every file is cut somewhere. */
  ghost predicate CutFiles(c: Codec<Record>, files: map<SessionId, seq<byte>>, logs: Store) {
    forall id :: id in files ==> id in logs && Fits(c, logs[id]) && files[id] <= Frames(c, logs[id])
  }

  /** Reading cut files back is such a leaving, and no file is lost by the cut. */
  lemma CutFilesSurvive(c: Codec<Record>, files: map<SessionId, seq<byte>>, logs: Store)
    requires Lawful(c) && CutFiles(c, files, logs)
    ensures forall id :: id in files ==> Read(c, files[id]).Records?
    ensures Survives(map id | id in files :: Read(c, files[id]).records, logs)
  {
    forall id | id in files
      ensures Read(c, files[id]).Records? && Read(c, files[id]).records <= logs[id]
    {
      var n := CutReadsPrefix(c, logs[id], |files[id]|);
      assert Frames(c, logs[id])[..|files[id]|] == files[id];
    }
  }

  /** A process: what it is created with, what is done in it, and what is left when it dies. */
  datatype Life = Life(initial: seq<Message>, id: SessionId, memory: seq<string>, uses: seq<UseCase>, left: Store)

  ghost predicate Lived(logs: Store, life: Life) {
    && Transcript.Complete(life.initial)
    && var s := Created(life.initial, life.id, logs, life.memory);
       && AllAllowed(s, life.uses) && (forall a :: a in life.uses ==> BringsOrder(a))
       && Survives(life.left, ActAll(s, life.uses).logs)
  }

  ghost predicate AllLived(logs: Store, lives: seq<Life>)
    decreases |lives|
  {
    lives == [] || (Lived(logs, lives[0]) && AllLived(lives[0].left, lives[1..]))
  }

  function StoreBehind(logs: Store, lives: seq<Life>): Store
    decreases |lives|
  {
    if lives == [] then logs else StoreBehind(lives[0].left, lives[1..])
  }

  lemma {:induction false} StoreOrderlyOverEveryLife(logs: Store, lives: seq<Life>)
    requires StoreOrderly(logs) && AllLived(logs, lives)
    ensures StoreOrderly(StoreBehind(logs, lives))
    decreases |lives|
  {
    if lives != [] {
      var life := lives[0];
      StoreStaysOrderly(life.initial, life.id, logs, life.memory, life.uses);
      SurvivorsAreOrderly(life.left, ActAll(Created(life.initial, life.id, logs, life.memory), life.uses).logs);
      StoreOrderlyOverEveryLife(life.left, lives[1..]);
    }
  }

  /**
   From an empty store on, over any number of processes, each of which dies with its files cut anywhere:
   every request of every later process alternates, and is paired if and only if no user message in it
   follows an unanswered call.
   */
  lemma {:induction false} EveryRequestOfEveryLifePairsExactly<J>(d: Decoders<J>, lives: seq<Life>,
                                                                  initial: seq<Message>, id: SessionId,
                                                                  memory: seq<string>, uses: seq<UseCase>,
                                                                  prompt: string)
    requires AllLived(map[], lives) && Transcript.Complete(initial)
    requires AllAllowed(Created(initial, id, StoreBehind(map[], lives), memory), uses)
    requires forall a :: a in uses ==> BringsOrder(a)
    ensures var last := ActAll(Created(initial, id, StoreBehind(map[], lives), memory), uses);
            forall request :: request in Requests(last, prompt) ==> PairsExactly(d, request)
  {
    StoreOrderlyOverEveryLife(map[], lives);
    StoredPastIsOrderly(StoreBehind(map[], lives));
    EveryRequestPairsExactly(d, initial, id, StoreBehind(map[], lives), memory, uses, prompt);
  }

  // ----- A process that dies in a batch -----

  /** While a call waits or runs, the conversation ends in the open block of its batch. */
  lemma CallInHandIsOpen(d: Data)
    requires Machine.Valid(d) && Consistent(d) && (d.state.WaitingApproval? || d.state.RunningTool?)
    ensures !Transcript.Complete(d.messages)
  {
  }

  /**
   A session whose process dies is resumed in another one: the first request behind the resume is
   paired exactly when the conversation was complete at the moment of death.
   */
  lemma {:induction false} TurnBehindCrashPairsExactly<J>(d: Decoders<J>, dead: Session, s: Session, id: SessionId,
                                                          text: string, attachments: seq<Attachment>)
    requires OrderInv(dead) && OrderInv(s) && s.holder.Free? && id in s.logs && s.logs[id] == dead.logs[dead.active]
    ensures Allows(s, Resume(id)) && Allows(Act(s, Resume(id)), BeginTurn(text, attachments))
    ensures Paired(ToClaude(d, NonSystem(FirstRequest(Act(s, Resume(id)), text, attachments))))
       <==> Transcript.Complete(Conversation(dead))
  {
    TurnBehindResumePairsExactly(d, s, id, text, attachments);
    CompleteIgnoresSystem(Replay(s.logs[id]));
    CompleteIgnoresSystem(Conversation(dead));
  }

  /** The log of a process that died with the model's only call unanswered. */
  function DiedInBatch(question: string, answer: string, call: ToolCall): seq<Record> {
    CreateRecords([]) + RecordsFor([UserMessage(question, [])] + [AssistantMessage(answer, "", [call], false)])
  }

  lemma DiedInBatchIsOpen(question: string, answer: string, call: ToolCall)
    ensures LogOrderly(DiedInBatch(question, answer, call))
    ensures !Transcript.Complete(Replay(DiedInBatch(question, answer, call)))
  {
    var user, asked := UserMessage(question, []), AssistantMessage(answer, "", [call], false);
    CreatedLogReplays([]);
    SavedMessagesReplay(CreateRecords([]), [user] + [asked]);
    assert [] + ([user] + [asked]) == [user] + [asked];
    UndoOrderlyCreated([]);
    UndoOrderlySaved(CreateRecords([]), [user] + [asked]);
    assert [] + [user] == [user];
    LatestPush([], user);
    LatestPush([user], asked);
    ScanAppend([], user);
    ScanAppend([user], asked);
  }

  /** A model that answers with one call, and no one to run it yet. */
  function Asking(answer: string, call: ToolCall): Env {
    Env(Ports(Some(Returned(ModelResponse(answer, "", [call]))), None, None), [ToolSpec(call.name, false)],
        Policy((c, s) => Ok(DecisionDenied), (c, s) => Ok(NoRequest), c => None))
  }

  lemma ModelAsks(s: Session, answer: string, call: ToolCall)
    requires BaseInv(s) && s.holder.Turn? && CallsModel(s.engine)
    ensures var step := Loop(Complete(Asking(answer, call)));
            && Allows(s, step)
            && Conversation(Act(s, step)) == Conversation(s) + [AssistantMessage(answer, "", [call], false)]
            && Act(s, step).active == s.active && s.active in Act(s, step).logs
            && Act(s, step).logs[s.active]
               == s.logs[s.active] + RecordsFor([AssistantMessage(answer, "", [call], false)])
  {
    var env, asked := Asking(answer, call), AssistantMessage(answer, "", [call], false);
    CompletionCommits(s.engine, env, ToolBatchReceived(answer, [call], ""));
    EmitShape(s.(engine := Step(s.engine, Complete(env))), Conversation(s));
    assert (Conversation(s) + [asked])[|Conversation(s)|..] == [asked];
  }

  lemma FirstTurnStores(s: Session, question: string)
    requires SessionInv(s) && s.engine.data.state.Idle? && Allows(s, BeginTurn(question, [])) && Conversation(s) == []
    ensures var turn := Act(s, BeginTurn(question, []));
            && turn.active == s.active && turn.holder.Turn? && s.active in turn.logs
            && turn.logs[s.active] == s.logs[s.active] + RecordsFor([UserMessage(question, [])])
  {
    var started := s.(engine := Start(s.engine, question, []), holder := Turn);
    UserJoins(s.engine, question, []);
    EmitShape(started, Conversation(s));
    assert Conversation(started)[0..] == [UserMessage(question, [])];
  }

  lemma AskedBehindPop(turn: Session, answer: string, call: ToolCall)
    requires BaseInv(turn) && turn.holder.Turn? && Allows(turn, Loop(Pop)) && CallsModel(Act(turn, Loop(Pop)).engine)
    ensures var called, ask := Act(turn, Loop(Pop)), Loop(Complete(Asking(answer, call)));
            && Allows(called, ask) && Act(called, ask).active == turn.active && turn.active in Act(called, ask).logs
            && Act(called, ask).logs[turn.active]
               == turn.logs[turn.active] + RecordsFor([AssistantMessage(answer, "", [call], false)])
  {
    ActKeepsBase(turn, Loop(Pop));
    ModelAsks(Act(turn, Loop(Pop)), answer, call);
  }

  /** A first turn in which the model asks for one call. */
  lemma {:induction false} FirstTurnAsks(s: Session, question: string, answer: string, call: ToolCall)
    returns (last: Session)
    requires SessionInv(s) && s.holder.Free? && s.engine.data.state.Idle? && Conversation(s) == []
    ensures AllAllowed(s, [BeginTurn(question, [])] + [Loop(Pop)] + [Loop(Complete(Asking(answer, call)))])
    ensures last == ActAll(s, [BeginTurn(question, [])] + [Loop(Pop)] + [Loop(Complete(Asking(answer, call)))])
    ensures last.active == s.active && s.active in last.logs
    ensures last.logs[s.active]
         == s.logs[s.active]
            + RecordsFor([UserMessage(question, [])] + [AssistantMessage(answer, "", [call], false)])
  {
    var begin, ask := BeginTurn(question, []), Loop(Complete(Asking(answer, call)));
    TurnCallsModel(s, question, []);
    FirstTurnStores(s, question);
    ActKeepsBase(s, begin);
    var turn := Act(s, begin);
    last := AskedLast(s, turn, begin, answer, call);
    JoinTwo(s.logs[s.active], UserMessage(question, []), AssistantMessage(answer, "", [call], false));
  }

  lemma AskedLast(s: Session, turn: Session, begin: UseCase, answer: string, call: ToolCall) returns (last: Session)
    requires Allows(s, begin) && turn == Act(s, begin) && BaseInv(turn) && turn.holder.Turn?
    requires Allows(turn, Loop(Pop)) && CallsModel(Act(turn, Loop(Pop)).engine)
    ensures AllAllowed(s, [begin] + [Loop(Pop)] + [Loop(Complete(Asking(answer, call)))])
    ensures last == ActAll(s, [begin] + [Loop(Pop)] + [Loop(Complete(Asking(answer, call)))])
    ensures last.active == turn.active && turn.active in last.logs
    ensures last.logs[turn.active] == turn.logs[turn.active] + RecordsFor([AssistantMessage(answer, "", [call], false)])
  {
    var ask := Loop(Complete(Asking(answer, call)));
    AskedBehindPop(turn, answer, call);
    ActThrice(s, begin, Loop(Pop), ask);
    last := Act(Act(turn, Loop(Pop)), ask);
  }

  lemma JoinTwo(log: seq<Record>, a: Message, b: Message)
    ensures log + RecordsFor([a]) + RecordsFor([b]) == log + RecordsFor([a] + [b])
  {
    RecordsForTwo(a, b);
  }

  lemma RecordsForTwo(a: Message, b: Message)
    ensures RecordsFor([a] + [b]) == RecordsFor([a]) + RecordsFor([b])
  {
  }

  lemma ActThrice(s: Session, a: UseCase, b: UseCase, c: UseCase)
    requires Allows(s, a) && Allows(Act(s, a), b) && Allows(Act(Act(s, a), b), c)
    ensures AllAllowed(s, [a] + [b] + [c]) && ActAll(s, [a] + [b] + [c]) == Act(Act(Act(s, a), b), c)
  {
    ActTwice(Act(s, a), b, c);
    assert ([a] + [b] + [c])[1..] == [b] + [c];
  }

  /** Such a log is left behind: a first turn in which the model asks for one call, and then the end. */
  lemma {:induction false} DyingInBatch(id: SessionId, question: string, answer: string, call: ToolCall)
    ensures var s := Created([], id, map[], []);
            var uses := [BeginTurn(question, [])] + [Loop(Pop)] + [Loop(Complete(Asking(answer, call)))];
            && AllAllowed(s, uses)
            && ActAll(s, uses).active == id && id in ActAll(s, uses).logs
            && ActAll(s, uses).logs[id] == DiedInBatch(question, answer, call)
  {
    var s := Created([], id, map[], []);
    CreatedSessionAgrees([], id, map[], []);
    var last := FirstTurnAsks(s, question, answer, call);
  }

  /** Create, resume, begin a turn: an unpaired request, and no undo anywhere. */
  lemma {:induction false} ResumedOpenBlockIsUnpaired<J>(d: Decoders<J>, initial: seq<Message>, id: SessionId,
                                                         stored: SessionId, question: string, answer: string,
                                                         call: ToolCall, memory: seq<string>, text: string)
    requires Transcript.Complete(initial) && id != stored
    ensures var s := Created(initial, id, map[stored := DiedInBatch(question, answer, call)], memory);
            var uses := [Resume(stored)] + [BeginTurn(text, [])];
            && AllAllowed(s, uses)
            && var turn := ActAll(s, uses);
               && Allows(turn, Loop(Pop)) && CallsModel(Act(turn, Loop(Pop)).engine)
               && !Paired(ToClaude(d, NonSystem(Conversation(Act(turn, Loop(Pop))))))
  {
    var s := Created(initial, id, map[stored := DiedInBatch(question, answer, call)], memory);
    DiedInBatchIsOpen(question, answer, call);
    CreatedIsOrderly(initial, id, map[stored := DiedInBatch(question, answer, call)], memory);
    TurnBehindResumePairsExactly(d, s, stored, text, []);
    ActKeepsOrder(s, Resume(stored));
    FirstRequestPairsExactly(d, Act(s, Resume(stored)), text, []);
    ActTwice(s, Resume(stored), BeginTurn(text, []));
  }
}
