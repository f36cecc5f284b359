/** What one event keeps: validity, and the invariant that ties data to the transcript. */
module MachineInvariant {
  import opened Outcomes
  import opened Protocol
  import opened Transcript
  import opened Machine

  /**
   The invariant the source relies on and never checks: no block is open between turns or
   while the model is asked, and while a batch is worked on, the open block is that batch,
   answered exactly as far as the index says.
   */
  predicate Consistent(d: Data) {
    match d.state
    case Initializing | Idle | WaitingLLM => Complete(d.messages)
    case AdvancingQueue =>
      d.batch.Some? && d.batch.value.index >= 0
      && Scan(d.messages) == InBlock(d.batch.value.calls, d.batch.value.index)
    case WaitingApproval | RunningTool =>
      d.batch.Some? && d.batch.value.index >= 1
      && Scan(d.messages) == InBlock(d.batch.value.calls, d.batch.value.index - 1)
  }

  predicate Inv(d: Data) {
    Valid(d) && Consistent(d)
  }

  lemma SameToolCallIsEquivalence(a: ToolCall, b: ToolCall, c: ToolCall)
    ensures SameToolCall(a, a)
    ensures SameToolCall(a, b) == SameToolCall(b, a)
    ensures SameToolCall(a, b) && SameToolCall(b, c) ==> SameToolCall(a, c)
  {
  }

  lemma {:induction false} ApplyConcat(d: Data, a: seq<Change>, b: seq<Change>)
    ensures ApplyChanges(d, a + b) ==
            match ApplyChanges(d, a)
            case Ok(mid) => ApplyChanges(mid, b)
            case Err(x) => Err(x)
    decreases |a|
  {
    if a == [] {
      assert a + b == b;
    } else {
      assert (a + b)[1..] == a[1..] + b;
      match ApplyChange(d, a[0]) {
        case Ok(next) => ApplyConcat(next, a[1..], b);
        case Err(_) =>
      }
    }
  }

  /** The messages that a list of `AppendToolResult` changes appends. */
  function AnswerMessages(cs: seq<Change>): seq<Message>
    requires forall c :: c in cs ==> c.AppendToolResult?
  {
    if cs == [] then []
    else AnswerMessages(cs[..|cs| - 1]) + [ToolMessage(cs[|cs| - 1].call, cs[|cs| - 1].result)]
  }

  lemma {:induction false} AnswerMessagesAt(cs: seq<Change>)
    requires forall c :: c in cs ==> c.AppendToolResult?
    ensures |AnswerMessages(cs)| == |cs|
    ensures forall i :: 0 <= i < |cs| ==> AnswerMessages(cs)[i] == ToolMessage(cs[i].call, cs[i].result)
  {
    if cs != [] {
      AnswerMessagesAt(cs[..|cs| - 1]);
    }
  }

  lemma {:induction false} ApplyAnswers(d: Data, cs: seq<Change>)
    requires forall c :: c in cs ==> c.AppendToolResult?
    requires d.content == "" && d.reasoning == ""
    ensures ApplyChanges(d, cs) == Ok(d.(messages := d.messages + AnswerMessages(cs)))
  {
    if cs == [] {
      assert d.messages + [] == d.messages;
    } else {
      var front, last := cs[..|cs| - 1], cs[|cs| - 1];
      ApplyAnswers(d, front);
      ApplyConcat(d, front, [last]);
      assert cs == front + [last];
      var mid := d.(messages := d.messages + AnswerMessages(front));
      assert ApplyChanges(mid, [last]) == ApplyChange(mid, last);
      assert d.messages + AnswerMessages(cs)
          == d.messages + AnswerMessages(front) + [ToolMessage(last.call, last.result)];
    }
  }

  lemma {:induction false} AnswerAllAt(calls: seq<ToolCall>, result: string)
    ensures |AnswerAll(calls, result)| == |calls|
    ensures forall i :: 0 <= i < |calls| ==> AnswerAll(calls, result)[i] == AppendToolResult(calls[i], result)
  {
    if calls != [] {
      AnswerAllAt(calls[..|calls| - 1], result);
    }
  }

  /** The calls still owed an answer: from the one in hand, or the next one, to the end. */
  function Owed(d: Data): seq<ToolCall>
    requires Valid(d)
  {
    match d.state
    case Initializing | Idle | WaitingLLM => []
    case AdvancingQueue => d.batch.value.calls[d.batch.value.index..]
    case WaitingApproval | RunningTool => d.batch.value.calls[d.batch.value.index - 1..]
  }

  /** The outstanding answers are one per owed call, in order, by id. */
  lemma OutstandingAnswersOwed(d: Data, running: string, notExecuted: string)
    requires Valid(d)
    ensures var cs := Outstanding(SnapshotFrom(d).value, running, notExecuted);
            && |cs| == |Owed(d)|
            && (forall c :: c in cs ==> c.AppendToolResult?)
            && (forall i :: 0 <= i < |cs| ==> cs[i].call.id == Owed(d)[i].id)
  {
    AnswerAllAt(SnapshotFrom(d).value.queue.remaining, notExecuted);
  }

  /** The messages left behind when a cancel or an error ends a run. */
  function EndMessages(d: Data, running: string, notExecuted: string): seq<Message>
    requires Valid(d)
  {
    OutstandingAnswersOwed(d, running, notExecuted);
    Flushed(d) + AnswerMessages(Outstanding(SnapshotFrom(d).value, running, notExecuted))
  }

  lemma ApplyClear(d: Data, clear: seq<Change>)
    requires clear == [ClearPendingTool, ClearCurrentTool, ClearToolCallBatch]
    ensures ApplyChanges(d, clear) == Ok(Data(d.state, d.messages, None, None, None, None, d.content, d.reasoning))
  {
    ApplyThree(d, clear);
  }

  function Flushed(d: Data): seq<Message> {
    if d.content != "" || d.reasoning != ""
    then d.messages + [AssistantMessage(d.content, d.reasoning, [], true)] else d.messages
  }

  lemma ApplyFlush(d: Data, flush: seq<Change>)
    requires flush == [FlushStreamingAssistant(true)]
    ensures ApplyChanges(d, flush) == Ok(d.(messages := Flushed(d), content := "", reasoning := ""))
  {
    ApplyOne(d, flush);
  }

  /** The change list of a run's end, whatever the answers are. */
  lemma ApplyFlushAnswersClear(d: Data, flush: seq<Change>, answers: seq<Change>, clear: seq<Change>)
    requires flush == [FlushStreamingAssistant(true)]
    requires forall c :: c in answers ==> c.AppendToolResult?
    requires clear == [ClearPendingTool, ClearCurrentTool, ClearToolCallBatch]
    ensures ApplyChanges(d, flush + answers + clear)
         == Ok(Data(d.state, Flushed(d) + AnswerMessages(answers), None, None, None, None, "", ""))
  {
    ApplyConcat(d, flush + answers, clear);
    ApplyConcat(d, flush, answers);
    ApplyFlush(d, flush);
    var d1 := d.(messages := Flushed(d), content := "", reasoning := "");
    ApplyAnswers(d1, answers);
    ApplyClear(d1.(messages := d1.messages + AnswerMessages(answers)), clear);
  }

  lemma EndRunCommits(d: Data, running: string, notExecuted: string)
    requires Valid(d)
    ensures Commit(d, EndRun(SnapshotFrom(d).value, running, notExecuted))
         == Ok(Data(Idle, EndMessages(d, running, notExecuted), None, None, None, None, "", ""))
  {
    OutstandingAnswersOwed(d, running, notExecuted);
    ApplyFlushAnswersClear(d.(state := Idle), [FlushStreamingAssistant(true)],
                           Outstanding(SnapshotFrom(d).value, running, notExecuted),
                           [ClearPendingTool, ClearCurrentTool, ClearToolCallBatch]);
  }

  lemma ApplyOne(d: Data, cs: seq<Change>)
    requires |cs| == 1
    ensures ApplyChanges(d, cs) == ApplyChange(d, cs[0])
  {
  }

  lemma ApplyTwo(d: Data, cs: seq<Change>)
    requires |cs| == 2 && ApplyChange(d, cs[0]).Ok?
    ensures ApplyChanges(d, cs) == ApplyChange(ApplyChange(d, cs[0]).value, cs[1])
  {
    ApplyOne(ApplyChange(d, cs[0]).value, cs[1..]);
  }

  lemma ApplyThree(d: Data, cs: seq<Change>)
    requires |cs| == 3 && ApplyChange(d, cs[0]).Ok? && ApplyChange(ApplyChange(d, cs[0]).value, cs[1]).Ok?
    ensures ApplyChanges(d, cs) == ApplyChange(ApplyChange(ApplyChange(d, cs[0]).value, cs[1]).value, cs[2])
  {
    ApplyTwo(ApplyChange(d, cs[0]).value, cs[1..]);
  }

  lemma ApplyAtMostTwo(d: Data, cs: seq<Change>)
    requires |cs| <= 2 && (|cs| == 2 ==> ApplyChange(d, cs[0]).Ok?)
    ensures ApplyChanges(d, cs) ==
            if cs == [] then Ok(d)
            else if |cs| == 1 then ApplyChange(d, cs[0])
            else ApplyChange(ApplyChange(d, cs[0]).value, cs[1])
  {
    if |cs| == 1 {
      ApplyOne(d, cs);
    } else if |cs| == 2 {
      ApplyTwo(d, cs);
    }
  }

  predicate Accepted(d: Data, e: Event) {
    SnapshotFrom(d).Ok? && Transition(SnapshotFrom(d).value, e).Ok?
  }

  predicate ModelEvent(e: Event) {
    e.EngineReady? || e.UserMessageSubmitted? || e.AssistantMessageReceived? || e.ToolBatchReceived?
  }

  predicate QueueEvent(e: Event) {
    e.ToolBatchFinished? || e.ToolCallNeedsApproval? || e.ToolCallReadyToRun? || e.ToolCallDenied?
  }

  predicate CallEvent(e: Event) {
    e.ToolResultReceived? || e.ApprovalGranted? || e.ApprovalAlwaysGranted? || e.ApprovalDenied?
  }

  /** What an accepted event makes of the data, written out. */
  function After(d: Data, e: Event): Data
    requires Accepted(d, e)
  {
    match e
    case EngineReady => d.(state := Idle)
    case UserMessageSubmitted(text, attachments) =>
      d.(state := WaitingLLM, messages := d.messages + [UserMessage(text, attachments)], content := "", reasoning := "")
    case AssistantMessageReceived(r) =>
      d.(state := Idle, messages := d.messages + [AssistantMessage(r.content, r.reasoning, [], false)],
         content := "", reasoning := "")
    case ToolBatchReceived(content, calls, reasoning) =>
      d.(state := AdvancingQueue, messages := d.messages + [AssistantMessage(content, reasoning, calls, false)],
         batch := Some(Batch(if calls[0].id == "" then "batch" else "batch-" + calls[0].id, calls, 0)),
         content := "", reasoning := "")
    case ToolBatchFinished => d.(state := WaitingLLM, batch := None)
    case ToolCallNeedsApproval(call, request) =>
      d.(state := WaitingApproval, pendingTool := Some(call), pendingPermission := Some(request), batch := Advanced(d))
    case ToolCallReadyToRun(call) => d.(state := RunningTool, currentTool := Some(call), batch := Advanced(d))
    case ToolCallDenied(call, reason) =>
      d.(messages := d.messages + [ToolMessage(call, "denied by permission policy: " + reason)],
         batch := Advanced(d), content := "", reasoning := "")
    case ApprovalGranted(call) =>
      d.(state := RunningTool, currentTool := Some(call), pendingTool := None, pendingPermission := None)
    case ApprovalAlwaysGranted(call) =>
      d.(state := RunningTool, currentTool := Some(call), pendingTool := None, pendingPermission := None)
    case ApprovalDenied(call) =>
      d.(state := AdvancingQueue, pendingTool := None, pendingPermission := None,
         messages := d.messages + [ToolMessage(call, "denied: " + call.name)], content := "", reasoning := "")
    case ToolResultReceived(call, result) =>
      d.(state := AdvancingQueue, currentTool := None, messages := d.messages + [ToolMessage(call, result)],
         content := "", reasoning := "")
    case ErrorOccurred(err) =>
      var reason := if err.Some? then err.value else "unknown runtime error";
      Ended(d, reason, "not executed: " + reason)
    case CancelRequested => Ended(d, "cancelled", "not executed: cancelled")
    case ResetRequested => Data(Idle, SystemMessages(d.messages), None, None, None, None, "", "")
  }

  function Advanced(d: Data): Option<Batch>
    requires d.batch.Some?
  {
    Some(d.batch.value.(index := d.batch.value.index + 1))
  }

  function Ended(d: Data, running: string, notExecuted: string): Data
    requires Valid(d)
  {
    Data(Idle, EndMessages(d, running, notExecuted), None, None, None, None, "", "")
  }

  /** The plan that goes with an accepted event: one action, or none, or a clearing. */
  function PlanFor(d: Data, e: Event): ActionPlan
    requires Accepted(d, e)
  {
    Transition(SnapshotFrom(d).value, e).value.plan
  }

  lemma ModelEventHandled(d: Data, e: Event)
    requires Accepted(d, e) && ModelEvent(e)
    ensures Handle(d, e) == Ok((After(d, e), PlanFor(d, e)))
  {
    var r := Transition(SnapshotFrom(d).value, e).value;
    ApplyAtMostTwo(d.(state := r.nextState), r.changes);
  }

  lemma QueueEventHandled(d: Data, e: Event)
    requires Accepted(d, e) && QueueEvent(e)
    ensures Handle(d, e) == Ok((After(d, e), PlanFor(d, e)))
  {
    var r := Transition(SnapshotFrom(d).value, e).value;
    ApplyAtMostTwo(d.(state := r.nextState), r.changes);
  }

  lemma CallEventHandled(d: Data, e: Event)
    requires Accepted(d, e) && CallEvent(e)
    ensures Handle(d, e) == Ok((After(d, e), PlanFor(d, e)))
  {
    var r := Transition(SnapshotFrom(d).value, e).value;
    ApplyAtMostTwo(d.(state := r.nextState), r.changes);
  }

  /** An accepted event always commits: the change list runs to its end and validates. */
  lemma AcceptedIsHandled(d: Data, e: Event)
    requires Accepted(d, e)
    ensures Handle(d, e) == Ok((After(d, e), PlanFor(d, e)))
  {
    match e {
      case ErrorOccurred(err) =>
        var reason := if err.Some? then err.value else "unknown runtime error";
        EndRunCommits(d, reason, "not executed: " + reason);
      case CancelRequested =>
        EndRunCommits(d, "cancelled", "not executed: cancelled");
      case ResetRequested =>
        ApplyOne(d.(state := Idle), [ResetConversation]);
      case _ =>
        if ModelEvent(e) {
          ModelEventHandled(d, e);
        } else if QueueEvent(e) {
          QueueEventHandled(d, e);
        } else {
          CallEventHandled(d, e);
        }
    }
  }

  lemma AfterIsValid(d: Data, e: Event)
    requires Accepted(d, e)
    ensures Valid(After(d, e))
  {
  }

  lemma FlushKeepsProgress(d: Data)
    requires Inv(d)
    ensures Scan(Flushed(d)).InBlock? && Scan(Flushed(d)).calls[Scan(Flushed(d)).answered..] == Owed(d)
  {
    if d.content != "" || d.reasoning != "" {
      ScanAppend(d.messages, AssistantMessage(d.content, d.reasoning, [], true));
    }
  }

  lemma EndRunCompletes(d: Data, running: string, notExecuted: string)
    requires Inv(d)
    ensures Complete(EndMessages(d, running, notExecuted))
  {
    var answers := Outstanding(SnapshotFrom(d).value, running, notExecuted);
    OutstandingAnswersOwed(d, running, notExecuted);
    AnswerMessagesAt(answers);
    FlushKeepsProgress(d);
    ScanConcat(NoBlock, Flushed(d), AnswerMessages(answers));
    AnswersOwedClose(Scan(Flushed(d)), AnswerMessages(answers), Owed(d));
  }

  lemma ModelEventConsistent(d: Data, e: Event)
    requires Accepted(d, e) && Consistent(d) && ModelEvent(e)
    ensures Consistent(After(d, e))
  {
    match e {
      case EngineReady =>
      case UserMessageSubmitted(text, attachments) =>
        ScanAppend(d.messages, UserMessage(text, attachments));
      case AssistantMessageReceived(r) =>
        ScanAppend(d.messages, AssistantMessage(r.content, r.reasoning, [], false));
      case ToolBatchReceived(content, calls, reasoning) =>
        ScanAppend(d.messages, AssistantMessage(content, reasoning, calls, false));
    }
  }

  lemma CallEventConsistent(d: Data, e: Event)
    requires Accepted(d, e) && Consistent(d) && CallEvent(e)
    ensures Consistent(After(d, e))
  {
    match e {
      case ToolResultReceived(call, result) => ScanAppend(d.messages, ToolMessage(call, result));
      case ApprovalDenied(call) => ScanAppend(d.messages, ToolMessage(call, "denied: " + call.name));
      case _ =>
    }
  }

  lemma QueueEventConsistent(d: Data, e: Event)
    requires Accepted(d, e) && Consistent(d) && QueueEvent(e)
    ensures Consistent(After(d, e))
  {
    if e.ToolCallDenied? {
      ScanAppend(d.messages, ToolMessage(e.call, "denied by permission policy: " + e.reason));
    }
  }

  lemma AfterIsConsistent(d: Data, e: Event)
    requires Accepted(d, e) && Consistent(d)
    ensures Consistent(After(d, e))
  {
    match e {
      case ErrorOccurred(err) =>
        var reason := if err.Some? then err.value else "unknown runtime error";
        EndRunCompletes(d, reason, "not executed: " + reason);
      case CancelRequested =>
        EndRunCompletes(d, "cancelled", "not executed: cancelled");
      case ResetRequested =>
        ScanIgnoresSystem(NoBlock, d.messages);
      case _ =>
        if ModelEvent(e) {
          ModelEventConsistent(d, e);
        } else if QueueEvent(e) {
          QueueEventConsistent(d, e);
        } else {
          CallEventConsistent(d, e);
        }
    }
  }

  /** The data behind an event: what was committed, or what was there when nothing was. */
  function Handled(d: Data, e: Event): Data {
    match Handle(d, e)
    case Ok((next, _)) => next
    case Err(_) => d
  }

  /**
   Validity is inductive, and so is the invariant: an event commits exactly when the table accepts
   it, and whether it does or not, valid data stays valid and consistent data stays consistent.
   */
  lemma TransitionKeepsInv(d: Data, e: Event)
    requires Valid(d)
    ensures Handle(d, e).Ok? <==> Accepted(d, e)
    ensures Valid(Handled(d, e)) && (Consistent(d) ==> Consistent(Handled(d, e)))
  {
    if Accepted(d, e) {
      AcceptedIsHandled(d, e);
      AfterIsValid(d, e);
      if Consistent(d) {
        AfterIsConsistent(d, e);
      }
    }
  }

  /**
   A streaming chunk is accepted exactly when it is empty or the model is being asked; an
   accepted one changes only the streaming text.
   */
  lemma StreamChunkCommit(d: Data, chunk: StreamChunk)
    requires Valid(d)
    ensures var r := Commit(d, TransitionResult(d.state, [AppendStreamingAssistant(chunk)], Nothing));
            && (r.Ok? <==> d.state.WaitingLLM? || chunk == StreamChunk("", ""))
            && (r.Ok? ==> r.value == d.(content := d.content + chunk.contentDelta,
                                        reasoning := d.reasoning + chunk.reasoningDelta))
            && (r.Ok? && Inv(d) ==> Inv(r.value))
  {
    ApplyOne(d, [AppendStreamingAssistant(chunk)]);
  }
}
