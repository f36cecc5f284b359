/**
 What every event makes of the data, field by field, and in which states it is accepted: the promises
 of the transition table (`runtime/machine/transition.py`), stated without its handlers.
 */
module EventEffects {
  import opened Outcomes
  import opened Protocol
  import opened Machine
  import opened MachineInvariant

  // ----- The messages a reader of the transcript sees -----

  predicate IsUser(m: Message, text: string, attachments: seq<Attachment>) {
    m == Message(User, text, "", "", "", [], false, attachments)
  }

  predicate IsReply(m: Message, content: string, reasoning: string, calls: seq<ToolCall>, interrupted: bool) {
    m == Message(Assistant, content, reasoning, "", "", calls, interrupted, [])
  }

  predicate IsAnswer(m: Message, call: ToolCall, text: string) {
    m == Message(Tool, text, "", call.id, call.name, [], false, [])
  }

  /** One message more, and it is the newest. */
  predicate Adds(before: seq<Message>, after: seq<Message>) {
    |after| == |before| + 1 && before == after[..|before|]
  }

  function Newest(messages: seq<Message>): Message
    requires messages != []
  {
    messages[|messages| - 1]
  }

  // ----- The end of a run -----

  /** The call in hand and the calls that were not reached. */
  function CallsLeft(d: Data): seq<ToolCall>
    requires Valid(d)
  {
    match d.state
    case Initializing | Idle | WaitingLLM => []
    case AdvancingQueue => d.batch.value.calls[d.batch.value.index..]
    case WaitingApproval => [d.pendingTool.value] + d.batch.value.calls[d.batch.value.index..]
    case RunningTool => [d.currentTool.value] + d.batch.value.calls[d.batch.value.index..]
  }

  /** What was said so far, a reply that was being streamed included and marked as interrupted. */
  predicate IsSaid(d: Data, said: seq<Message>) {
    if d.content == "" && d.reasoning == "" then said == d.messages
    else Adds(d.messages, said) && IsReply(Newest(said), d.content, d.reasoning, [], true)
  }

  /**
   One answer for every call, in order: `running` for the first, if it is one that runs, and
   `notExecuted` for every other.
   */
  predicate AnswersEach(answers: seq<Message>, calls: seq<ToolCall>, runs: bool, running: string, notExecuted: string) {
    && |answers| == |calls|
    && forall k :: 0 <= k < |calls| ==> IsAnswer(answers[k], calls[k], if runs && k == 0 then running else notExecuted)
  }

  /** Behind what was said come the answers to the calls left, and nothing else is left of the run. */
  predicate EndsWith(d: Data, next: Data, running: string, notExecuted: string)
    requires Valid(d)
  {
    && next == Data(Idle, next.messages, None, None, None, None, "", "")
    && |next.messages| >= |CallsLeft(d)|
    && var n := |next.messages| - |CallsLeft(d)|;
       && IsSaid(d, next.messages[..n])
       && AnswersEach(next.messages[n..], CallsLeft(d), d.state.RunningTool?, running, notExecuted)
  }

  predicate EndsAsError(d: Data, next: Data, reason: string)
    requires Valid(d)
  {
    EndsWith(d, next, reason, "not executed: " + reason)
  }

  predicate EndsAsCancelled(d: Data, next: Data)
    requires Valid(d)
  {
    EndsWith(d, next, "cancelled", "not executed: cancelled")
  }

  /** The answers to the calls not reached, behind the one in hand, if there is one. */
  lemma OutstandingShape(d: Data, running: string, notExecuted: string)
    requires Valid(d)
    ensures var rest := if d.batch.Some? then d.batch.value.calls[d.batch.value.index..] else [];
            Outstanding(SnapshotFrom(d).value, running, notExecuted)
            == (match d.state
                case WaitingApproval => [AppendToolResult(d.pendingTool.value, notExecuted)]
                case RunningTool => [AppendToolResult(d.currentTool.value, running)]
                case _ => []) + AnswerAll(rest, notExecuted)
  {
    var all := Outstanding(SnapshotFrom(d).value, running, notExecuted);
    assert AnswerAll([], notExecuted) == [];
    if d.batch.Some? && d.batch.value.index == |d.batch.value.calls| {
      assert d.batch.value.calls[d.batch.value.index..] == [];
    }
  }

  lemma AnswerMessagesEach(cs: seq<Change>, calls: seq<ToolCall>, runs: bool, running: string, notExecuted: string)
    requires |cs| == |calls| && forall c :: c in cs ==> c.AppendToolResult?
    requires forall k :: 0 <= k < |cs| ==>
                           cs[k] == AppendToolResult(calls[k], if runs && k == 0 then running else notExecuted)
    ensures AnswersEach(AnswerMessages(cs), calls, runs, running, notExecuted)
  {
    AnswerMessagesAt(cs);
  }

  lemma AnswersOfRest(rest: seq<ToolCall>, notExecuted: string)
    ensures forall c :: c in AnswerAll(rest, notExecuted) ==> c.AppendToolResult?
    ensures AnswersEach(AnswerMessages(AnswerAll(rest, notExecuted)), rest, false, "", notExecuted)
  {
    AnswerAllAt(rest, notExecuted);
    AnswerMessagesEach(AnswerAll(rest, notExecuted), rest, false, "", notExecuted);
  }

  lemma AnswersOfHandAndRest(hand: ToolCall, rest: seq<ToolCall>, runs: bool, running: string, notExecuted: string)
    ensures var cs := [AppendToolResult(hand, if runs then running else notExecuted)] + AnswerAll(rest, notExecuted);
            && (forall c :: c in cs ==> c.AppendToolResult?)
            && AnswersEach(AnswerMessages(cs), [hand] + rest, runs, running, notExecuted)
  {
    AnswerAllAt(rest, notExecuted);
    AnswerMessagesEach([AppendToolResult(hand, if runs then running else notExecuted)] + AnswerAll(rest, notExecuted),
                       [hand] + rest, runs, running, notExecuted);
  }

  lemma {:induction false} OutstandingAnswerEach(d: Data, running: string, notExecuted: string)
    requires Valid(d)
    ensures var cs := Outstanding(SnapshotFrom(d).value, running, notExecuted);
            && (forall c :: c in cs ==> c.AppendToolResult?)
            && AnswersEach(AnswerMessages(cs), CallsLeft(d), d.state.RunningTool?, running, notExecuted)
  {
    OutstandingShape(d, running, notExecuted);
    var rest := if d.batch.Some? then d.batch.value.calls[d.batch.value.index..] else [];
    match d.state {
      case WaitingApproval => AnswersOfHandAndRest(d.pendingTool.value, rest, false, running, notExecuted);
      case RunningTool => AnswersOfHandAndRest(d.currentTool.value, rest, true, running, notExecuted);
      case _ =>
        AnswersOfRest(rest, notExecuted);
        assert [] + AnswerAll(rest, notExecuted) == AnswerAll(rest, notExecuted);
    }
  }

  lemma {:induction false} EndedEndsWith(d: Data, running: string, notExecuted: string)
    requires Valid(d)
    ensures EndsWith(d, Ended(d, running, notExecuted), running, notExecuted)
  {
    OutstandingAnswerEach(d, running, notExecuted);
    var answers := AnswerMessages(Outstanding(SnapshotFrom(d).value, running, notExecuted));
    var messages := Flushed(d) + answers;
    assert messages[..|Flushed(d)|] == Flushed(d) && messages[|Flushed(d)|..] == answers;
  }

  /** A cancel and an error answer everything that is left, each call with the text it is owed. */
  lemma EndOfRunAnswersExactly(d: Data, err: Option<string>)
    requires Valid(d)
    ensures Handle(d, CancelRequested).Ok? && EndsAsCancelled(d, Handle(d, CancelRequested).value.0)
    ensures Handle(d, ErrorOccurred(err)).Ok?
    ensures EndsAsError(d, Handle(d, ErrorOccurred(err)).value.0,
                        if err.Some? then err.value else "unknown runtime error")
  {
    var reason := if err.Some? then err.value else "unknown runtime error";
    AcceptedIsHandled(d, CancelRequested);
    AcceptedIsHandled(d, ErrorOccurred(err));
    EndedEndsWith(d, "cancelled", "not executed: cancelled");
    EndedEndsWith(d, reason, "not executed: " + reason);
  }

  // ----- When an event commits -----

  /** Calls are the same by id as soon as one has an id, and otherwise by name and input. */
  lemma SameCallExactly(a: ToolCall, b: ToolCall)
    ensures a.id == "" && b.id == "" ==> (SameToolCall(a, b) <==> a.name == b.name && a.input == b.input)
    ensures a.id != "" || b.id != "" ==> (SameToolCall(a, b) <==> a.id == b.id)
  {
  }

  predicate IsNext(d: Data, call: ToolCall)
    requires Valid(d) && d.state.AdvancingQueue?
  {
    d.batch.value.index < |d.batch.value.calls| && SameToolCall(call, d.batch.value.calls[d.batch.value.index])
  }

  /** The whole table: the state each event needs, and the call it must be about. */
  lemma EventCommitsExactly(d: Data, e: Event)
    requires Valid(d)
    ensures Handle(d, e).Ok? <==>
            match e
            case EngineReady => d.state.Initializing?
            case UserMessageSubmitted(_, _) => d.state.Idle?
            case AssistantMessageReceived(_) => d.state.WaitingLLM?
            case ToolBatchReceived(_, calls, _) => d.state.WaitingLLM? && calls != []
            case ToolCallNeedsApproval(call, _) => d.state.AdvancingQueue? && IsNext(d, call)
            case ToolCallReadyToRun(call) => d.state.AdvancingQueue? && IsNext(d, call)
            case ToolCallDenied(call, _) => d.state.AdvancingQueue? && IsNext(d, call)
            case ToolBatchFinished => d.state.AdvancingQueue? && d.batch.value.index == |d.batch.value.calls|
            case ToolResultReceived(call, _) => d.state.RunningTool? && SameToolCall(call, d.currentTool.value)
            case ApprovalGranted(call) => d.state.WaitingApproval? && SameToolCall(call, d.pendingTool.value)
            case ApprovalAlwaysGranted(call) => d.state.WaitingApproval? && SameToolCall(call, d.pendingTool.value)
            case ApprovalDenied(call) => d.state.WaitingApproval? && SameToolCall(call, d.pendingTool.value)
            case ErrorOccurred(_) => true
            case CancelRequested => true
            case ResetRequested => true
  {
    TransitionKeepsInv(d, e);
  }

  // ----- What it commits -----

  /** One more message, and nothing else but the state and what is named. */
  predicate Says(d: Data, next: Data, state: State) {
    && Adds(d.messages, next.messages) && next.state == state && next.content == next.reasoning == ""
  }

  predicate SameWork(d: Data, next: Data) {
    && next.pendingTool == d.pendingTool && next.pendingPermission == d.pendingPermission
    && next.currentTool == d.currentTool && next.batch == d.batch
  }

  /** The user, and the model without tools. */
  lemma MessageEventEffects(d: Data, e: Event)
    requires Valid(d) && Handle(d, e).Ok?
    ensures e.ToolBatchReceived? ==> e.calls != []
    ensures var next := Handle(d, e).value.0;
            && (e.EngineReady? ==> next == d.(state := Idle))
            && (e.UserMessageSubmitted? ==>
                  && Says(d, next, WaitingLLM) && SameWork(d, next)
                  && IsUser(Newest(next.messages), e.text, e.attachments))
            && (e.AssistantMessageReceived? ==>
                  && Says(d, next, Idle) && SameWork(d, next)
                  && IsReply(Newest(next.messages), e.response.content, e.response.reasoning, [], false))
            && (e.ToolBatchReceived? ==>
                  && Says(d, next, AdvancingQueue)
                  && IsReply(Newest(next.messages), e.content, e.reasoning, e.calls, false)
                  && next.batch == Some(Batch(if e.calls[0].id == "" then "batch" else "batch-" + e.calls[0].id,
                                              e.calls, 0)))
            && (e.ResetRequested? ==> next == Data(Idle, SystemMessages(d.messages), None, None, None, None, "", ""))
  {
    TransitionKeepsInv(d, e);
    AcceptedIsHandled(d, e);
  }

  /** The position behind the next call. */
  predicate Advances(d: Data, next: Data) {
    && d.batch.Some? && next.batch.Some?
    && next.batch.value == d.batch.value.(index := d.batch.value.index + 1)
  }

  /** The next call of a batch. */
  lemma QueueEventEffects(d: Data, e: Event)
    requires Valid(d) && Handle(d, e).Ok?
    ensures var next := Handle(d, e).value.0;
            && (e.ToolBatchFinished? ==> next == d.(state := WaitingLLM, batch := None))
            && (e.ToolCallNeedsApproval? ==>
                  && Advances(d, next) && next.messages == d.messages && next.state.WaitingApproval?
                  && next.pendingTool == Some(e.call) && next.pendingPermission == Some(e.request)
                  && next.currentTool.None?)
            && (e.ToolCallReadyToRun? ==>
                  && Advances(d, next) && next.messages == d.messages && next.state.RunningTool?
                  && next.currentTool == Some(e.call) && next.pendingTool.None?)
            && (e.ToolCallDenied? ==>
                  && Advances(d, next) && Says(d, next, AdvancingQueue)
                  && IsAnswer(Newest(next.messages), e.call, "denied by permission policy: " + e.reason)
                  && next.currentTool.None? && next.pendingTool.None?)
  {
    TransitionKeepsInv(d, e);
    AcceptedIsHandled(d, e);
  }

  /** The call in hand. */
  lemma CallEventEffects(d: Data, e: Event)
    requires Valid(d) && Handle(d, e).Ok?
    ensures var next := Handle(d, e).value.0;
            && (e.ToolResultReceived? ==>
                  && Says(d, next, AdvancingQueue) && IsAnswer(Newest(next.messages), e.call, e.result)
                  && next.currentTool.None? && next.pendingTool.None? && next.batch == d.batch)
            && (e.ApprovalGranted? || e.ApprovalAlwaysGranted? ==>
                  && next.messages == d.messages && next.state.RunningTool? && next.batch == d.batch
                  && next.currentTool == Some(e.call) && next.pendingTool.None?)
            && (e.ApprovalDenied? ==>
                  && Says(d, next, AdvancingQueue) && IsAnswer(Newest(next.messages), e.call, "denied: " + e.call.name)
                  && next.currentTool.None? && next.pendingTool.None? && next.batch == d.batch)
  {
    TransitionKeepsInv(d, e);
    AcceptedIsHandled(d, e);
  }
}
