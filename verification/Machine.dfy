/**
 The pure domain core (`runtime/machine`): states, events, data changes, validation and the
 transition table. Handlers return a decision; `Commit` turns a decision into new data.
 */
module Machine {
  import opened Outcomes
  import opened Protocol

  datatype State = Initializing | Idle | WaitingLLM | WaitingApproval | RunningTool | AdvancingQueue

  datatype Batch = Batch(id: string, calls: seq<ToolCall>, index: int)

  /** The value of a `RuntimeData` object. */
  datatype Data = Data(
    state: State,
    messages: seq<Message>,
    pendingTool: Option<ToolCall>,
    pendingPermission: Option<Request>,
    currentTool: Option<ToolCall>,
    batch: Option<Batch>,
    content: string,
    reasoning: string)

  datatype Event =
    | UserMessageSubmitted(text: string, attachments: seq<Attachment>)
    | AssistantMessageReceived(response: ModelResponse)
    | ToolBatchReceived(content: string, calls: seq<ToolCall>, reasoning: string)
    | ToolCallNeedsApproval(call: ToolCall, request: Request)
    | ToolCallReadyToRun(call: ToolCall)
    | ToolCallDenied(call: ToolCall, reason: string)
    | ToolBatchFinished
    | ToolResultReceived(call: ToolCall, result: string)
    | ApprovalGranted(call: ToolCall)
    | ApprovalAlwaysGranted(call: ToolCall)
    | ApprovalDenied(call: ToolCall)
    | ErrorOccurred(err: Option<string>)
    | CancelRequested
    | ResetRequested
    | EngineReady

  datatype Change =
    | AppendUserMessage(content: string, attachments: seq<Attachment>)
    | AppendAssistantMessage(message: Message)
    | AppendToolResult(call: ToolCall, result: string)
    | AppendStreamingAssistant(chunk: StreamChunk)
    | FlushStreamingAssistant(interrupted: bool)
    | SetPendingTool(call: ToolCall, request: Request)
    | SetCurrentTool(call: ToolCall)
    | SetToolCallBatch(id: string, calls: seq<ToolCall>)
    | AdvanceToolCallBatch
    | ClearPendingTool
    | ClearCurrentTool
    | ClearToolCallBatch
    | ResetConversation

  datatype Action = CallModel | RunTool(call: ToolCall) | CheckToolQueue | AwaitApproval(call: ToolCall, request: Request)

  datatype ActionPlan = ActionPlan(clearExisting: bool, schedule: seq<Action>)

  datatype TransitionResult = TransitionResult(nextState: State, changes: seq<Change>, plan: ActionPlan)

  datatype MachineError = UnexpectedEvent | ProtocolViolation | InvariantViolation

  // ----- snapshot.py -----

  /** Compares by id when either call has one, by name and input otherwise. */
  predicate SameToolCall(left: ToolCall, right: ToolCall) {
    if left.id != "" || right.id != "" then left.id != "" && left.id == right.id
    else left.name == right.name && left.input == right.input
  }

  predicate PreviousCallMatches(batch: Option<Batch>, call: Option<ToolCall>) {
    && batch.Some? && call.Some?
    && 0 < batch.value.index <= |batch.value.calls|
    && SameToolCall(batch.value.calls[batch.value.index - 1], call.value)
  }

  predicate Valid(d: Data) {
    && (d.batch.Some? ==> 0 <= d.batch.value.index <= |d.batch.value.calls|)
    && (d.pendingTool.None? ==> d.pendingPermission.None?)
    && (d.content != "" || d.reasoning != "" ==> d.state.WaitingLLM?)
    && match d.state
       case Initializing | Idle | WaitingLLM =>
         d.pendingTool.None? && d.pendingPermission.None? && d.currentTool.None? && d.batch.None?
       case AdvancingQueue =>
         d.batch.Some? && d.pendingTool.None? && d.pendingPermission.None? && d.currentTool.None?
       case WaitingApproval =>
         && d.batch.Some? && d.pendingTool.Some? && d.pendingPermission.Some? && d.currentTool.None?
         && PreviousCallMatches(d.batch, d.pendingTool)
       case RunningTool =>
         && d.batch.Some? && d.currentTool.Some? && d.pendingTool.None? && d.pendingPermission.None?
         && PreviousCallMatches(d.batch, d.currentTool)
  }

  datatype QueueView = QueueView(hasBatch: bool, next: Option<ToolCall>, remaining: seq<ToolCall>) {
    predicate Empty() {
      hasBatch && next.None?
    }
  }

  datatype Snapshot = Snapshot(
    state: State, pendingTool: Option<ToolCall>, currentTool: Option<ToolCall>, queue: QueueView)

  function SnapshotFrom(d: Data): Result<Snapshot, MachineError> {
    if !Valid(d) then Err(InvariantViolation)
    else
      var view :=
        if d.batch.Some? && d.batch.value.index < |d.batch.value.calls|
        then QueueView(true, Some(d.batch.value.calls[d.batch.value.index]), d.batch.value.calls[d.batch.value.index..])
        else QueueView(d.batch.Some?, None, []);
      Ok(Snapshot(d.state, d.pendingTool, d.currentTool, view))
  }

  // ----- transition.py -----

  const Nothing := ActionPlan(false, [])
  const ClearAll := ActionPlan(true, [])

  function Schedule(a: Action): ActionPlan {
    ActionPlan(false, [a])
  }

  /** The state-specific row if there is one, the global row otherwise. */
  function Transition(s: Snapshot, e: Event): Result<TransitionResult, MachineError> {
    match e
    case EngineReady =>
      if s.state.Initializing? then Ok(TransitionResult(Idle, [], Nothing)) else Err(UnexpectedEvent)
    case UserMessageSubmitted(text, attachments) =>
      if s.state.Idle?
      then Ok(TransitionResult(WaitingLLM, [AppendUserMessage(text, attachments)], Schedule(CallModel)))
      else Err(UnexpectedEvent)
    case AssistantMessageReceived(r) =>
      if s.state.WaitingLLM?
      then Ok(TransitionResult(
                Idle, [AppendAssistantMessage(AssistantMessage(r.content, r.reasoning, [], false))], Nothing))
      else Err(UnexpectedEvent)
    case ToolBatchReceived(content, calls, reasoning) =>
      if s.state.WaitingLLM? then HandleToolBatchReceived(content, calls, reasoning) else Err(UnexpectedEvent)
    case ApprovalGranted(call) =>
      if s.state.WaitingApproval? then ApproveTool(s, call) else Err(UnexpectedEvent)
    case ApprovalAlwaysGranted(call) =>
      if s.state.WaitingApproval? then ApproveTool(s, call) else Err(UnexpectedEvent)
    case ApprovalDenied(call) =>
      if s.state.WaitingApproval? then HandleApprovalDenied(s, call) else Err(UnexpectedEvent)
    case ToolResultReceived(call, result) =>
      if s.state.RunningTool? then HandleToolResultReceived(s, call, result) else Err(UnexpectedEvent)
    case ToolBatchFinished =>
      if !s.state.AdvancingQueue? then Err(UnexpectedEvent)
      else if !s.queue.Empty() then Err(ProtocolViolation)
      else Ok(TransitionResult(WaitingLLM, [ClearToolCallBatch], Schedule(CallModel)))
    case ToolCallNeedsApproval(call, request) =>
      if !s.state.AdvancingQueue? then Err(UnexpectedEvent)
      else if !NextIs(s, call) then Err(ProtocolViolation)
      else Ok(TransitionResult(WaitingApproval, [SetPendingTool(call, request), AdvanceToolCallBatch],
                               Schedule(AwaitApproval(call, request))))
    case ToolCallReadyToRun(call) =>
      if !s.state.AdvancingQueue? then Err(UnexpectedEvent)
      else if !NextIs(s, call) then Err(ProtocolViolation)
      else Ok(TransitionResult(RunningTool, [AdvanceToolCallBatch, SetCurrentTool(call)], Schedule(RunTool(call))))
    case ToolCallDenied(call, reason) =>
      if !s.state.AdvancingQueue? then Err(UnexpectedEvent)
      else if !NextIs(s, call) then Err(ProtocolViolation)
      else Ok(TransitionResult(
                AdvancingQueue,
                [AdvanceToolCallBatch, AppendToolResult(call, "denied by permission policy: " + reason)],
                Schedule(CheckToolQueue)))
    case ErrorOccurred(err) =>
      var reason := if err.Some? then err.value else "unknown runtime error";
      Ok(EndRun(s, reason, "not executed: " + reason))
    case CancelRequested =>
      Ok(EndRun(s, "cancelled", "not executed: cancelled"))
    case ResetRequested =>
      Ok(TransitionResult(Idle, [ResetConversation], ClearAll))
  }

  predicate NextIs(s: Snapshot, call: ToolCall) {
    s.queue.next.Some? && SameToolCall(call, s.queue.next.value)
  }

  function HandleToolBatchReceived(content: string, calls: seq<ToolCall>, reasoning: string)
    : Result<TransitionResult, MachineError>
  {
    if calls == [] then Err(ProtocolViolation)
    else
      var id := if calls[0].id == "" then "batch" else "batch-" + calls[0].id;
      Ok(TransitionResult(
           AdvancingQueue,
           [AppendAssistantMessage(AssistantMessage(content, reasoning, calls, false)), SetToolCallBatch(id, calls)],
           Schedule(CheckToolQueue)))
  }

  function ApproveTool(s: Snapshot, call: ToolCall): Result<TransitionResult, MachineError> {
    if s.pendingTool.None? || !SameToolCall(call, s.pendingTool.value) then Err(ProtocolViolation)
    else Ok(TransitionResult(RunningTool, [SetCurrentTool(call), ClearPendingTool], Schedule(RunTool(call))))
  }

  function HandleApprovalDenied(s: Snapshot, call: ToolCall): Result<TransitionResult, MachineError> {
    if s.pendingTool.None? || !SameToolCall(call, s.pendingTool.value) then Err(ProtocolViolation)
    else Ok(TransitionResult(
              AdvancingQueue, [ClearPendingTool, AppendToolResult(call, "denied: " + call.name)],
              Schedule(CheckToolQueue)))
  }

  function HandleToolResultReceived(s: Snapshot, call: ToolCall, result: string)
    : Result<TransitionResult, MachineError>
  {
    if s.currentTool.None? || !SameToolCall(call, s.currentTool.value) then Err(ProtocolViolation)
    else Ok(TransitionResult(
              AdvancingQueue, [AppendToolResult(call, result), ClearCurrentTool], Schedule(CheckToolQueue)))
  }

  function AnswerAll(calls: seq<ToolCall>, result: string): seq<Change> {
    if calls == [] then []
    else AnswerAll(calls[..|calls| - 1], result) + [AppendToolResult(calls[|calls| - 1], result)]
  }

  /** One answer for the pending call, the running call and each call not yet reached. */
  function Outstanding(s: Snapshot, runningResult: string, notExecuted: string): seq<Change> {
    (if s.pendingTool.Some? then [AppendToolResult(s.pendingTool.value, notExecuted)] else [])
    + (if s.currentTool.Some? then [AppendToolResult(s.currentTool.value, runningResult)] else [])
    + AnswerAll(s.queue.remaining, notExecuted)
  }

  function EndRun(s: Snapshot, runningResult: string, notExecuted: string): TransitionResult {
    TransitionResult(
      Idle,
      [FlushStreamingAssistant(true)] + Outstanding(s, runningResult, notExecuted)
      + [ClearPendingTool, ClearCurrentTool, ClearToolCallBatch],
      ClearAll)
  }

  /** The loop form of `outstanding_tool_results`. */
  method OutstandingToolResults(s: Snapshot, runningResult: string, notExecuted: string)
    returns (results: seq<Change>)
    ensures results == Outstanding(s, runningResult, notExecuted)
  {
    results := [];
    if s.pendingTool.Some? {
      results := results + [AppendToolResult(s.pendingTool.value, notExecuted)];
    }
    if s.currentTool.Some? {
      results := results + [AppendToolResult(s.currentTool.value, runningResult)];
    }
    ghost var head := results;
    for i := 0 to |s.queue.remaining|
      invariant results == head + AnswerAll(s.queue.remaining[..i], notExecuted)
    {
      results := results + [AppendToolResult(s.queue.remaining[i], notExecuted)];
      assert s.queue.remaining[..i + 1][..i] == s.queue.remaining[..i];
    }
    assert s.queue.remaining[..|s.queue.remaining|] == s.queue.remaining;
  }

  // ----- runtime_data_change_applier.py, on values -----

  predicate TouchesMessages(c: Change) {
    c.AppendUserMessage? || c.AppendAssistantMessage? || c.AppendToolResult? || c.FlushStreamingAssistant?
    || c.ResetConversation?
  }

  function ApplyChange(d: Data, c: Change): Result<Data, MachineError> {
    match c
    case AppendUserMessage(content, attachments) =>
      Ok(d.(content := "", reasoning := "", messages := d.messages + [UserMessage(content, attachments)]))
    case AppendAssistantMessage(message) =>
      Ok(d.(content := "", reasoning := "", messages := d.messages + [message]))
    case AppendToolResult(call, result) =>
      Ok(d.(content := "", reasoning := "", messages := d.messages + [ToolMessage(call, result)]))
    case AppendStreamingAssistant(chunk) =>
      Ok(d.(content := d.content + chunk.contentDelta, reasoning := d.reasoning + chunk.reasoningDelta))
    case FlushStreamingAssistant(interrupted) =>
      var flushed := if d.content != "" || d.reasoning != ""
                     then d.messages + [AssistantMessage(d.content, d.reasoning, [], interrupted)]
                     else d.messages;
      Ok(d.(content := "", reasoning := "", messages := flushed))
    case SetPendingTool(call, request) =>
      Ok(d.(pendingTool := Some(call), pendingPermission := Some(request)))
    case SetCurrentTool(call) =>
      Ok(d.(currentTool := Some(call)))
    case SetToolCallBatch(id, calls) =>
      Ok(d.(batch := Some(Batch(id, calls, 0))))
    case AdvanceToolCallBatch =>
      if d.batch.None? || d.batch.value.index >= |d.batch.value.calls| then Err(InvariantViolation)
      else Ok(d.(batch := Some(d.batch.value.(index := d.batch.value.index + 1))))
    case ClearPendingTool =>
      Ok(d.(pendingTool := None, pendingPermission := None))
    case ClearCurrentTool =>
      Ok(d.(currentTool := None))
    case ClearToolCallBatch =>
      Ok(d.(batch := None))
    case ResetConversation =>
      Ok(Data(d.state, SystemMessages(d.messages), None, None, None, None, "", ""))
  }

  function ApplyChanges(d: Data, cs: seq<Change>): Result<Data, MachineError>
    decreases |cs|
  {
    if cs == [] then Ok(d)
    else
      var next :- ApplyChange(d, cs[0]);
      ApplyChanges(next, cs[1..])
  }

  /** Applies a decision to a full copy of the data and validates the candidate. */
  function Commit(d: Data, r: TransitionResult): Result<Data, MachineError> {
    var candidate :- ApplyChanges(d.(state := r.nextState), r.changes);
    if Valid(candidate) then Ok(candidate) else Err(InvariantViolation)
  }

  /** Snapshot, decide, commit: what one event does to the data. */
  function Handle(d: Data, e: Event): Result<(Data, ActionPlan), MachineError> {
    var snapshot :- SnapshotFrom(d);
    var decision :- Transition(snapshot, e);
    var next :- Commit(d, decision);
    Ok((next, decision.plan))
  }
}
