/**
 The mutable `RuntimeData` and the clone/apply/validate transaction over it
 (`runtime/machine/runtime_data_change_applier.py`). A message list is an object of its own,
 because a clone shares it with the committed data unless some change touches it.
 */
module RuntimeDataApplier {
  import opened Outcomes
  import opened Protocol
  import opened Machine

  class MessageList {
    var items: seq<Message>

    constructor (items: seq<Message>)
      ensures this.items == items
    {
      this.items := items;
    }
  }

  class ToolCallBatch {
    var id: string
    var calls: seq<ToolCall>
    var index: int

    constructor (id: string, calls: seq<ToolCall>, index: int)
      ensures this.id == id && this.calls == calls && this.index == index
    {
      this.id, this.calls, this.index := id, calls, index;
    }
  }

  class RuntimeData {
    var state: State
    var messages: MessageList
    var pendingTool: Option<ToolCall>
    var pendingPermission: Option<Request>
    var currentTool: Option<ToolCall>
    var batch: ToolCallBatch?
    var content: string
    var reasoning: string

    constructor (state: State, messages: MessageList)
      ensures View() == Data(state, messages.items, None, None, None, None, "", "")
      ensures this.messages == messages && this.batch == null
    {
      this.state, this.messages := state, messages;
      pendingTool, pendingPermission, currentTool, batch := None, None, None, null;
      content, reasoning := "", "";
    }

    ghost function View(): Data
      reads this, messages, batch
    {
      Data(state, messages.items, pendingTool, pendingPermission, currentTool,
           if batch == null then None else Some(Batch(batch.id, batch.calls, batch.index)),
           content, reasoning)
    }

    /** The checks of `validate_runtime_data`, run on the object. */
    method Validate() returns (ok: bool)
      ensures ok == Valid(View())
    {
      if batch != null && (batch.index < 0 || batch.index > |batch.calls|) {
        return false;
      }
      if pendingTool.None? && pendingPermission.Some? {
        return false;
      }
      if (content != "" || reasoning != "") && !state.WaitingLLM? {
        return false;
      }
      match state {
        case Initializing | Idle | WaitingLLM =>
          ok := pendingTool.None? && pendingPermission.None? && currentTool.None? && batch == null;
        case AdvancingQueue =>
          ok := batch != null && pendingTool.None? && pendingPermission.None? && currentTool.None?;
        case WaitingApproval =>
          ok := batch != null && pendingTool.Some? && pendingPermission.Some? && currentTool.None?
                && 0 < batch.index && SameToolCall(batch.calls[batch.index - 1], pendingTool.value);
        case RunningTool =>
          ok := batch != null && currentTool.Some? && pendingTool.None? && pendingPermission.None?
                && 0 < batch.index && SameToolCall(batch.calls[batch.index - 1], currentTool.value);
      }
    }
  }

  method CloneRuntimeData(d: RuntimeData, cloneMessages: bool) returns (c: RuntimeData)
    ensures fresh(c) && c.View() == d.View()
    ensures if cloneMessages then fresh(c.messages) else c.messages == d.messages
    ensures c.batch != null ==> fresh(c.batch)
  {
    var messages := d.messages;
    if cloneMessages {
      messages := new MessageList(d.messages.items);
    }
    c := new RuntimeData(d.state, messages);
    c.pendingTool, c.pendingPermission, c.currentTool := d.pendingTool, d.pendingPermission, d.currentTool;
    c.content, c.reasoning := d.content, d.reasoning;
    if d.batch != null {
      c.batch := new ToolCallBatch(d.batch.id, d.batch.calls, d.batch.index);
    }
  }

  /**
   Applies one change in place. The message list is written only by the changes that touch
   messages, which is what makes sharing it safe.
   */
  method ApplyRuntimeDataChange(d: RuntimeData, c: Change) returns (applied: bool)
    modifies d, d.batch, if TouchesMessages(c) then {d.messages} else {}
    ensures applied == ApplyChange(old(d.View()), c).Ok?
    ensures d.View() == if applied then ApplyChange(old(d.View()), c).value else old(d.View())
    ensures d.messages == old(d.messages) || (TouchesMessages(c) && fresh(d.messages))
    ensures d.batch == null || d.batch == old(d.batch) || fresh(d.batch)
  {
    applied := true;
    match c {
      case AppendUserMessage(content, attachments) =>
        d.content, d.reasoning := "", "";
        d.messages.items := d.messages.items + [UserMessage(content, attachments)];
      case AppendAssistantMessage(message) =>
        d.content, d.reasoning := "", "";
        d.messages.items := d.messages.items + [message];
      case AppendToolResult(call, result) =>
        d.content, d.reasoning := "", "";
        d.messages.items := d.messages.items + [ToolMessage(call, result)];
      case AppendStreamingAssistant(chunk) =>
        d.content := d.content + chunk.contentDelta;
        d.reasoning := d.reasoning + chunk.reasoningDelta;
      case FlushStreamingAssistant(interrupted) =>
        if d.content != "" || d.reasoning != "" {
          d.messages.items := d.messages.items + [AssistantMessage(d.content, d.reasoning, [], interrupted)];
        }
        d.content, d.reasoning := "", "";
      case SetPendingTool(call, request) =>
        d.pendingTool, d.pendingPermission := Some(call), Some(request);
      case SetCurrentTool(call) =>
        d.currentTool := Some(call);
      case SetToolCallBatch(id, calls) =>
        d.batch := new ToolCallBatch(id, calls, 0);
      case AdvanceToolCallBatch =>
        if d.batch == null || d.batch.index >= |d.batch.calls| {
          applied := false;
        } else {
          d.batch.index := d.batch.index + 1;
        }
      case ClearPendingTool =>
        d.pendingTool, d.pendingPermission := None, None;
      case ClearCurrentTool =>
        d.currentTool := None;
      case ClearToolCallBatch =>
        d.batch := null;
      case ResetConversation =>
        d.messages := new MessageList(SystemMessages(d.messages.items));
        d.pendingTool, d.pendingPermission, d.currentTool, d.batch := None, None, None, null;
        d.content, d.reasoning := "", "";
    }
  }

  /**
   Copy-on-write refines a full copy: sharing the list when no change touches it gives the same
   outcome as folding the changes over a deep clone, and the committed objects are never written,
   so a rejected candidate leaves no trace.
   */
  method ApplyRuntimeDataChanges(committed: RuntimeData, r: TransitionResult)
    returns (out: Result<RuntimeData, MachineError>)
    ensures unchanged(committed, committed.messages)
    ensures committed.batch != null ==> unchanged(committed.batch)
    ensures match Commit(old(committed.View()), r)
            case Err(e) => out == Err(e)
            case Ok(data) => out.Ok? && fresh(out.value) && out.value.View() == data
                             && (out.value.batch != null ==> fresh(out.value.batch))
                             && (out.value.messages == committed.messages || fresh(out.value.messages))
  {
    var changesMessages := false;
    for i := 0 to |r.changes|
      invariant changesMessages <==> exists j :: 0 <= j < i && TouchesMessages(r.changes[j])
    {
      changesMessages := changesMessages || TouchesMessages(r.changes[i]);
    }
    var next := CloneRuntimeData(committed, changesMessages);
    next.state := r.nextState;
    ghost var start := next.View();
    for i := 0 to |r.changes|
      invariant fresh(next) && (next.batch != null ==> fresh(next.batch))
      invariant if changesMessages then fresh(next.messages) else next.messages == committed.messages
      invariant unchanged(committed, committed.messages)
      invariant committed.batch != null ==> unchanged(committed.batch)
      invariant ApplyChanges(start, r.changes) == ApplyChanges(next.View(), r.changes[i..])
    {
      assert r.changes[i..][1..] == r.changes[i + 1..];
      var applied := ApplyRuntimeDataChange(next, r.changes[i]);
      if !applied {
        return Err(InvariantViolation);
      }
    }
    var ok := next.Validate();
    out := if ok then Ok(next) else Err(InvariantViolation);
  }
}
