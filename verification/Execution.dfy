/**
 Execution ports (`runtime/execution`): running one scheduled action, resolving its result to
 an event, the action queue and the run controller. A run id is its number; 0 is the zero id.
 */
module Execution {
  import opened Outcomes
  import opened Protocol
  import opened Machine

  datatype ApprovalDecision = ApproveOnce | ApproveAlways | DenyApproval | UnknownDecision

  datatype ToolDecision = DecisionNeedsApproval | DecisionRunDirectly | DecisionDenied

  datatype ActionResult =
    | ModelReplied(response: ModelResponse)
    | ToolFinished(call: ToolCall, result: string)
    | ToolQueueChecked
    | ApprovalReceived(call: ToolCall, decision: ApprovalDecision)

  /** What a configured port does when it is called. `RaisedFatal` is not an `Exception`. */
  datatype PortAnswer<+T> =
    | Returned(value: T)
    | RaisedCancelled
    | RaisedError(message: string)
    | RaisedFatal(message: string)

  /** The model, the tool runner and the human; `None` is a port that is not configured. */
  datatype Ports = Ports(
    model: Option<PortAnswer<ModelResponse>>,
    tools: Option<PortAnswer<string>>,
    approval: Option<PortAnswer<ApprovalDecision>>)

  datatype Outcome = Finished(result: ActionResult) | WasCancelled | Failed(message: string)

  // ----- scheduled_action_executor.py -----

  function Execute(ports: Ports, action: Action): Outcome {
    match action
    case CallModel =>
      if ports.model.None? then Failed("no model is configured")
      else (match ports.model.value
            case Returned(response) => Finished(ModelReplied(response))
            case RaisedCancelled => WasCancelled
            case RaisedError(m) => Failed(m)
            case RaisedFatal(m) => Failed(m))
    case RunTool(call) =>
      if ports.tools.None? then Failed("no tools are configured")
      else (match ports.tools.value
            case Returned(result) => Finished(ToolFinished(call, result))
            case RaisedCancelled => WasCancelled
            case RaisedError(m) => Finished(ToolFinished(call, "Error: " + m))
            case RaisedFatal(m) => Failed(m))
    case CheckToolQueue => Finished(ToolQueueChecked)
    case AwaitApproval(call, _) =>
      if ports.approval.None? then Failed("approval waiter is not configured")
      else (match ports.approval.value
            case Returned(decision) => Finished(ApprovalReceived(call, decision))
            case RaisedCancelled => WasCancelled
            case RaisedError(m) => Failed(m)
            case RaisedFatal(m) => Failed(m))
  }

  // ----- action_result_resolver.py -----

  /**
   The policy as the resolver sees it: any classification, always-allow decisions included, and
   any description of a call. Either may raise, as the approval key of an input that does not
   encode does. `remember` is the error that recording an always-allow decision raises, if any.
   */
  datatype Policy = Policy(
    decide: (ToolCall, seq<ToolSpec>) -> Result<ToolDecision, string>,
    request: (ToolCall, seq<ToolSpec>) -> Result<Request, string>,
    remember: ToolCall -> Option<string>)

  function ResolveToolCall(call: ToolCall, specs: seq<ToolSpec>, policy: Policy): Result<Event, string> {
    var decision :- policy.decide(call, specs);
    if decision.DecisionRunDirectly? then Ok(ToolCallReadyToRun(call))
    else
      var request :- policy.request(call, specs);
      if decision.DecisionDenied? then Ok(ToolCallDenied(call, request.reason))
      else Ok(ToolCallNeedsApproval(call, request))
  }

  /** The error that keeping an approval for good raises, behind the commit of the event. */
  function RememberError(policy: Policy, event: Event): Option<string> {
    if event.ApprovalAlwaysGranted? then policy.remember(event.call) else None
  }

  function Resolve(result: ActionResult, batch: Option<Batch>, specs: seq<ToolSpec>, policy: Policy)
    : Result<Event, string>
    requires batch.Some? ==> 0 <= batch.value.index
  {
    match result
    case ModelReplied(r) =>
      if r.toolCalls == [] then Ok(AssistantMessageReceived(r))
      else if specs == [] then Err("model returned tool call while tools are disabled")
      else Ok(ToolBatchReceived(r.content, r.toolCalls, r.reasoning))
    case ToolFinished(call, text) => Ok(ToolResultReceived(call, text))
    case ToolQueueChecked =>
      if batch.None? || batch.value.index >= |batch.value.calls| then Ok(ToolBatchFinished)
      else ResolveToolCall(batch.value.calls[batch.value.index], specs, policy)
    case ApprovalReceived(call, decision) =>
      match decision
      case ApproveOnce => Ok(ApprovalGranted(call))
      case ApproveAlways => Ok(ApprovalAlwaysGranted(call))
      case DenyApproval => Ok(ApprovalDenied(call))
      case UnknownDecision => Err("unknown approval decision")
  }

  // ----- action_queue.py -----

  datatype QueuedAction = QueuedAction(run: nat, id: nat, action: Action)

  class ActionQueue {
    var queue: seq<QueuedAction>
    var next: nat

    constructor ()
      ensures queue == [] && next == 0
    {
      queue, next := [], 0;
    }

    method Queue(run: nat, action: Action) returns (queued: QueuedAction)
      modifies this
      ensures next == old(next) + 1
      ensures queued == QueuedAction(run, next, action)
      ensures queue == old(queue) + [queued]
    {
      next := next + 1;
      queued := QueuedAction(run, next, action);
      queue := queue + [queued];
    }

    method Pop() returns (popped: Option<QueuedAction>)
      modifies this`queue
      ensures if old(queue) == [] then popped == None && queue == []
              else popped == Some(old(queue)[0]) && queue == old(queue)[1..]
    {
      if queue == [] {
        popped := None;
      } else {
        popped := Some(queue[0]);
        queue := queue[1..];
      }
    }

    /** The counter is not reset, so an action id is never used twice. */
    method Clear()
      modifies this`queue
      ensures queue == []
    {
      queue := [];
    }
  }

  // ----- run_controller.py -----

  class RunController {
    var next: nat
    var runId: nat
    var active: bool

    ghost predicate Valid()
      reads this
    {
      runId == next && (active ==> runId != 0)
    }

    constructor ()
      ensures Valid() && runId == 0 && !active
    {
      next, runId, active := 0, 0, false;
    }

    method StartRun() returns (run: nat)
      requires Valid()
      modifies this
      ensures Valid() && run == runId == old(runId) + 1 && active
    {
      active := false;
      next := next + 1;
      runId := next;
      active := true;
      run := runId;
    }

    method InvalidateCurrentRun()
      requires Valid()
      modifies this
      ensures Valid() && runId == old(runId) + 1 && !active
    {
      active := false;
      next := next + 1;
      runId := next;
    }

    method CancelRun()
      requires Valid()
      modifies this
      ensures Valid() && runId == old(runId) + 1 && !active
    {
      active := false;
      next := next + 1;
      runId := next;
    }

    /** Ends the run's context but does not retire its id. */
    method FinishRun(run: nat)
      requires Valid()
      modifies this`active
      ensures Valid() && active == (old(active) && !(run != 0 && run == runId))
    {
      if run == 0 || run != runId {
        return;
      }
      active := false;
    }

    method IsCurrent(run: nat) returns (current: bool)
      ensures current == (run != 0 && run == runId)
    {
      current := run != 0 && run == runId;
    }
  }
}
