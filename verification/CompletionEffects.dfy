/**
 What the answer of each port makes of a turn (`runtime/engine/action_loop.py`, with the executor and
 the resolver behind it), stated on the data alone; and what a command makes of the engine.
 */
module CompletionEffects {
  import opened Outcomes
  import opened Protocol
  import opened Machine
  import opened MachineInvariant
  import opened Execution
  import opened EngineSteps
  import opened EngineInvariant
  import opened EventEffects

  /** An action of the current run is with its port. */
  predicate Works(e: Engine) {
    EngineInv(e) && e.loop.Executing? && IsCurrent(e, e.loop.queued.run)
  }

  /** An approval for good that could not be recorded: the run ends where the grant had led it. */
  predicate EndsBehindGrant(d: Data, next: Data, call: ToolCall, reason: string)
    requires Valid(d) && d.state.WaitingApproval? && d.pendingTool == Some(call)
  {
    var granted := d.(state := RunningTool, currentTool := Some(call), pendingTool := None, pendingPermission := None);
    Valid(granted) && EndsAsError(granted, next, reason)
  }

  // ----- Failures -----

  lemma FailEffects(e: Engine, outcome: Outcome)
    requires Valid(e.data) && !outcome.Finished?
    ensures outcome.WasCancelled? ==> EndsAsCancelled(e.data, Fail(e, outcome).data)
    ensures outcome.Failed? ==> EndsAsError(e.data, Fail(e, outcome).data, outcome.message)
  {
    if outcome.WasCancelled? {
      TerminalEventSettles(CancelRun(e), CancelRequested);
      EndedEndsWith(e.data, "cancelled", "not executed: cancelled");
    } else {
      TerminalEventSettles(e, ErrorOccurred(Some(outcome.message)));
      EndedEndsWith(e.data, outcome.message, "not executed: " + outcome.message);
    }
  }

  /** A completion that resolves commits exactly what its event makes of the data. */
  lemma ResolvedEffects(e: Engine, env: Env, event: Event)
    requires Works(e) && Resolves(e, env, event) && RememberError(env.policy, event).None?
    ensures Handle(e.data, event).Ok? && CompleteAction(e, env).data == Handle(e.data, event).value.0
  {
    CompletionCommits(e, env, event);
    AcceptedIsHandled(e.data, event);
  }

  // ----- The model -----

  /** A reply without calls ends the turn; one with calls starts a batch, if tools are offered. */
  lemma {:induction false} ModelReplyArrives(e: Engine, env: Env, r: ModelResponse)
    requires Works(e) && e.data.state.WaitingLLM? && env.ports.model == Some(Returned(r))
    ensures var d, next := e.data, CompleteAction(e, env).data;
            if r.toolCalls == [] then
              && Says(d, next, Idle) && next.batch.None?
              && IsReply(Newest(next.messages), r.content, r.reasoning, [], false)
            else if env.specs == [] then
              EndsAsError(d, next, "model returned tool call while tools are disabled")
            else
              && Says(d, next, AdvancingQueue)
              && IsReply(Newest(next.messages), r.content, r.reasoning, r.toolCalls, false)
              && next.batch.Some? && next.batch.value.calls == r.toolCalls && next.batch.value.index == 0
  {
    if r.toolCalls == [] {
      ResolvedEffects(e, env, AssistantMessageReceived(r));
      MessageEventEffects(e.data, AssistantMessageReceived(r));
    } else if env.specs == [] {
      FailEffects(e, Failed("model returned tool call while tools are disabled"));
    } else {
      var event := ToolBatchReceived(r.content, r.toolCalls, r.reasoning);
      ResolvedEffects(e, env, event);
      MessageEventEffects(e.data, event);
    }
  }

  // ----- The queue -----

  /** The next call is run, asked about or refused as the policy says; a finished batch goes back to the model. */
  lemma {:induction false} NextCallIsClassified(e: Engine, env: Env)
    requires Works(e) && e.data.state.AdvancingQueue?
    ensures var d, next, batch := e.data, CompleteAction(e, env).data, e.data.batch.value;
            if batch.index == |batch.calls| then next == d.(state := WaitingLLM, batch := None)
            else
              var call := batch.calls[batch.index];
              match env.policy.decide(call, env.specs)
              case Err(m) => EndsAsError(d, next, m)
              case Ok(DecisionRunDirectly) =>
                && Advances(d, next) && next.messages == d.messages
                && next.state.RunningTool? && next.currentTool == Some(call)
              case Ok(DecisionDenied) =>
                (match env.policy.request(call, env.specs)
                 case Err(m) => EndsAsError(d, next, m)
                 case Ok(request) =>
                   && Advances(d, next) && Says(d, next, AdvancingQueue) && next.currentTool.None?
                   && IsAnswer(Newest(next.messages), call, "denied by permission policy: " + request.reason))
              case Ok(DecisionNeedsApproval) =>
                match env.policy.request(call, env.specs)
                case Err(m) => EndsAsError(d, next, m)
                case Ok(request) =>
                  && Advances(d, next) && next.messages == d.messages && next.currentTool.None?
                  && next.state.WaitingApproval? && next.pendingTool == Some(call)
                  && next.pendingPermission == Some(request)
  {
    var batch := e.data.batch.value;
    if batch.index == |batch.calls| {
      ResolvedEffects(e, env, ToolBatchFinished);
      QueueEventEffects(e.data, ToolBatchFinished);
    } else {
      var call := batch.calls[batch.index];
      match ResolveToolCall(call, env.specs, env.policy) {
        case Err(m) => FailEffects(e, Failed(m));
        case Ok(event) =>
          ResolvedEffects(e, env, event);
          QueueEventEffects(e.data, event);
      }
    }
  }

  // ----- The human -----

  /** A decision about the pending call: a denial runs nothing and says so. */
  lemma {:induction false} DecisionIsFollowed(e: Engine, env: Env, decision: ApprovalDecision)
    requires Works(e) && e.data.state.WaitingApproval? && env.ports.approval == Some(Returned(decision))
    ensures var d, next, call := e.data, CompleteAction(e, env).data, e.data.pendingTool.value;
            match decision
            case ApproveOnce =>
              && next.state.RunningTool? && next.currentTool == Some(call) && next.pendingTool.None?
              && next.messages == d.messages && next.batch == d.batch
            case ApproveAlways =>
              (match env.policy.remember(call)
               case None =>
                 && next.state.RunningTool? && next.currentTool == Some(call) && next.pendingTool.None?
                 && next.messages == d.messages && next.batch == d.batch
               case Some(m) => EndsBehindGrant(d, next, call, m))
            case DenyApproval =>
              && Says(d, next, AdvancingQueue) && IsAnswer(Newest(next.messages), call, "denied: " + call.name)
              && next.currentTool.None? && next.pendingTool.None? && next.batch == d.batch
            case UnknownDecision => EndsAsError(d, next, "unknown approval decision")
  {
    var call := e.data.pendingTool.value;
    match decision {
      case ApproveOnce =>
        ResolvedEffects(e, env, ApprovalGranted(call));
        CallEventEffects(e.data, ApprovalGranted(call));
      case ApproveAlways => AlwaysIsRecorded(e, env);
      case DenyApproval =>
        ResolvedEffects(e, env, ApprovalDenied(call));
        CallEventEffects(e.data, ApprovalDenied(call));
      case UnknownDecision => FailEffects(e, Failed("unknown approval decision"));
    }
  }

  lemma AlwaysIsRecorded(e: Engine, env: Env)
    requires Works(e) && e.data.state.WaitingApproval? && env.ports.approval == Some(Returned(ApproveAlways))
    ensures var d, next, call := e.data, CompleteAction(e, env).data, e.data.pendingTool.value;
            match env.policy.remember(call)
            case None =>
              && next.state.RunningTool? && next.currentTool == Some(call) && next.pendingTool.None?
              && next.messages == d.messages && next.batch == d.batch
            case Some(m) => EndsBehindGrant(d, next, call, m)
  {
    var call := e.data.pendingTool.value;
    match env.policy.remember(call) {
      case None =>
        ResolvedEffects(e, env, ApprovalAlwaysGranted(call));
        CallEventEffects(e.data, ApprovalAlwaysGranted(call));
      case Some(m) => GrantIsLost(e, env, call, m);
    }
  }

  lemma {:induction false} GrantIsLost(e: Engine, env: Env, call: ToolCall, m: string)
    requires Works(e) && e.data.state.WaitingApproval? && env.ports.approval == Some(Returned(ApproveAlways))
    requires e.data.pendingTool == Some(call) && env.policy.remember(call) == Some(m)
    ensures EndsBehindGrant(e.data, CompleteAction(e, env).data, call, m)
  {
    var event := ApprovalAlwaysGranted(call);
    CompletionCommits(e, env, event);
    var granted := Committed(e, event);
    assert granted.data == e.data.(state := RunningTool, currentTool := Some(call), pendingTool := None,
                                   pendingPermission := None);
    assert CompleteAction(e, env) == Fail(granted, Failed(m));
    FailEffects(granted, Failed(m));
  }

  // ----- The tool -----

  /** The tool's text is the content of its answer; an error it raises is one too. */
  lemma {:induction false} ToolAnswerArrives(e: Engine, env: Env, text: string)
    requires Works(e) && e.data.state.RunningTool?
    requires env.ports.tools == Some(Returned(text))
             || exists m :: env.ports.tools == Some(RaisedError(m)) && text == "Error: " + m
    ensures var d, next, call := e.data, CompleteAction(e, env).data, e.data.currentTool.value;
            && Says(d, next, AdvancingQueue) && IsAnswer(Newest(next.messages), call, text)
            && next.currentTool.None? && next.pendingTool.None? && next.batch == d.batch
  {
    var event := ToolResultReceived(e.data.currentTool.value, text);
    ResolvedEffects(e, env, event);
    CallEventEffects(e.data, event);
  }

  // ----- A port that fails -----

  /** What the port of the action in hand does instead of answering. */
  function Failure(d: Data, ports: Ports): Option<Outcome> {
    match d.state
    case WaitingLLM =>
      (match ports.model
       case None => Some(Failed("no model is configured"))
       case Some(RaisedCancelled) => Some(WasCancelled)
       case Some(RaisedError(m)) => Some(Failed(m))
       case Some(RaisedFatal(m)) => Some(Failed(m))
       case _ => None)
    case RunningTool =>
      (match ports.tools
       case None => Some(Failed("no tools are configured"))
       case Some(RaisedCancelled) => Some(WasCancelled)
       case Some(RaisedFatal(m)) => Some(Failed(m))
       case _ => None)
    case WaitingApproval =>
      (match ports.approval
       case None => Some(Failed("approval waiter is not configured"))
       case Some(RaisedCancelled) => Some(WasCancelled)
       case Some(RaisedError(m)) => Some(Failed(m))
       case Some(RaisedFatal(m)) => Some(Failed(m))
       case _ => None)
    case _ => None
  }

  /** A port that is missing, cancelled or broken ends the run; a tool that raises does not. */
  lemma {:induction false} FailedPortEndsRun(e: Engine, env: Env)
    requires Works(e) && Failure(e.data, env.ports).Some?
    ensures var next := CompleteAction(e, env).data;
            match Failure(e.data, env.ports).value
            case WasCancelled => EndsAsCancelled(e.data, next)
            case Failed(m) => EndsAsError(e.data, next, m)
  {
    FailEffects(e, Failure(e.data, env.ports).value);
  }

  // ----- Commands -----

  /** A cancel retires the run, drops its work and answers what it leaves. */
  lemma {:induction false} CancelEffects(e: Engine)
    requires EngineInv(e)
    ensures var next := Step(e, Cancel);
            && next.run == e.run + 1 && !next.active && next.queue == [] && next.loop == e.loop
            && EndsAsCancelled(e.data, next.data)
  {
    TerminalEventSettles(CancelRun(e), CancelRequested);
    EndedEndsWith(e.data, "cancelled", "not executed: cancelled");
  }

  /** A reset keeps the system messages alone, a replacement what it is given. */
  lemma {:induction false} RewriteEffects(e: Engine, messages: seq<Message>)
    requires EngineInv(e)
    ensures var next := Step(e, Reset);
            && next.run == e.run + 2 && !next.active && next.queue == [] && next.loop == e.loop
            && next.data == Data(Idle, SystemMessages(e.data.messages), None, None, None, None, "", "")
    ensures var next := Step(e, Replace(messages));
            && next.run == e.run + 2 && !next.active && next.queue == [] && next.loop == e.loop
            && next.data == Data(Idle, messages, None, None, None, None, "", "")
  {
    TerminalEventSettles(CancelRun(CancelRun(e)), ResetRequested);
  }

  /** A user message starts a run in idle, and is refused everywhere else. */
  lemma {:induction false} StartEffects(e: Engine, text: string, attachments: seq<Attachment>)
    requires EngineInv(e) && e.loop.Off?
    ensures var next := Step(e, StartTurn(text, attachments));
            if e.data.state.Idle? then
              && next.run == e.run + 1 && next.active && next.loop == Draining(e.run + 1)
              && Says(e.data, next.data, WaitingLLM) && IsUser(Newest(next.data.messages), text, attachments)
              && |next.queue| == 1 && next.queue[0].action == CallModel && next.queue[0].run == e.run + 1
            else next == e
  {
    var event := UserMessageSubmitted(text, attachments);
    EventCommitsExactly(e.data, event);
    TransitionKeepsInv(e.data, event);
    if e.data.state.Idle? {
      AcceptedIsHandled(e.data, event);
      MessageEventEffects(e.data, event);
      CommitPlanShape(e.(run := e.run + 1, active := true), After(e.data, event), PlanFor(e.data, event));
      StartKeeps(e, text, attachments);
    }
  }

  /** A chunk of the current run is kept while the model is asked; any other that says something is dropped. */
  lemma {:induction false} ChunkEffects(e: Engine, run: nat, chunk: StreamChunk)
    requires EngineInv(e)
    ensures Step(e, Chunk(run, chunk))
         == if run != 0 && run == e.run && e.data.state.WaitingLLM?
            then e.(data := e.data.(content := e.data.content + chunk.contentDelta,
                                    reasoning := e.data.reasoning + chunk.reasoningDelta))
            else e
  {
    StreamChunkCommit(e.data, chunk);
  }

  /** The loop takes the oldest action; it ends, and the run with it, when nothing is left in idle. */
  lemma {:induction false} PopEffects(e: Engine)
    requires EngineInv(e) && e.loop.Draining?
    ensures var next := Step(e, Pop);
            if e.queue != [] then
              next == e.(queue := next.queue, loop := next.loop)
              && next.loop == Executing(e.loop.run, e.queue[0]) && [e.queue[0]] + next.queue == e.queue
            else
              && e.data.state.Idle? && next == e.(loop := Off, active := next.active)
              && (next.active ==> e.active && e.loop.run != e.run)
  {
  }

  // ----- A tool runs only with a licence -----

  /** This step lets `call` run: the policy says so, or the user does. */
  predicate Licenses(e: Engine, l: Label, call: ToolCall) {
    && l.Complete? && e.loop.Executing? && IsCurrent(e, e.loop.queued.run)
    && (|| (&& e.data.state.AdvancingQueue? && e.data.batch.Some?
            && 0 <= e.data.batch.value.index < |e.data.batch.value.calls|
            && e.data.batch.value.calls[e.data.batch.value.index] == call
            && l.env.policy.decide(call, l.env.specs) == Ok(DecisionRunDirectly))
        || (&& e.data.state.WaitingApproval? && e.data.pendingTool == Some(call)
            && (l.env.ports.approval == Some(Returned(ApproveOnce))
                || l.env.ports.approval == Some(Returned(ApproveAlways)))))
  }

  predicate Running(e: Engine, call: ToolCall) {
    e.data.state.RunningTool? && e.data.currentTool == Some(call)
  }

  lemma {:induction false} CompletionIntoRunning(e: Engine, env: Env, call: ToolCall)
    requires EngineInv(e) && e.loop.Executing? && Running(CompleteAction(e, env), call)
    ensures Running(e, call) || Licenses(e, Complete(env), call)
  {
    if !IsCurrent(e, e.loop.queued.run) {
      StaleCompletionChangesNothing(e, env);
    } else if Failure(e.data, env.ports).Some? {
      FailedPortEndsRun(e, env);
    } else {
      match e.data.state {
        case WaitingLLM => ModelReplyArrives(e, env, env.ports.model.value.value);
        case AdvancingQueue => NextCallIsClassified(e, env);
        case WaitingApproval => DecisionIsFollowed(e, env, env.ports.approval.value.value);
        case RunningTool =>
          var text := match env.ports.tools.value case Returned(value) => value case RaisedError(m) => "Error: " + m;
          ToolAnswerArrives(e, env, text);
      }
    }
  }

  /** No other step lets anything run. */
  lemma {:induction false} StepIntoRunning(e: Engine, l: Label, call: ToolCall)
    requires EngineInv(e) && Enabled(e, l) && Running(Step(e, l), call)
    ensures Running(e, call) || Licenses(e, l, call)
  {
    match l {
      case Ready =>
        TransitionKeepsInv(e.data, EngineReady);
        if Handle(e.data, EngineReady).Ok? {
          MessageEventEffects(e.data, EngineReady);
          AcceptedIsHandled(e.data, EngineReady);
          CommitPlanShape(e, After(e.data, EngineReady), PlanFor(e.data, EngineReady));
        }
      case StartTurn(text, attachments) => StartEffects(e, text, attachments);
      case Complete(env) => CompletionIntoRunning(e, env, call);
      case Chunk(run, chunk) => ChunkEffects(e, run, chunk);
      case Pop =>
      case Cancel => CancelEffects(e);
      case _ => RewriteEffects(e, []);
    }
  }

  /**
   Over every run: if a tool runs, some earlier step of the same run licensed exactly that call, and
   it has been running ever since. So every licence is good for one run of one call.
   */
  lemma {:induction false} ToolRunsOnlyWithLicence(messages: seq<Message>, labels: seq<Label>, call: ToolCall)
    returns (i: nat)
    requires Allowed(Initial(messages), labels) && Running(Run(Initial(messages), labels), call)
    ensures i < |labels|
    ensures Allowed(Initial(messages), labels[..i]) && Licenses(Run(Initial(messages), labels[..i]), labels[i], call)
    ensures forall j :: i < j <= |labels| ==>
                          Allowed(Initial(messages), labels[..j]) && Running(Run(Initial(messages), labels[..j]), call)
    decreases |labels|
  {
    InitialInv(messages);
    if labels == [] {
      assert false;
    }
    var front, l := labels[..|labels| - 1], labels[|labels| - 1];
    assert labels == front + [l];
    RunSplits(Initial(messages), front, l);
    RunKeepsEngineInv(Initial(messages), front);
    StepIntoRunning(Run(Initial(messages), front), l, call);
    if Licenses(Run(Initial(messages), front), l, call) {
      i := |front|;
    } else {
      i := ToolRunsOnlyWithLicence(messages, front, call);
    }
    RunsOn(Initial(messages), front, l, call, i);
  }

  /** The interval of a run, one step longer. */
  lemma {:induction false} RunsOn(e: Engine, front: seq<Label>, l: Label, call: ToolCall, i: nat)
    requires Allowed(e, front + [l]) && Running(Run(e, front + [l]), call) && i <= |front|
    requires forall j :: i < j <= |front| ==> Allowed(e, front[..j]) && Running(Run(e, front[..j]), call)
    ensures (front + [l])[..i] == front[..i] && (i == |front| ==> front[..i] == front)
    ensures forall j :: i < j <= |front| + 1 ==>
                          Allowed(e, (front + [l])[..j]) && Running(Run(e, (front + [l])[..j]), call)
  {
    forall j | i < j <= |front| + 1
      ensures Allowed(e, (front + [l])[..j]) && Running(Run(e, (front + [l])[..j]), call)
    {
      if j <= |front| {
        assert (front + [l])[..j] == front[..j];
      } else {
        assert (front + [l])[..j] == front + [l];
      }
    }
  }

  lemma {:induction false} RunSplits(e: Engine, front: seq<Label>, l: Label)
    requires Allowed(e, front + [l])
    ensures Allowed(e, front) && Enabled(Run(e, front), l) && Run(e, front + [l]) == Step(Run(e, front), l)
    decreases |front|
  {
    if front == [] {
      assert front + [l] == [l] && Run(Step(e, l), []) == Step(e, l);
    } else {
      assert (front + [l])[1..] == front[1..] + [l];
      RunSplits(Step(e, front[0]), front[1..], l);
    }
  }

  /** What the loop takes off the queue to run is the call that is licensed to run. */
  lemma {:induction false} PoppedToolIsRunning(e: Engine, call: ToolCall)
    requires EngineInv(e) && e.loop.Draining? && e.queue != [] && e.queue[0].action == RunTool(call)
    ensures Running(e, call)
  {
  }
}
