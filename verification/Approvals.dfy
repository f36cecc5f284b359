/**
 The always-allow store and the permission policy as state beside the engine: the store is written
 behind a committed always-grant (`runtime/engine/action_loop.py`), the policy is swapped at any
 time (`set_permission_policy` in `runtime/engine/commands.py`), and nothing empties the store.
 */
module Approvals {
  import opened Outcomes
  import opened Protocol
  import opened Machine
  import opened MachineInvariant
  import opened Execution
  import opened EngineSteps
  import opened EngineInvariant
  import opened PermissionPolicy

  datatype Guarded = Guarded(engine: Engine, mode: Mode, rules: Rules, approvals: set<ApprovalKey>)

  /** `Finish` completes the executing action under the policy and store of that moment. */
  datatype Input =
    | Do(step: Label)
    | Finish(ports: Ports, specs: seq<ToolSpec>)
    | SetPolicy(mode: Mode, rules: Rules)

  function EnvOf(p: Primitives, g: Guarded, ports: Ports, specs: seq<ToolSpec>): Env {
    Env(ports, specs, ResolverPolicy(p, g.mode, g.rules, g.approvals))
  }

  predicate Accepts(p: Primitives, g: Guarded, i: Input) {
    match i
    case Do(step) => !step.Complete? && Enabled(g.engine, step)
    case Finish(ports, specs) => Enabled(g.engine, Complete(EnvOf(p, g, ports, specs)))
    case SetPolicy(_, _) => true
  }

  /** The event that a completion commits, if it commits one. */
  function CommittedEvent(p: Primitives, g: Guarded, ports: Ports, specs: seq<ToolSpec>): Option<Event>
    requires Accepts(p, g, Finish(ports, specs))
  {
    var e, env := g.engine, EnvOf(p, g, ports, specs);
    if !Execute(ports, e.loop.queued.action).Finished? || !IsCurrent(e, e.loop.queued.run) then None
    else
      match Resolve(Execute(ports, e.loop.queued.action).result, e.data.batch, specs, env.policy)
      case Err(_) => None
      case Ok(event) => if Handle(e.data, event).Ok? then Some(event) else None
  }

  function GrantOf(p: Primitives, event: Event): set<ApprovalKey> {
    if !event.ApprovalAlwaysGranted? then {}
    else match KeyOf(p, event.call)
      case Some(key) => {key}
      case None => {}
  }

  /** The key that an input adds to the store. */
  function Granted(p: Primitives, g: Guarded, i: Input): set<ApprovalKey>
    requires Accepts(p, g, i)
  {
    if !i.Finish? then {}
    else match CommittedEvent(p, g, i.ports, i.specs)
      case Some(event) => GrantOf(p, event)
      case None => {}
  }

  function Next(p: Primitives, g: Guarded, i: Input): Guarded
    requires Accepts(p, g, i)
  {
    match i
    case Do(step) => g.(engine := Step(g.engine, step))
    case Finish(ports, specs) =>
      g.(engine := CompleteAction(g.engine, EnvOf(p, g, ports, specs)), approvals := g.approvals + Granted(p, g, i))
    case SetPolicy(mode, rules) => g.(mode := mode, rules := rules)
  }

  predicate AllAccepted(p: Primitives, g: Guarded, inputs: seq<Input>)
    decreases |inputs|
  {
    inputs == [] || (Accepts(p, g, inputs[0]) && AllAccepted(p, Next(p, g, inputs[0]), inputs[1..]))
  }

  function NextAll(p: Primitives, g: Guarded, inputs: seq<Input>): Guarded
    requires AllAccepted(p, g, inputs)
    decreases |inputs|
  {
    if inputs == [] then g else NextAll(p, Next(p, g, inputs[0]), inputs[1..])
  }

  /** The keys that the user granted for good in the course of `inputs`. */
  function Grants(p: Primitives, g: Guarded, inputs: seq<Input>): set<ApprovalKey>
    requires AllAccepted(p, g, inputs)
    decreases |inputs|
  {
    if inputs == [] then {} else Granted(p, g, inputs[0]) + Grants(p, Next(p, g, inputs[0]), inputs[1..])
  }

  function Start(messages: seq<Message>, mode: Mode, rules: Rules): Guarded {
    Guarded(Initial(messages), mode, rules, {})
  }

  // ----- What every run keeps -----

  /** A call that waits for an approval was classified, so its key could be built. */
  predicate PendingHasKey(p: Primitives, d: Data) {
    d.pendingTool.Some? ==> KeyOf(p, d.pendingTool.value).Some?
  }

  predicate GuardedInv(p: Primitives, g: Guarded) {
    EngineInv(g.engine) && PendingHasKey(p, g.engine.data)
  }

  lemma PendingComesFromBatch(p: Primitives, g: Guarded, ports: Ports, specs: seq<ToolSpec>, event: Event)
    requires GuardedInv(p, g) && Resolves(g.engine, EnvOf(p, g, ports, specs), event)
    ensures Accepted(g.engine.data, event) && PendingHasKey(p, After(g.engine.data, event))
    ensures event.ApprovalAlwaysGranted? ==> g.engine.data.pendingTool == Some(event.call)
  {
    CurrentCompletionIsAccepted(g.engine, EnvOf(p, g, ports, specs), event);
  }

  lemma FinishKeepsKeys(p: Primitives, g: Guarded, ports: Ports, specs: seq<ToolSpec>)
    requires GuardedInv(p, g) && g.engine.loop.Executing?
    ensures PendingHasKey(p, CompleteAction(g.engine, EnvOf(p, g, ports, specs)).data)
  {
    var e, env := g.engine, EnvOf(p, g, ports, specs);
    match Execute(ports, e.loop.queued.action) {
      case Finished(result) =>
        if IsCurrent(e, e.loop.queued.run) {
          match Resolve(result, e.data.batch, specs, env.policy) {
            case Err(message) => FailKeeps(e, Failed(message));
            case Ok(event) =>
              PendingComesFromBatch(p, g, ports, specs, event);
              CompletionCommits(e, env, event);
          }
        }
      case WasCancelled => FailKeeps(e, WasCancelled);
      case Failed(message) => FailKeeps(e, Failed(message));
    }
  }

  lemma DoKeepsKeys(p: Primitives, e: Engine, step: Label)
    requires EngineInv(e) && PendingHasKey(p, e.data) && Enabled(e, step) && !step.Complete?
    ensures PendingHasKey(p, Step(e, step).data)
  {
    match step {
      case Ready =>
        if Accepted(e.data, EngineReady) {
          AcceptedIsHandled(e.data, EngineReady);
          CommitPlanShape(e, After(e.data, EngineReady), PlanFor(e.data, EngineReady));
        }
      case StartTurn(text, attachments) =>
        var event := UserMessageSubmitted(text, attachments);
        if Accepted(e.data, event) {
          AcceptedIsHandled(e.data, event);
          CommitPlanShape(e.(run := e.run + 1, active := true), After(e.data, event), PlanFor(e.data, event));
        }
      case Chunk(run, chunk) => StreamChunkCommit(e.data, chunk);
      case Cancel => TerminalEventSettles(CancelRun(e), CancelRequested);
      case Reset => TerminalEventSettles(CancelRun(CancelRun(e)), ResetRequested);
      case _ =>
    }
  }

  lemma NextKeepsInv(p: Primitives, g: Guarded, i: Input)
    requires GuardedInv(p, g) && Accepts(p, g, i)
    ensures GuardedInv(p, Next(p, g, i))
  {
    match i {
      case Do(step) =>
        StepKeepsEngineInv(g.engine, step);
        DoKeepsKeys(p, g.engine, step);
      case Finish(ports, specs) =>
        StepKeepsEngineInv(g.engine, Complete(EnvOf(p, g, ports, specs)));
        FinishKeepsKeys(p, g, ports, specs);
      case SetPolicy(_, _) =>
    }
  }

  /** The store holds exactly what was in it and what was granted since. */
  lemma {:induction false} StoreHoldsGrants(p: Primitives, g: Guarded, inputs: seq<Input>)
    requires GuardedInv(p, g) && AllAccepted(p, g, inputs)
    ensures GuardedInv(p, NextAll(p, g, inputs))
    ensures NextAll(p, g, inputs).approvals == g.approvals + Grants(p, g, inputs)
    decreases |inputs|
  {
    if inputs != [] {
      NextKeepsInv(p, g, inputs[0]);
      StoreHoldsGrants(p, Next(p, g, inputs[0]), inputs[1..]);
    }
  }

  /** Only the user's own always-decision on the pending call of the current run grants a key. */
  lemma GrantIsUsersDecision(p: Primitives, g: Guarded, i: Input, key: ApprovalKey)
    requires GuardedInv(p, g) && Accepts(p, g, i) && key in Granted(p, g, i)
    ensures i.Finish? && g.engine.loop.Executing? && IsCurrent(g.engine, g.engine.loop.queued.run)
    ensures g.engine.loop.queued.action.AwaitApproval? && i.ports.approval == Some(Returned(ApproveAlways))
    ensures var call := g.engine.loop.queued.action.call;
            g.engine.data.pendingTool == Some(call) && KeyOf(p, call) == Some(key)
  {
    var event := CommittedEvent(p, g, i.ports, i.specs).value;
    PendingComesFromBatch(p, g, i.ports, i.specs, event);
  }

  /** With this policy, recording a grant never fails: the call was classified before it was asked about. */
  lemma GrantIsAlwaysRecorded(p: Primitives, g: Guarded, ports: Ports, specs: seq<ToolSpec>, event: Event)
    requires GuardedInv(p, g) && Resolves(g.engine, EnvOf(p, g, ports, specs), event)
    ensures RememberError(EnvOf(p, g, ports, specs).policy, event).None?
  {
    PendingComesFromBatch(p, g, ports, specs, event);
  }

  // ----- A denied call -----

  /** The next call of the batch is about to be classified, for the current run. */
  predicate Classifies(g: Guarded, call: ToolCall) {
    && g.engine.loop.Executing? && IsCurrent(g.engine, g.engine.loop.queued.run)
    && g.engine.loop.queued.action.CheckToolQueue?
    && g.engine.data.batch.Some? && 0 <= g.engine.data.batch.value.index < |g.engine.data.batch.value.calls|
    && g.engine.data.batch.value.calls[g.engine.data.batch.value.index] == call
  }

  /** A call that the policy of this moment denies: it runs if its key is stored, and is refused otherwise. */
  lemma DeniedCallIsSettled(p: Primitives, g: Guarded, ports: Ports, specs: seq<ToolSpec>, call: ToolCall,
                            key: ApprovalKey)
    requires GuardedInv(p, g) && Classifies(g, call) && KeyOf(p, call) == Some(key)
    requires Classify(p, g.mode, g.rules, call, specs, "").DecisionDenied?
    ensures var d, next := g.engine.data, CompleteAction(g.engine, EnvOf(p, g, ports, specs)).data;
            if key in g.approvals then next.state.RunningTool? && next.currentTool == Some(call)
            else next.state.AdvancingQueue? && next.messages == d.messages + [ToolMessage(
                   call, "denied by permission policy: " + PermissionRequest(p, call, specs, "").reason)]
  {
    var event := if key in g.approvals then ToolCallReadyToRun(call)
                 else ToolCallDenied(call, PermissionRequest(p, call, specs, "").reason);
    DeniedCallResolves(p, g, ports, specs, call, key);
    CompletionCommits(g.engine, EnvOf(p, g, ports, specs), event);
    SettledBy(g.engine.data, event);
  }

  lemma SettledBy(d: Data, event: Event)
    requires Accepted(d, event)
    ensures event.ToolCallReadyToRun? ==>
              After(d, event).state.RunningTool? && After(d, event).currentTool == Some(event.call)
    ensures event.ToolCallDenied? ==>
              && After(d, event).state.AdvancingQueue?
              && After(d, event).messages
                 == d.messages + [ToolMessage(event.call, "denied by permission policy: " + event.reason)]
  {
  }

  lemma DeniedCallResolves(p: Primitives, g: Guarded, ports: Ports, specs: seq<ToolSpec>, call: ToolCall,
                           key: ApprovalKey)
    requires GuardedInv(p, g) && Classifies(g, call) && KeyOf(p, call) == Some(key)
    requires Classify(p, g.mode, g.rules, call, specs, "").DecisionDenied?
    ensures Resolves(g.engine, EnvOf(p, g, ports, specs),
                     if key in g.approvals then ToolCallReadyToRun(call)
                     else ToolCallDenied(call, PermissionRequest(p, call, specs, "").reason))
  {
  }

  /**
   Over every run from an empty store, with policies swapped at will: a call that the current policy
   denies is run if and only if the user granted its key for good earlier in that run.
   */
  lemma DeniedCallRunsExactlyIfGranted(p: Primitives, messages: seq<Message>, mode: Mode, rules: Rules,
                                       inputs: seq<Input>,
                                       ports: Ports, specs: seq<ToolSpec>, call: ToolCall, key: ApprovalKey)
    requires AllAccepted(p, Start(messages, mode, rules), inputs)
    requires var g := NextAll(p, Start(messages, mode, rules), inputs);
             && Accepts(p, g, Finish(ports, specs)) && Classifies(g, call) && KeyOf(p, call) == Some(key)
             && Classify(p, g.mode, g.rules, call, specs, "").DecisionDenied?
    ensures var start := Start(messages, mode, rules);
            var next := Next(p, NextAll(p, start, inputs), Finish(ports, specs)).engine.data;
            && (next.state.RunningTool? <==> key in Grants(p, start, inputs))
            && (next.state.RunningTool? ==> next.currentTool == Some(call))
            && (!next.state.RunningTool? ==> next.state.AdvancingQueue?)
  {
    InitialInv(messages);
    StoreHoldsGrants(p, Start(messages, mode, rules), inputs);
    DeniedCallIsSettled(p, NextAll(p, Start(messages, mode, rules), inputs), ports, specs, call, key);
  }

  /** A call whose input has no key fails the turn, and the engine is idle again. */
  lemma KeylessCallEndsTurn(p: Primitives, g: Guarded, ports: Ports, specs: seq<ToolSpec>, call: ToolCall)
    requires GuardedInv(p, g) && Classifies(g, call) && KeyOf(p, call).None?
    ensures var next := CompleteAction(g.engine, EnvOf(p, g, ports, specs));
            EngineInv(next) && next.data == After(g.engine.data, ErrorOccurred(Some(NoKey))) && next.loop.Off?
  {
    RefusedCompletionEndsTurn(g.engine, EnvOf(p, g, ports, specs), NoKey);
  }

  // ----- A run in which a denied call runs -----

  lemma {:induction false} NextAllExtends(p: Primitives, g: Guarded, inputs: seq<Input>, i: Input)
    requires AllAccepted(p, g, inputs) && Accepts(p, NextAll(p, g, inputs), i)
    ensures AllAccepted(p, g, inputs + [i])
    ensures NextAll(p, g, inputs + [i]) == Next(p, NextAll(p, g, inputs), i)
    decreases |inputs|
  {
    if inputs == [] {
      assert NextAll(p, Next(p, g, i), []) == Next(p, g, i);
    } else {
      NextAllExtends(p, Next(p, g, inputs[0]), inputs[1..], i);
      assert (inputs + [i])[1..] == inputs[1..] + [i];
    }
  }

  /** Where a run from `start` has come to. */
  predicate At(p: Primitives, start: Guarded, inputs: seq<Input>, g: Guarded) {
    GuardedInv(p, start) && GuardedInv(p, g) && AllAccepted(p, start, inputs) && NextAll(p, start, inputs) == g
  }

  lemma Goes(p: Primitives, start: Guarded, inputs: seq<Input>, g: Guarded, i: Input)
    requires At(p, start, inputs, g) && Accepts(p, g, i)
    ensures At(p, start, inputs + [i], Next(p, g, i))
  {
    NextKeepsInv(p, g, i);
    NextAllExtends(p, start, inputs, i);
  }

  /** The demanded action is popped, finished by `ports`, and resolved to `event`. */
  lemma Works(p: Primitives, start: Guarded, inputs: seq<Input>, g: Guarded, ports: Ports, specs: seq<ToolSpec>,
              action: Action, event: Event) returns (later: Guarded)
    requires At(p, start, inputs, g) && g.engine.loop.Draining? && Demands(g.engine.data, action)
    requires Execute(ports, action).Finished?
    requires Resolve(Execute(ports, action).result, g.engine.data.batch, specs,
                     EnvOf(p, g, ports, specs).policy) == Ok(event)
    ensures At(p, start, inputs + [Do(Pop)] + [Finish(ports, specs)], later)
    ensures Accepted(g.engine.data, event) && later.engine.data == After(g.engine.data, event)
    ensures later.engine.loop.Draining? && later.mode == g.mode && later.rules == g.rules
    ensures later.approvals == g.approvals + GrantOf(p, event)
  {
    Goes(p, start, inputs, g, Do(Pop));
    var popped := Next(p, g, Do(Pop));
    assert Resolves(popped.engine, EnvOf(p, popped, ports, specs), event);
    Goes(p, start, inputs + [Do(Pop)], popped, Finish(ports, specs));
    later := Next(p, popped, Finish(ports, specs));
    GrantIsAlwaysRecorded(p, popped, ports, specs, event);
    CompletionCommits(popped.engine, EnvOf(p, popped, ports, specs), event);
    AcceptedIsHandled(popped.engine.data, event);
  }

  const NoRules := Rules([], [], [], [], [], [], [], [], "")

  function Deploy(id: string): ToolCall {
    ToolCall(id, "deploy", "")
  }

  const Specs := [ToolSpec("deploy", true)]

  lemma DeployIsClassified(p: Primitives, id: string)
    ensures Classify(p, Ask, NoRules, Deploy(id), Specs, "").DecisionNeedsApproval?
    ensures Classify(p, Plan, NoRules, Deploy(id), Specs, "").DecisionDenied?
  {
  }

  const Nobody := Ports(None, None, None)

  lemma ReadyIsIdle(messages: seq<Message>)
    ensures EngineInv(Initial(messages)) && Step(Initial(messages), Ready).data == Initial(messages).data.(state := Idle)
    ensures Step(Initial(messages), Ready).loop.Off?
  {
    InitialInv(messages);
    AcceptedIsHandled(Initial(messages).data, EngineReady);
    CommitPlanShape(Initial(messages), After(Initial(messages).data, EngineReady),
                    PlanFor(Initial(messages).data, EngineReady));
  }

  lemma StartIsDraining(e: Engine)
    requires EngineInv(e) && e.data.state.Idle?
    ensures var next := EngineSteps.Start(e, "", []);
            next.loop.Draining? && next.data == After(e.data, UserMessageSubmitted("", [])) && next.data.state.WaitingLLM?
  {
    var event := UserMessageSubmitted("", []);
    AcceptedIsHandled(e.data, event);
    CommitPlanShape(e.(run := e.run + 1, active := true), After(e.data, event), PlanFor(e.data, event));
  }

  /** A run in which a turn has begun and the model is due. */
  lemma ModelIsDue(p: Primitives) returns (inputs: seq<Input>, g: Guarded)
    ensures At(p, Start([], Ask, NoRules), inputs, g) && g.engine.loop.Draining? && g.engine.data.state.WaitingLLM?
    ensures g.mode == Ask && g.rules == NoRules && g.approvals == {}
  {
    var start, user := Start([], Ask, NoRules), StartTurn("", []);
    ReadyIsIdle([]);
    assert At(p, start, [], start);
    Goes(p, start, [], start, Do(Ready));
    var ready := Next(p, start, Do(Ready));
    StartIsDraining(ready.engine);
    Goes(p, start, [] + [Do(Ready)], ready, Do(user));
    inputs, g := [] + [Do(Ready)] + [Do(user)], Next(p, ready, Do(user));
  }

  /** The model has asked for the same risky call twice, and the queue stands at `index`. */
  predicate HasBatch(g: Guarded, index: int) {
    var batch := g.engine.data.batch;
    batch.Some? && batch.value.calls == [Deploy("1"), Deploy("2")] && batch.value.index == index
  }

  lemma TwiceAsked(p: Primitives) returns (inputs: seq<Input>, g: Guarded)
    ensures At(p, Start([], Ask, NoRules), inputs, g) && g.engine.loop.Draining? && g.engine.data.state.AdvancingQueue?
    ensures HasBatch(g, 0)
    ensures g.mode == Ask && g.rules == NoRules && g.approvals == {}
  {
    var calls := [Deploy("1"), Deploy("2")];
    var model := Ports(Some(Returned(ModelResponse("", "", calls))), None, None);
    inputs, g := ModelIsDue(p);
    g := Works(p, Start([], Ask, NoRules), inputs, g, model, Specs, CallModel, ToolBatchReceived("", calls, ""));
    inputs := inputs + [Do(Pop)] + [Finish(model, Specs)];
  }

  lemma FirstIsAsked(p: Primitives) returns (inputs: seq<Input>, g: Guarded)
    requires p.hash("").Some?
    ensures At(p, Start([], Ask, NoRules), inputs, g) && g.engine.loop.Draining? && g.engine.data.state.WaitingApproval?
    ensures HasBatch(g, 1)
    ensures g.engine.data.pendingTool == Some(Deploy("1")) && g.engine.data.pendingPermission.Some?
    ensures g.mode == Ask && g.rules == NoRules && g.approvals == {}
  {
    var request := PermissionRequest(p, Deploy("1"), Specs, "");
    DeployIsClassified(p, "1");
    inputs, g := TwiceAsked(p);
    g := Works(p, Start([], Ask, NoRules), inputs, g, Nobody, Specs, CheckToolQueue,
               ToolCallNeedsApproval(Deploy("1"), request));
    inputs := inputs + [Do(Pop)] + [Finish(Nobody, Specs)];
  }

  /** The first call is granted for good and run. */
  lemma FirstIsGranted(p: Primitives) returns (inputs: seq<Input>, g: Guarded)
    requires p.hash("").Some?
    ensures At(p, Start([], Ask, NoRules), inputs, g) && g.engine.loop.Draining? && g.engine.data.state.AdvancingQueue?
    ensures HasBatch(g, 1)
    ensures g.rules == NoRules && g.approvals == {KeyOf(p, Deploy("1")).value}
  {
    var start, call := Start([], Ask, NoRules), Deploy("1");
    var human, tool := Ports(None, None, Some(Returned(ApproveAlways))), Ports(None, Some(Returned("done")), None);
    inputs, g := FirstIsAsked(p);
    g := Works(p, start, inputs, g, human, Specs, AwaitApproval(call, g.engine.data.pendingPermission.value),
               ApprovalAlwaysGranted(call));
    inputs := inputs + [Do(Pop)] + [Finish(human, Specs)];
    g := Works(p, start, inputs, g, tool, Specs, RunTool(call), ToolResultReceived(call, "done"));
    inputs := inputs + [Do(Pop)] + [Finish(tool, Specs)];
  }

  /**
   A run in which plan mode is switched on behind an always-grant: plan mode denies the second call
   of the batch, and it runs.
   */
  lemma DeniedCallCanRun(p: Primitives) returns (inputs: seq<Input>)
    requires p.hash("").Some?
    ensures AllAccepted(p, Start([], Ask, NoRules), inputs)
    ensures var g, call := NextAll(p, Start([], Ask, NoRules), inputs), Deploy("2");
            && g.mode == Plan && Classify(p, g.mode, g.rules, call, Specs, "").DecisionDenied?
            && Accepts(p, g, Finish(Nobody, Specs))
            && var next := Next(p, g, Finish(Nobody, Specs)).engine.data;
               next.state.RunningTool? && next.currentTool == Some(call)
  {
    var start := Start([], Ask, NoRules);
    var g;
    inputs, g := FirstIsGranted(p);
    Goes(p, start, inputs, g, SetPolicy(Plan, NoRules));
    var planned := Next(p, g, SetPolicy(Plan, NoRules));
    inputs := inputs + [SetPolicy(Plan, NoRules)];
    Goes(p, start, inputs, planned, Do(Pop));
    var popped := Next(p, planned, Do(Pop));
    inputs := inputs + [Do(Pop)];
    DeployIsClassified(p, "2");
    DeniedCallIsSettled(p, popped, Nobody, Specs, Deploy("2"), KeyOf(p, Deploy("2")).value);
  }
}
