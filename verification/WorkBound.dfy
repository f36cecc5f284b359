/**
 How much work one batch of tool calls takes. An uninterrupted batch of n calls reaches the next
 model call after at least n + 1 and at most 3n + 1 actions, both bounds are reached for every n,
 and the tools that run are a subsequence of the batch, in order.
 */
module WorkBound {
  import opened Outcomes
  import opened Protocol
  import opened Machine
  import opened MachineInvariant
  import opened Execution
  import opened EngineSteps
  import opened EngineInvariant

  predicate Working(d: Data) {
    Valid(d) && ExactCall(d) && (d.state.AdvancingQueue? || d.state.WaitingApproval? || d.state.RunningTool?)
  }

  function ActionFor(d: Data): Action
    requires Working(d)
    ensures Demands(d, ActionFor(d))
  {
    if d.state.AdvancingQueue? then CheckToolQueue
    else if d.state.RunningTool? then RunTool(d.currentTool.value)
    else AwaitApproval(d.pendingTool.value, d.pendingPermission.value)
  }

  /** One finished, resolved and committed action of a batch. */
  function BatchStep(d: Data, env: Env): Option<Data> {
    if !Working(d) || !Execute(env.ports, ActionFor(d)).Finished? then None
    else match Resolve(Execute(env.ports, ActionFor(d)).result, d.batch, env.specs, env.policy)
      case Err(_) => None
      case Ok(event) =>
        match Handle(d, event)
        case Err(_) => None
        case Ok((next, _)) => if RememberError(env.policy, event).Some? then None else Some(next)
  }

  /** The data after exactly `|envs|` actions of the batch, if each of them finished. */
  function Drive(d: Data, envs: seq<Env>): Option<Data>
    decreases |envs|
  {
    if envs == [] then Some(d)
    else match BatchStep(d, envs[0])
      case None => None
      case Some(next) => Drive(next, envs[1..])
  }

  /** The engine's own completions of current, non-model actions are batch steps. */
  lemma EngineCompletionIsBatchStep(e: Engine, env: Env, event: Event)
    requires EngineInv(e) && Resolves(e, env, event) && !e.loop.queued.action.CallModel?
    requires RememberError(env.policy, event).None?
    ensures BatchStep(e.data, env) == Some(CompleteAction(e, env).data)
  {
    CompletionCommits(e, env, event);
    AcceptedIsHandled(e.data, event);
  }

  /** The batch goes on exactly when its action finishes, resolves, and an approval can be recorded. */
  lemma BatchStepGoesOn(d: Data, env: Env)
    requires Working(d)
    ensures BatchStep(d, env).Some? <==>
            && Execute(env.ports, ActionFor(d)).Finished?
            && var event := Resolve(Execute(env.ports, ActionFor(d)).result, d.batch, env.specs, env.policy);
               event.Ok? && RememberError(env.policy, event.value).None?
  {
    if Execute(env.ports, ActionFor(d)).Finished? {
      match Resolve(Execute(env.ports, ActionFor(d)).result, d.batch, env.specs, env.policy) {
        case Ok(event) =>
          ResolvedIsAccepted(d, ActionFor(d), env, event);
          AcceptedIsHandled(d, event);
        case Err(_) =>
      }
    }
  }

  /** Every action of the batch goes on, as far as `envs` reaches. */
  predicate Uninterrupted(d: Data, envs: seq<Env>)
    decreases |envs|
  {
    d.state.WaitingLLM? || envs == []
    || (BatchStep(d, envs[0]).Some? && Uninterrupted(BatchStep(d, envs[0]).value, envs[1..]))
  }

  function Remaining(d: Data): nat
    requires Working(d)
  {
    |d.batch.value.calls| - d.batch.value.index
  }

  /** Calls left, then phase. */
  function FewestLeft(d: Data): nat
    requires Working(d) || d.state.WaitingLLM?
  {
    if d.state.WaitingLLM? then 0
    else if d.state.AdvancingQueue? then Remaining(d) + 1
    else Remaining(d) + 2
  }

  function MostLeft(d: Data): nat
    requires Working(d) || d.state.WaitingLLM?
  {
    if d.state.WaitingLLM? then 0
    else if d.state.AdvancingQueue? then 3 * Remaining(d) + 1
    else if d.state.RunningTool? then 3 * Remaining(d) + 2
    else 3 * Remaining(d) + 3
  }

  lemma BatchStepIs(d: Data, env: Env, event: Event)
    requires Working(d) && Execute(env.ports, ActionFor(d)).Finished?
    requires Resolve(Execute(env.ports, ActionFor(d)).result, d.batch, env.specs, env.policy) == Ok(event)
    requires RememberError(env.policy, event).None?
    ensures Accepted(d, event) && BatchStep(d, env) == Some(After(d, event))
    ensures Valid(After(d, event)) && ExactCall(After(d, event))
  {
    ResolvedIsNotTerminal(d, env, event);
    AcceptedIsHandled(d, event);
  }

  /** What one finished and resolved action of a batch comes to. */
  predicate Progress(d: Data, next: Data)
    requires Working(d)
  {
    && (Working(next) || next.state.WaitingLLM?)
    && MostLeft(next) < MostLeft(d)
    && FewestLeft(d) <= FewestLeft(next) + 1
    && (Working(next) ==> next.batch.value.calls == d.batch.value.calls
                          && d.batch.value.index <= next.batch.value.index)
    && (next.state.RunningTool? ==> d.state.WaitingApproval? || d.batch.value.index < next.batch.value.index)
  }

  lemma AfterProgresses(d: Data, event: Event)
    requires Working(d) && Accepted(d, event) && !Terminal(event)
    requires Machine.Valid(After(d, event)) && ExactCall(After(d, event))
    ensures Progress(d, After(d, event))
  {
  }

  lemma ResolvedIsNotTerminal(d: Data, env: Env, event: Event)
    requires Working(d) && Execute(env.ports, ActionFor(d)).Finished?
    requires Resolve(Execute(env.ports, ActionFor(d)).result, d.batch, env.specs, env.policy) == Ok(event)
    ensures Accepted(d, event) && !Terminal(event)
    ensures Machine.Valid(After(d, event)) && ExactCall(After(d, event))
  {
    ResolvedIsAccepted(d, ActionFor(d), env, event);
    AfterIsValid(d, event);
  }

  /** One action makes the measure strictly smaller and uses at most one unit of the lower bound. */
  lemma BatchStepProgress(d: Data, env: Env)
    requires BatchStep(d, env).Some?
    ensures Working(d) && Progress(d, BatchStep(d, env).value)
  {
    var event := Resolve(Execute(env.ports, ActionFor(d)).result, d.batch, env.specs, env.policy).value;
    ResolvedIsNotTerminal(d, env, event);
    AcceptedIsHandled(d, event);
    AfterProgresses(d, event);
  }

  lemma DriveStep(d: Data, env: Env, rest: seq<Env>)
    requires BatchStep(d, env).Some?
    ensures Drive(d, [env] + rest) == Drive(BatchStep(d, env).value, rest)
  {
    assert ([env] + rest)[1..] == rest;
  }

  /** The model is not reached earlier than the lower bound allows. */
  lemma {:induction false} ReachTakesWork(d: Data, envs: seq<Env>)
    requires Working(d) || d.state.WaitingLLM?
    requires Drive(d, envs).Some? && Drive(d, envs).value.state.WaitingLLM?
    ensures FewestLeft(d) <= |envs|
    decreases |envs|
  {
    if envs != [] {
      BatchStepProgress(d, envs[0]);
      ReachTakesWork(BatchStep(d, envs[0]).value, envs[1..]);
    }
  }

  /** After exactly `k` actions the batch is done and the model is due. */
  predicate ReachesModel(d: Data, envs: seq<Env>, k: nat) {
    k <= |envs| && Drive(d, envs[..k]).Some? && Drive(d, envs[..k]).value.state.WaitingLLM?
  }

  lemma ReachesOneLater(d: Data, envs: seq<Env>, k: nat)
    requires envs != [] && BatchStep(d, envs[0]).Some?
    requires ReachesModel(BatchStep(d, envs[0]).value, envs[1..], k)
    ensures ReachesModel(d, envs, k + 1)
  {
    assert envs[..k + 1] == [envs[0]] + envs[1..][..k];
    DriveStep(d, envs[0], envs[1..][..k]);
  }

  /** An uninterrupted batch with enough actions at hand reaches the model, within both bounds. */
  lemma {:induction false} ModelIsReached(d: Data, envs: seq<Env>) returns (k: nat)
    requires Working(d) || d.state.WaitingLLM?
    requires Uninterrupted(d, envs) && |envs| >= MostLeft(d)
    ensures FewestLeft(d) <= k <= MostLeft(d) && ReachesModel(d, envs, k)
    decreases |envs|
  {
    k := 0;
    if !d.state.WaitingLLM? {
      BatchStepProgress(d, envs[0]);
      var later := ModelIsReached(BatchStep(d, envs[0]).value, envs[1..]);
      ReachesOneLater(d, envs, later);
      k := later + 1;
    }
  }

  /**
   An uninterrupted fresh batch of n calls reaches the next model call, after at least n + 1 and at
   most 3n + 1 actions. The tools that ran on the way are calls of the batch, at strictly
   increasing positions.
   */
  lemma {:induction false} BatchWorkBound(d: Data, envs: seq<Env>) returns (k: nat)
    requires Working(d) && d.state.AdvancingQueue? && d.batch.value.index == 0
    requires Uninterrupted(d, envs) && |envs| >= 3 * |d.batch.value.calls| + 1
    ensures var n := |d.batch.value.calls|; n + 1 <= k <= 3 * n + 1
    ensures ReachesModel(d, envs, k)
    ensures Ascends(RunsAt(d, envs[..k]), 0, |d.batch.value.calls|)
    ensures CallsAt(CallsRun(d, envs[..k]), RunsAt(d, envs[..k]), d.batch.value.calls)
  {
    k := ModelIsReached(d, envs);
    ToolsRunInOrder(d, envs[..k]);
  }

  // ----- Both bounds are reached -----

  /** A policy that refuses everything: one action a call. */
  function RefuseAll(): Env {
    Env(Ports(None, None, None), [], Policy((c, s) => Ok(DecisionDenied), (c, s) => Ok(NoRequest), c => None))
  }

  /** Every call is asked about, approved and run: three actions a call. */
  function ApproveAll(): Env {
    Env(Ports(None, Some(Returned("done")), Some(Returned(ApproveOnce))), [],
        Policy((c, s) => Ok(DecisionNeedsApproval), (c, s) => Ok(NoRequest), c => None))
  }

  lemma {:induction false} RefusalsAreShortest(d: Data) returns (envs: seq<Env>)
    requires Working(d) && d.state.AdvancingQueue?
    ensures Drive(d, envs).Some? && Drive(d, envs).value.state.WaitingLLM? && |envs| == Remaining(d) + 1
    decreases Remaining(d)
  {
    var env := RefuseAll();
    if Remaining(d) == 0 {
      BatchStepIs(d, env, ToolBatchFinished);
      envs := [env];
      assert Drive(After(d, ToolBatchFinished), envs[1..]) == Some(After(d, ToolBatchFinished));
    } else {
      var event := ToolCallDenied(d.batch.value.calls[d.batch.value.index], "");
      BatchStepIs(d, env, event);
      var rest := RefusalsAreShortest(After(d, event));
      envs := [env] + rest;
      assert envs[1..] == rest;
    }
  }

  lemma {:induction false} ApprovalsAreLongest(d: Data) returns (envs: seq<Env>)
    requires Working(d) && d.state.AdvancingQueue?
    ensures Drive(d, envs).Some? && Drive(d, envs).value.state.WaitingLLM? && |envs| == 3 * Remaining(d) + 1
    decreases Remaining(d)
  {
    var env := ApproveAll();
    if Remaining(d) == 0 {
      BatchStepIs(d, env, ToolBatchFinished);
      envs := [env];
      assert Drive(After(d, ToolBatchFinished), envs[1..]) == Some(After(d, ToolBatchFinished));
    } else {
      var next := ApprovedCall(d);
      var rest := ApprovalsAreLongest(next);
      DriveThree(d, env, rest);
      envs := [env] + ([env] + ([env] + rest));
    }
  }

  /** Asked, approved, run: three actions for one call. */
  lemma ApprovedCall(d: Data) returns (next: Data)
    requires Working(d) && d.state.AdvancingQueue? && Remaining(d) > 0
    ensures BatchStep(d, ApproveAll()).Some?
    ensures BatchStep(BatchStep(d, ApproveAll()).value, ApproveAll()).Some?
    ensures BatchStep(BatchStep(BatchStep(d, ApproveAll()).value, ApproveAll()).value, ApproveAll()) == Some(next)
    ensures Working(next) && next.state.AdvancingQueue? && Remaining(next) == Remaining(d) - 1
  {
    var call := d.batch.value.calls[d.batch.value.index];
    BatchStepIs(d, ApproveAll(), ToolCallNeedsApproval(call, NoRequest));
    var waiting := After(d, ToolCallNeedsApproval(call, NoRequest));
    BatchStepIs(waiting, ApproveAll(), ApprovalGranted(call));
    var running := After(waiting, ApprovalGranted(call));
    BatchStepIs(running, ApproveAll(), ToolResultReceived(call, "done"));
    next := After(running, ToolResultReceived(call, "done"));
  }

  lemma DriveThree(d: Data, env: Env, rest: seq<Env>)
    requires BatchStep(d, env).Some? && BatchStep(BatchStep(d, env).value, env).Some?
    requires BatchStep(BatchStep(BatchStep(d, env).value, env).value, env).Some?
    ensures Drive(d, [env] + ([env] + ([env] + rest)))
         == Drive(BatchStep(BatchStep(BatchStep(d, env).value, env).value, env).value, rest)
  {
    var d1 := BatchStep(d, env).value;
    DriveStep(BatchStep(d1, env).value, env, rest);
    DriveStep(d1, env, [env] + rest);
    DriveStep(d, env, [env] + ([env] + rest));
  }

  // ----- Which tools run -----

  /** The batch positions of the tools that run during `envs`. */
  function RunsAt(d: Data, envs: seq<Env>): seq<int>
    requires Drive(d, envs).Some?
    decreases |envs|
  {
    if envs == [] then []
    else
      (if d.state.RunningTool? then [d.batch.value.index - 1] else [])
      + RunsAt(BatchStep(d, envs[0]).value, envs[1..])
  }

  /** The calls whose tools run during `envs`. */
  function CallsRun(d: Data, envs: seq<Env>): seq<ToolCall>
    requires Drive(d, envs).Some?
    decreases |envs|
  {
    if envs == [] then []
    else
      (if d.state.RunningTool? then [ActionFor(d).call] else [])
      + CallsRun(BatchStep(d, envs[0]).value, envs[1..])
  }

  /** Strictly increasing, from `low` on and below `high`. */
  predicate Ascends(at: seq<int>, low: int, high: int) {
    && (forall i :: 0 <= i < |at| ==> low <= at[i] < high)
    && (forall i, j :: 0 <= i < j < |at| ==> at[i] < at[j])
  }

  lemma AscendsCons(x: int, at: seq<int>, low: int, high: int)
    requires x < low <= high && Ascends(at, low, high)
    ensures Ascends([x] + at, x, high)
  {
  }

  /** The first position that can still run: the current call's own while it waits or runs. */
  function FirstRun(d: Data): int
    requires Working(d)
  {
    if d.state.AdvancingQueue? then d.batch.value.index else d.batch.value.index - 1
  }

  lemma FirstRunMoves(d: Data, env: Env)
    requires BatchStep(d, env).Some? && Working(BatchStep(d, env).value)
    ensures var next := BatchStep(d, env).value;
            && next.batch.value.calls == d.batch.value.calls
            && (if d.state.RunningTool? then FirstRun(d) < FirstRun(next) else FirstRun(d) <= FirstRun(next))
  {
    BatchStepProgress(d, env);
    if d.state.RunningTool? {
      RunningStepAdvances(d, env);
    }
  }

  lemma {:induction false} RunPositions(d: Data, envs: seq<Env>)
    requires Working(d) && Drive(d, envs).Some? && Drive(d, envs).value.state.WaitingLLM?
    ensures Ascends(RunsAt(d, envs), FirstRun(d), |d.batch.value.calls|)
    decreases |envs|
  {
    BatchStepProgress(d, envs[0]);
    var next := BatchStep(d, envs[0]).value;
    if Working(next) {
      FirstRunMoves(d, envs[0]);
      RunPositions(next, envs[1..]);
      if d.state.RunningTool? {
        AscendsCons(FirstRun(d), RunsAt(next, envs[1..]), FirstRun(next), |d.batch.value.calls|);
      }
    }
  }

  /** The calls at the given positions. */
  predicate CallsAt(run: seq<ToolCall>, at: seq<int>, calls: seq<ToolCall>) {
    |run| == |at| && forall i :: 0 <= i < |at| ==> 0 <= at[i] < |calls| && run[i] == calls[at[i]]
  }

  /** What one action contributes to the calls that run, and where. */
  lemma HeadCall(d: Data)
    requires Working(d) && d.state.RunningTool?
    ensures CallsAt([ActionFor(d).call], [d.batch.value.index - 1], d.batch.value.calls)
  {
  }

  lemma CallsAtJoin(run: seq<ToolCall>, at: seq<int>, run': seq<ToolCall>, at': seq<int>, calls: seq<ToolCall>)
    requires CallsAt(run, at, calls) && CallsAt(run', at', calls)
    ensures CallsAt(run + run', at + at', calls)
  {
  }

  lemma StepKeepsBatch(d: Data, env: Env)
    requires BatchStep(d, env).Some?
    ensures var next := BatchStep(d, env).value;
            (Working(next) || next.state.WaitingLLM?)
            && (Working(next) ==> next.batch.value.calls == d.batch.value.calls)
  {
    BatchStepProgress(d, env);
  }

  lemma {:induction false} RunCalls(d: Data, envs: seq<Env>)
    requires Working(d) && Drive(d, envs).Some? && Drive(d, envs).value.state.WaitingLLM?
    ensures CallsAt(CallsRun(d, envs), RunsAt(d, envs), d.batch.value.calls)
    decreases |envs|
  {
    var next, rest := BatchStep(d, envs[0]).value, envs[1..];
    StepKeepsBatch(d, envs[0]);
    if Working(next) {
      RunCalls(next, rest);
      if d.state.RunningTool? {
        HeadCall(d);
        CallsAtJoin([ActionFor(d).call], [d.batch.value.index - 1], CallsRun(next, rest), RunsAt(next, rest),
                    d.batch.value.calls);
      }
    }
  }

  /** Tools run as an in-order subsequence of the batch: strictly increasing positions, exact calls. */
  lemma ToolsRunInOrder(d: Data, envs: seq<Env>)
    requires Working(d) && Drive(d, envs).Some? && Drive(d, envs).value.state.WaitingLLM?
    ensures Ascends(RunsAt(d, envs), FirstRun(d), |d.batch.value.calls|)
    ensures CallsAt(CallsRun(d, envs), RunsAt(d, envs), d.batch.value.calls)
  {
    RunPositions(d, envs);
    RunCalls(d, envs);
  }

  lemma RunningStepAdvances(d: Data, env: Env)
    requires d.state.RunningTool? && BatchStep(d, env).Some?
    ensures BatchStep(d, env).value.state.AdvancingQueue?
  {
    var event := Resolve(Execute(env.ports, ActionFor(d)).result, d.batch, env.specs, env.policy).value;
    AcceptedIsHandled(d, event);
  }
}
