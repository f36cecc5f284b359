/** What the mode means for a batch of tool calls. */
module UnattendedModes {
  import opened Machine
  import opened MachineInvariant
  import opened Execution
  import opened EngineSteps
  import opened WorkBound
  import opened PermissionPolicy

  ghost predicate NeverAsks(policy: Policy) {
    forall call, specs :: policy.decide(call, specs).Ok? ==> !policy.decide(call, specs).value.DecisionNeedsApproval?
  }

  lemma PlanAndBypassNeverAsk(p: Primitives, mode: Mode, rules: Rules, approvals: set<ApprovalKey>)
    requires mode.Plan? || mode.Bypass?
    ensures NeverAsks(ResolverPolicy(p, mode, rules, approvals))
  {
  }

  /** What is left when no call is asked about. */
  function Unasked(d: Data): nat
    requires Working(d) || d.state.WaitingLLM?
  {
    if d.state.WaitingLLM? then 0
    else if d.state.AdvancingQueue? then 2 * Remaining(d) + 1
    else 2 * Remaining(d) + 2
  }

  lemma UnaskedStep(d: Data, env: Env)
    requires NeverAsks(env.policy) && BatchStep(d, env).Some? && !d.state.WaitingApproval?
    ensures var next := BatchStep(d, env).value;
            && !next.state.WaitingApproval? && (Working(next) || next.state.WaitingLLM?)
            && Unasked(next) < Unasked(d)
  {
    BatchStepProgress(d, env);
    var event := Resolve(Execute(env.ports, ActionFor(d)).result, d.batch, env.specs, env.policy).value;
    assert Accepted(d, event);
    AcceptedIsHandled(d, event);
  }

  /** The states of a driven batch. */
  function Visited(d: Data, envs: seq<Env>): seq<Data>
    requires Drive(d, envs).Some?
    decreases |envs|
  {
    if envs == [] then [d] else [d] + Visited(BatchStep(d, envs[0]).value, envs[1..])
  }

  lemma {:induction false} UnaskedBatch(d: Data, envs: seq<Env>) returns (k: nat)
    requires (Working(d) || d.state.WaitingLLM?) && !d.state.WaitingApproval?
    requires forall env :: env in envs ==> NeverAsks(env.policy)
    requires Uninterrupted(d, envs) && |envs| >= Unasked(d)
    ensures k <= Unasked(d) && ReachesModel(d, envs, k)
    ensures forall v :: v in Visited(d, envs[..k]) ==> !v.state.WaitingApproval?
    decreases |envs|
  {
    k := 0;
    if !d.state.WaitingLLM? {
      assert envs[0] in envs;
      UnaskedStep(d, envs[0]);
      var later := UnaskedBatch(BatchStep(d, envs[0]).value, envs[1..]);
      ReachesOneLater(d, envs, later);
      k := later + 1;
      assert envs[..k][1..] == envs[1..][..later];
    }
  }

  /**
   In plan and bypass mode nobody waits for an approval, and an uninterrupted fresh batch of n calls
   reaches the next model call after at least n + 1 and at most 2n + 1 actions.
   */
  lemma {:induction false} UnattendedBatchBound(d: Data, envs: seq<Env>, p: Primitives, mode: Mode, rules: Rules,
                                                approvals: set<ApprovalKey>) returns (k: nat)
    requires mode.Plan? || mode.Bypass?
    requires Working(d) && d.state.AdvancingQueue? && d.batch.value.index == 0
    requires forall env :: env in envs ==> env.policy == ResolverPolicy(p, mode, rules, approvals)
    requires Uninterrupted(d, envs) && |envs| >= 2 * |d.batch.value.calls| + 1
    ensures var n := |d.batch.value.calls|; n + 1 <= k <= 2 * n + 1
    ensures ReachesModel(d, envs, k)
    ensures forall v :: v in Visited(d, envs[..k]) ==> !v.state.WaitingApproval?
  {
    PlanAndBypassNeverAsk(p, mode, rules, approvals);
    k := UnaskedBatch(d, envs);
    ReachTakesWork(d, envs[..k]);
  }
}
