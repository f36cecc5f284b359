/** What every interleaving of engine steps keeps, from construction on. */
module EngineInvariant {
  import opened Outcomes
  import opened Protocol
  import opened Transcript
  import opened Machine
  import opened MachineInvariant
  import opened Execution
  import opened EngineSteps

  /** The one action a state asks for. */
  predicate Demands(d: Data, a: Action) {
    match d.state
    case Initializing | Idle => false
    case WaitingLLM => a == CallModel
    case AdvancingQueue => a == CheckToolQueue
    case WaitingApproval =>
      d.pendingTool.Some? && d.pendingPermission.Some?
      && a == AwaitApproval(d.pendingTool.value, d.pendingPermission.value)
    case RunningTool => d.currentTool.Some? && a == RunTool(d.currentTool.value)
  }

  predicate Quiet(d: Data) {
    d.state.Initializing? || d.state.Idle?
  }

  /** A batch has calls, and the call in hand is the batch entry itself, not merely one like it. */
  predicate ExactCall(d: Data) {
    && (d.batch.Some? ==> d.batch.value.calls != [])
    && ((d.state.WaitingApproval? || d.state.RunningTool?) ==>
      && d.batch.Some? && 0 < d.batch.value.index <= |d.batch.value.calls|
      && (if d.state.RunningTool? then d.currentTool else d.pendingTool)
         == Some(d.batch.value.calls[d.batch.value.index - 1]))
  }

  /**
   Queue and state in lockstep: a quiet state has no work queued and nothing in flight for the
   current run; an active state has exactly the action it asks for, queued or in flight.
   */
  predicate Lockstep(e: Engine) {
    if Quiet(e.data) then e.queue == [] && (e.loop.Executing? ==> e.loop.queued.run < e.run)
    else
      && e.run != 0 && e.active
      && ((e.loop == Draining(e.run) && |e.queue| == 1 && e.queue[0].run == e.run && Demands(e.data, e.queue[0].action))
          || (e.loop.Executing? && e.loop.run == e.loop.queued.run == e.run && e.queue == []
              && Demands(e.data, e.loop.queued.action)))
  }

  predicate EngineInv(e: Engine) {
    && Valid(e.data) && ExactCall(e.data) && Lockstep(e)
    && !e.loop.Stalled? && (e.data.state.Initializing? ==> e.loop.Off?)
    && (e.active ==> e.run != 0 && (e.loop == Draining(e.run) || (e.loop.Executing? && e.loop.run == e.run)))
    && (forall q :: q in e.queue ==> q.id <= e.nextAction)
    && (e.loop.Executing? ==> e.loop.queued.id <= e.nextAction && e.loop.queued.run <= e.run)
  }

  lemma InitialInv(messages: seq<Message>)
    ensures EngineInv(Initial(messages))
    ensures Transcript.Complete(messages) ==> Consistent(Initial(messages).data)
  {
  }

  lemma CommitPlanShape(e: Engine, data: Data, plan: ActionPlan)
    requires |plan.schedule| <= 1
    ensures var base := if plan.clearExisting then [] else e.queue;
            CommitPlan(e, data, plan) ==
            if plan.schedule == [] then e.(data := data, queue := base)
            else e.(data := data, nextAction := e.nextAction + 1,
                    queue := base + [QueuedAction(e.run, e.nextAction + 1, plan.schedule[0])])
  {
    var cleared := e.(data := data, queue := if plan.clearExisting then [] else e.queue);
    assert Enqueue(cleared, []) == cleared;
    if plan.schedule != [] {
      assert plan.schedule[..|plan.schedule| - 1] == [];
    }
  }

  predicate Terminal(e: Event) {
    e.ErrorOccurred? || e.CancelRequested? || e.ResetRequested?
  }

  /** What an accepted event schedules is what the state it leads to demands. */
  lemma PlanMatchesState(d: Data, e: Event)
    requires Accepted(d, e)
    ensures |PlanFor(d, e).schedule| <= 1
    ensures if Quiet(After(d, e)) then PlanFor(d, e).schedule == []
            else PlanFor(d, e).schedule != [] && Demands(After(d, e), PlanFor(d, e).schedule[0])
    ensures Terminal(e) <==> PlanFor(d, e).clearExisting
  {
  }

  /** The events that end a run are accepted in every valid state and lead to `Idle`. */
  lemma TerminalEventSettles(e: Engine, event: Event)
    requires Valid(e.data) && Terminal(event)
    ensures Accepted(e.data, event)
    ensures Dispatch(e, event) == FinishRun(e.(data := After(e.data, event), queue := []), e.run)
    ensures Valid(After(e.data, event)) && After(e.data, event).state.Idle?
  {
    AcceptedIsHandled(e.data, event);
    AfterIsValid(e.data, event);
    PlanMatchesState(e.data, event);
    CommitPlanShape(e, After(e.data, event), PlanFor(e.data, event));
  }

  // ----- No completion of the current run is refused -----

  /** A completion of the current run that the resolver turned into `event`. */
  predicate Resolves(e: Engine, env: Env, event: Event) {
    && e.loop.Executing? && Valid(e.data) && IsCurrent(e, e.loop.queued.run)
    && Execute(env.ports, e.loop.queued.action).Finished?
    && Resolve(Execute(env.ports, e.loop.queued.action).result, e.data.batch, env.specs, env.policy) == Ok(event)
  }

  /**
   Whatever the model, the tools, the human and the policy answer, the event built for a current
   completion passes every guard of the state that is reached, and keeps the call in hand exact.
   */
  lemma CurrentCompletionIsAccepted(e: Engine, env: Env, event: Event)
    requires EngineInv(e) && Resolves(e, env, event)
    ensures Accepted(e.data, event) && !Terminal(event)
    ensures ExactCall(After(e.data, event))
    ensures Handle(e.data, event).Ok?
  {
    ResolvedIsAccepted(e.data, e.loop.queued.action, env, event);
    AcceptedIsHandled(e.data, event);
  }

  lemma ResolvedIsAccepted(d: Data, action: Action, env: Env, event: Event)
    requires Valid(d) && ExactCall(d) && Demands(d, action)
    requires Execute(env.ports, action).Finished?
    requires Resolve(Execute(env.ports, action).result, d.batch, env.specs, env.policy) == Ok(event)
    ensures Accepted(d, event) && !Terminal(event)
    ensures ExactCall(After(d, event))
  {
  }

  /**
   The resolver refuses a finished action in exactly three cases: a reply that asks for tools when
   none are advertised, an approval decision it does not know, and a next call that the policy, or
   the approval key of that call, raises on.
   */
  lemma ResolverRefusesExactly(ports: Ports, action: Action, batch: Option<Batch>, specs: seq<ToolSpec>, policy: Policy)
    requires batch.Some? ==> 0 <= batch.value.index
    requires Execute(ports, action).Finished?
    ensures var result := Execute(ports, action).result;
            Resolve(result, batch, specs, policy).Err? <==>
            || (action.CallModel? && ports.model.value.value.toolCalls != [] && specs == [])
            || (action.AwaitApproval? && ports.approval.value.value.UnknownDecision?)
            || (action.CheckToolQueue? && batch.Some? && batch.value.index < |batch.value.calls|
                && PolicyRaises(policy, batch.value.calls[batch.value.index], specs))
  {
  }

  /** A call allowed to run is never described, so only its classification can raise. */
  predicate PolicyRaises(policy: Policy, call: ToolCall, specs: seq<ToolSpec>) {
    var decision := policy.decide(call, specs);
    decision.Err? || (!decision.value.DecisionRunDirectly? && policy.request(call, specs).Err?)
  }

  /**
   A completion that the resolver refuses ends the turn as an error: everything outstanding is
   answered, nothing stays queued, and the engine is idle again.
   */
  lemma RefusedCompletionEndsTurn(e: Engine, env: Env, message: string)
    requires EngineInv(e) && e.loop.Executing? && IsCurrent(e, e.loop.queued.run)
    requires Execute(env.ports, e.loop.queued.action).Finished?
    requires Resolve(Execute(env.ports, e.loop.queued.action).result, e.data.batch, env.specs, env.policy) == Err(message)
    ensures var next := CompleteAction(e, env);
            && EngineInv(next) && next.data.state.Idle? && next.loop.Off? && next.queue == []
            && next.data == After(e.data, ErrorOccurred(Some(message)))
            && (Consistent(e.data) ==> Transcript.Complete(next.data.messages))
  {
    FailKeeps(e, Failed(message));
    TerminalEventSettles(e, ErrorOccurred(Some(message)));
    if Consistent(e.data) {
      FailConsistent(e, Failed(message));
    }
  }

  // ----- Every step keeps the invariant -----

  /** The engine right behind the commit of a current completion. */
  function Committed(e: Engine, event: Event): Engine
    requires Accepted(e.data, event)
  {
    CommitPlan(e, After(e.data, event), PlanFor(e.data, event))
  }

  /** A current completion commits; what follows is the record of an approval kept for good. */
  lemma CompletionCommits(e: Engine, env: Env, event: Event)
    requires EngineInv(e) && Resolves(e, env, event)
    ensures Accepted(e.data, event) && !Terminal(event)
    ensures var next := Committed(e, event);
            && CompleteAction(e, env) == AfterCommit(next, env, event, e.loop.run)
            && Failable(next) && next.data == After(e.data, event)
            && next.run == e.run && next.active == e.active && next.loop == e.loop
  {
    CurrentCompletionIsAccepted(e, env, event);
    AcceptedIsHandled(e.data, event);
    AfterIsValid(e.data, event);
    PlanMatchesState(e.data, event);
    CommitPlanShape(e, After(e.data, event), PlanFor(e.data, event));
  }

  /** What a failure needs to be reported: less than the invariant, for it may come behind a commit. */
  predicate Failable(e: Engine) {
    Valid(e.data) && (e.active ==> e.run != 0)
  }

  lemma FailKeeps(e: Engine, outcome: Outcome)
    requires Failable(e) && !outcome.Finished?
    ensures EngineInv(Fail(e, outcome)) && Fail(e, outcome).data.state.Idle?
  {
    if outcome.WasCancelled? {
      TerminalEventSettles(CancelRun(e), CancelRequested);
    } else {
      TerminalEventSettles(e, ErrorOccurred(Some(outcome.message)));
    }
  }

  lemma DrainKeeps(e: Engine, env: Env, event: Event)
    requires EngineInv(e) && Resolves(e, env, event) && Accepted(e.data, event)
    ensures EngineInv(Committed(e, event).(loop := Draining(e.loop.run)))
  {
    CurrentCompletionIsAccepted(e, env, event);
    AfterIsValid(e.data, event);
    PlanMatchesState(e.data, event);
    CommitPlanShape(e, After(e.data, event), PlanFor(e.data, event));
  }

  lemma CompleteKeeps(e: Engine, env: Env)
    requires EngineInv(e) && e.loop.Executing?
    ensures EngineInv(CompleteAction(e, env))
  {
    var queued := e.loop.queued;
    match Execute(env.ports, queued.action) {
      case Finished(result) =>
        if IsCurrent(e, queued.run) {
          match Resolve(result, e.data.batch, env.specs, env.policy) {
            case Err(message) => FailKeeps(e, Failed(message));
            case Ok(event) =>
              CompletionCommits(e, env, event);
              match RememberError(env.policy, event) {
                case Some(message) => FailKeeps(Committed(e, event), Failed(message));
                case None => DrainKeeps(e, env, event);
              }
          }
        }
      case WasCancelled => FailKeeps(e, WasCancelled);
      case Failed(message) => FailKeeps(e, Failed(message));
    }
  }

  lemma StartKeeps(e: Engine, text: string, attachments: seq<Attachment>)
    requires EngineInv(e) && e.loop.Off?
    ensures EngineInv(Start(e, text, attachments))
  {
    var event := UserMessageSubmitted(text, attachments);
    if Accepted(e.data, event) {
      AcceptedIsHandled(e.data, event);
      var started := e.(run := e.run + 1, active := true);
      CommitPlanShape(started, After(e.data, event), PlanFor(e.data, event));
    }
  }

  lemma ReadyKeeps(e: Engine)
    requires EngineInv(e)
    ensures EngineInv(Dispatch(e, EngineReady))
  {
    if Accepted(e.data, EngineReady) {
      AcceptedIsHandled(e.data, EngineReady);
      CommitPlanShape(e, After(e.data, EngineReady), PlanFor(e.data, EngineReady));
    }
  }

  lemma StepKeepsEngineInv(e: Engine, l: Label)
    requires EngineInv(e) && Enabled(e, l)
    ensures EngineInv(Step(e, l))
  {
    match l {
      case Ready => ReadyKeeps(e);
      case StartTurn(text, attachments) => StartKeeps(e, text, attachments);
      case Pop =>
      case Complete(env) => CompleteKeeps(e, env);
      case Chunk(run, chunk) => StreamChunkCommit(e.data, chunk);
      case Cancel => TerminalEventSettles(CancelRun(e), CancelRequested);
      case Reset => TerminalEventSettles(CancelRun(CancelRun(e)), ResetRequested);
      case Replace(messages) =>
    }
  }

  /** Queue and state stay in lockstep over every run, so the loop never stalls. */
  lemma {:induction false} RunKeepsEngineInv(e: Engine, labels: seq<Label>)
    requires EngineInv(e) && Allowed(e, labels)
    ensures EngineInv(Run(e, labels))
    decreases |labels|
  {
    if labels != [] {
      StepKeepsEngineInv(e, labels[0]);
      RunKeepsEngineInv(Step(e, labels[0]), labels[1..]);
    }
  }

  lemma LockstepOverEveryRun(messages: seq<Message>, labels: seq<Label>)
    requires Allowed(Initial(messages), labels)
    ensures Lockstep(Run(Initial(messages), labels)) && !Run(Initial(messages), labels).loop.Stalled?
  {
    InitialInv(messages);
    RunKeepsEngineInv(Initial(messages), labels);
  }

  // ----- Tool-call completeness over whole runs -----

  /** The only way a transcript enters the engine from outside. */
  predicate BringsComplete(l: Label) {
    l.Replace? ==> Transcript.Complete(l.messages)
  }

  lemma FailConsistent(e: Engine, outcome: Outcome)
    requires Failable(e) && Consistent(e.data) && !outcome.Finished?
    ensures Consistent(Fail(e, outcome).data)
  {
    if outcome.WasCancelled? {
      TerminalEventSettles(CancelRun(e), CancelRequested);
      AfterIsConsistent(e.data, CancelRequested);
    } else {
      var event := ErrorOccurred(Some(outcome.message));
      TerminalEventSettles(e, event);
      AfterIsConsistent(e.data, event);
    }
  }

  lemma DispatchConsistent(e: Engine, event: Event)
    requires Valid(e.data) && Consistent(e.data)
    ensures Consistent(Dispatch(e, event).data)
  {
    if Accepted(e.data, event) {
      AcceptedIsHandled(e.data, event);
      AfterIsConsistent(e.data, event);
      PlanMatchesState(e.data, event);
      CommitPlanShape(e, After(e.data, event), PlanFor(e.data, event));
    }
  }

  lemma {:induction false} CompleteConsistent(e: Engine, env: Env)
    requires EngineInv(e) && Consistent(e.data) && e.loop.Executing?
    ensures Consistent(CompleteAction(e, env).data)
  {
    match Execute(env.ports, e.loop.queued.action) {
      case Finished(result) =>
        if IsCurrent(e, e.loop.queued.run) {
          match Resolve(result, e.data.batch, env.specs, env.policy) {
            case Err(message) => FailConsistent(e, Failed(message));
            case Ok(event) =>
              CompletionCommits(e, env, event);
              AfterIsConsistent(e.data, event);
              if RememberError(env.policy, event).Some? {
                FailConsistent(Committed(e, event), Failed(RememberError(env.policy, event).value));
              }
          }
        }
      case WasCancelled => FailConsistent(e, WasCancelled);
      case Failed(message) => FailConsistent(e, Failed(message));
    }
  }

  lemma StepKeepsConsistent(e: Engine, l: Label)
    requires EngineInv(e) && Consistent(e.data) && Enabled(e, l) && BringsComplete(l)
    ensures Consistent(Step(e, l).data)
  {
    match l {
      case Ready => DispatchConsistent(e, EngineReady);
      case StartTurn(text, attachments) =>
        var event := UserMessageSubmitted(text, attachments);
        if Accepted(e.data, event) {
          AcceptedIsHandled(e.data, event);
          AfterIsConsistent(e.data, event);
          CommitPlanShape(e.(run := e.run + 1, active := true), After(e.data, event), PlanFor(e.data, event));
        }
      case Pop =>
      case Complete(env) => CompleteConsistent(e, env);
      case Chunk(run, chunk) => StreamChunkCommit(e.data, chunk);
      case Cancel => DispatchConsistent(CancelRun(e), CancelRequested);
      case Reset => DispatchConsistent(CancelRun(CancelRun(e)), ResetRequested);
      case Replace(messages) =>
    }
  }

  lemma {:induction false} RunKeepsConsistent(e: Engine, labels: seq<Label>)
    requires EngineInv(e) && Consistent(e.data) && Allowed(e, labels)
    requires forall l :: l in labels ==> BringsComplete(l)
    ensures EngineInv(Run(e, labels)) && Consistent(Run(e, labels).data)
    decreases |labels|
  {
    if labels != [] {
      StepKeepsEngineInv(e, labels[0]);
      StepKeepsConsistent(e, labels[0]);
      RunKeepsConsistent(Step(e, labels[0]), labels[1..]);
    }
  }

  /**
   Tool-call completeness: in every state of every run, the history is a sequence of complete
   blocks followed by at most one open block. The open block is the batch being worked on,
   answered up to the index; with no batch there is none, and a batch that is answered to its end
   is the newest of the complete blocks.
   */
  lemma {:induction false} EveryCallIsAnswered(messages: seq<Message>, labels: seq<Label>)
    returns (blocks: seq<Block>, open: seq<Message>)
    requires Transcript.Complete(messages) && Allowed(Initial(messages), labels)
    requires forall l :: l in labels ==> BringsComplete(l)
    ensures var d := Run(Initial(messages), labels).data;
            && (forall b :: b in blocks ==> BlockOk(b))
            && NonSystem(d.messages) == Flatten(blocks) + open
            && (d.batch.None? ==> open == [])
            && (d.batch.Some? && open != [] ==>
                  && CallsOf(open[0]) == d.batch.value.calls
                  && |open| - 1 == (if d.state.AdvancingQueue? then d.batch.value.index else d.batch.value.index - 1)
                  && Answers(open[0], open[1..]))
            && (d.batch.Some? && open == [] ==>
                  && d.state.AdvancingQueue? && d.batch.value.index == |d.batch.value.calls|
                  && blocks != [] && IsExchangeOf(blocks[|blocks| - 1], d.batch.value.calls))
  {
    InitialInv(messages);
    RunKeepsConsistent(Initial(messages), labels);
    blocks, open := ScanGivesBlocks(Run(Initial(messages), labels).data.messages);
  }

  /** Every model call of every run is made with a transcript whose calls are all answered. */
  lemma {:induction false} ModelSeesCompleteTranscript(messages: seq<Message>, labels: seq<Label>)
    requires Transcript.Complete(messages) && Allowed(Initial(messages), labels)
    requires forall l :: l in labels ==> BringsComplete(l)
    ensures var e := Run(Initial(messages), labels);
            e.loop.Executing? && IsCurrent(e, e.loop.queued.run) && e.loop.queued.action.CallModel?
            ==> Transcript.Complete(e.data.messages)
  {
    InitialInv(messages);
    RunKeepsConsistent(Initial(messages), labels);
  }

  // ----- Staleness -----

  lemma StepNeverRevives(e: Engine, l: Label)
    requires EngineInv(e) && Enabled(e, l)
    ensures e.run <= Step(e, l).run
    ensures l.StartTurn? && Step(e, l) != e ==> Step(e, l).run == e.run + 1
    ensures l.Cancel? ==> Step(e, l).run == e.run + 1
    ensures l.Reset? || l.Replace? ==> Step(e, l).run == e.run + 2
  {
    match l {
      case Ready =>
        if Accepted(e.data, EngineReady) {
          AcceptedIsHandled(e.data, EngineReady);
          CommitPlanShape(e, After(e.data, EngineReady), PlanFor(e.data, EngineReady));
        }
      case StartTurn(text, attachments) =>
        var event := UserMessageSubmitted(text, attachments);
        if Accepted(e.data, event) {
          AcceptedIsHandled(e.data, event);
          CommitPlanShape(e.(run := e.run + 1, active := true), After(e.data, event), PlanFor(e.data, event));
        }
      case Cancel => TerminalEventSettles(CancelRun(e), CancelRequested);
      case Reset => TerminalEventSettles(CancelRun(CancelRun(e)), ResetRequested);
      case Complete(env) => CompleteNeverRevives(e, env);
      case _ =>
    }
  }

  lemma CompleteNeverRevives(e: Engine, env: Env)
    requires EngineInv(e) && e.loop.Executing?
    ensures e.run <= CompleteAction(e, env).run
  {
    match Execute(env.ports, e.loop.queued.action) {
      case Finished(result) =>
        if IsCurrent(e, e.loop.queued.run) {
          match Resolve(result, e.data.batch, env.specs, env.policy) {
            case Err(message) => TerminalEventSettles(e, ErrorOccurred(Some(message)));
            case Ok(event) =>
              CompletionCommits(e, env, event);
              if RememberError(env.policy, event).Some? {
                TerminalEventSettles(Committed(e, event), ErrorOccurred(RememberError(env.policy, event)));
              }
          }
        }
      case WasCancelled => TerminalEventSettles(CancelRun(e), CancelRequested);
      case Failed(message) => TerminalEventSettles(e, ErrorOccurred(Some(message)));
    }
  }

  lemma {:induction false} RetiredStaysRetired(e: Engine, labels: seq<Label>, run: nat)
    requires EngineInv(e) && Allowed(e, labels) && run < e.run
    ensures !IsCurrent(Run(e, labels), run) && EngineInv(Run(e, labels)) && run < Run(e, labels).run
    decreases |labels|
  {
    if labels != [] {
      StepKeepsEngineInv(e, labels[0]);
      StepNeverRevives(e, labels[0]);
      RetiredStaysRetired(Step(e, labels[0]), labels[1..], run);
    }
  }

  /** Ending a run that is not going on adds no message. */
  lemma QuietEndChangesNothing(d: Data, running: string, notExecuted: string)
    requires Valid(d) && Quiet(d)
    ensures EndMessages(d, running, notExecuted) == d.messages
    ensures d.state.Idle? ==> Ended(d, running, notExecuted) == d
  {
    assert Outstanding(SnapshotFrom(d).value, running, notExecuted) == [];
  }

  lemma StaleCompletionChangesNothing(e: Engine, env: Env)
    requires EngineInv(e) && e.loop.Executing? && e.loop.queued.run < e.run
    ensures CompleteAction(e, env).data == e.data && CompleteAction(e, env).queue == e.queue
  {
    QuietEndChangesNothing(e.data, "cancelled", "not executed: cancelled");
    match Execute(env.ports, e.loop.queued.action) {
      case Finished(result) =>
      case WasCancelled => TerminalEventSettles(CancelRun(e), CancelRequested);
      case Failed(message) =>
        QuietEndChangesNothing(e.data, message, "not executed: " + message);
        TerminalEventSettles(e, ErrorOccurred(Some(message)));
    }
  }

  /**
   Staleness safety: once an id is retired, in every later state a chunk stamped with it changes
   nothing at all, and an action of that run that finishes, is cancelled or fails changes neither
   the data nor the queue.
   */
  lemma {:induction false} StaleWorkChangesNothing(e: Engine, labels: seq<Label>, run: nat, chunk: StreamChunk, env: Env)
    requires EngineInv(e) && Allowed(e, labels) && run < e.run
    ensures EngineInv(Run(e, labels))
    ensures RecordChunk(Run(e, labels), run, chunk) == Run(e, labels)
    ensures var later := Run(e, labels);
            later.loop.Executing? && later.loop.queued.run == run ==>
              CompleteAction(later, env).queue == later.queue && CompleteAction(later, env).data == later.data
  {
    RetiredStaysRetired(e, labels, run);
    var later := Run(e, labels);
    if later.loop.Executing? && later.loop.queued.run == run {
      StaleCompletionChangesNothing(later, env);
    }
  }

  lemma AcceptedCommits(d: Data, e: Event)
    requires Valid(d)
    ensures Accepted(d, e) ==> Handle(d, e).Ok?
  {
    if Accepted(d, e) {
      AcceptedIsHandled(d, e);
    }
  }

  lemma {:induction false} RunExtends(e: Engine, labels: seq<Label>, l: Label)
    requires Allowed(e, labels) && Enabled(Run(e, labels), l)
    ensures Allowed(e, labels + [l]) && Run(e, labels + [l]) == Step(Run(e, labels), l)
    decreases |labels|
  {
    if labels == [] {
      assert Run(Step(e, l), []) == Step(e, l);
    } else {
      RunExtends(Step(e, labels[0]), labels[1..], l);
      assert (labels + [l])[1..] == labels[1..] + [l];
    }
  }
}
