/**
 The engine as the object the source has: it replaces its runtime data, owns the action queue and
 the run controller, and each method is one atomic section. Every method is proved to do exactly
 what the matching step of `EngineSteps` says.
 */
module EngineObject {
  import opened Outcomes
  import opened Protocol
  import opened Machine
  import opened RuntimeDataApplier
  import opened Execution
  import Steps = EngineSteps
  import EngineInvariant

  class Engine {
    var data: RuntimeData
    const queue: ActionQueue
    const runs: RunController
    var loop: Steps.Loop

    ghost predicate Valid()
      reads this, runs
    {
      runs.Valid()
    }

    ghost function View(): Steps.Engine
      reads this, data, data.messages, data.batch, queue, runs
    {
      Steps.Engine(data.View(), queue.queue, queue.next, runs.runId, runs.active, loop)
    }

    constructor (initial: seq<Message>)
      ensures Valid() && fresh(data) && fresh(queue) && fresh(runs)
      ensures View() == Steps.Initial(initial)
    {
      var list := new MessageList(initial);
      data := new RuntimeData(Initializing, list);
      queue := new ActionQueue();
      runs := new RunController();
      loop := Steps.Off;
    }

    /** `snapshot`: the data as a value. */
    method Snapshot() returns (d: Data)
      ensures d == data.View()
    {
      var batch := None;
      if data.batch != null {
        batch := Some(Batch(data.batch.id, data.batch.calls, data.batch.index));
      }
      d := Data(data.state, data.messages.items, data.pendingTool, data.pendingPermission, data.currentTool, batch,
                data.content, data.reasoning);
    }

    /** `_calculate_transition_locked`: validate, take a snapshot, decide. */
    method CalculateTransition(event: Event) returns (decision: Result<TransitionResult, MachineError>)
      ensures decision == match SnapshotFrom(data.View())
                          case Ok(snapshot) => Transition(snapshot, event)
                          case Err(e) => Err(e)
    {
      var ok := data.Validate();
      if !ok {
        return Err(InvariantViolation);
      }
      var view := QueueView(data.batch != null, None, []);
      if data.batch != null && data.batch.index < |data.batch.calls| {
        view := QueueView(true, Some(data.batch.calls[data.batch.index]), data.batch.calls[data.batch.index..]);
      }
      decision := Transition(Machine.Snapshot(data.state, data.pendingTool, data.currentTool, view), event);
    }

    method ScheduleActions(schedule: seq<Action>)
      modifies queue
      ensures View() == Steps.Enqueue(old(View()), schedule)
    {
      for i := 0 to |schedule|
        invariant View() == Steps.Enqueue(old(View()), schedule[..i])
      {
        var queued := queue.Queue(runs.runId, schedule[i]);
        assert schedule[..i + 1][..i] == schedule[..i];
      }
      assert schedule[..|schedule|] == schedule;
    }

    /** Data, queue clearing and new queue entries change together, or nothing does. */
    method CommitTransition(decision: TransitionResult) returns (error: Option<MachineError>)
      requires Valid()
      modifies this`data, queue
      ensures Valid() && (data == old(data) || fresh(data))
      ensures match Commit(old(data.View()), decision)
              case Err(e) => error == Some(e) && View() == old(View())
              case Ok(next) => error == None && View() == Steps.CommitPlan(old(View()), next, decision.plan)
    {
      var change := ApplyRuntimeDataChanges(data, decision);
      if change.Err? {
        return Some(change.error);
      }
      data := change.value;
      if decision.plan.clearExisting {
        queue.Clear();
      }
      ScheduleActions(decision.plan.schedule);
      error := None;
    }

    /** Decides and commits in one lock hold. */
    method HandleEvent(event: Event) returns (error: Option<MachineError>)
      requires Valid()
      modifies this`data, queue
      ensures Valid() && (data == old(data) || fresh(data))
      ensures match Handle(old(data.View()), event)
              case Err(e) => error == Some(e) && View() == old(View())
              case Ok((next, plan)) => error == None && View() == Steps.CommitPlan(old(View()), next, plan)
    {
      var decision := CalculateTransition(event);
      if decision.Err? {
        return Some(decision.error);
      }
      error := CommitTransition(decision.value);
    }

    /** `dispatch_event`, for every event but a user message. */
    method DispatchEvent(event: Event) returns (error: Option<MachineError>)
      requires Valid()
      modifies this`data, queue, runs
      ensures Valid() && (data == old(data) || fresh(data))
      ensures View() == Steps.Dispatch(old(View()), event)
      ensures error.Some? <==> Handle(old(data.View()), event).Err?
    {
      error := HandleEvent(event);
      if error.Some? {
        return;
      }
      FinishIfIdle();
    }

    /** What draining an empty queue comes to. */
    method FinishIfIdle()
      requires Valid()
      modifies runs
      ensures Valid()
      ensures View() == var e := old(View()); if e.queue == [] && e.data.state.Idle? then Steps.FinishRun(e, e.run) else e
    {
      if queue.queue == [] && data.state.Idle? {
        runs.FinishRun(runs.runId);
      }
    }

    method Ready() returns (error: Option<MachineError>)
      requires Valid()
      modifies this`data, queue, runs
      ensures Valid() && (data == old(data) || fresh(data))
      ensures View() == Steps.Dispatch(old(View()), EngineReady)
    {
      error := DispatchEvent(EngineReady);
    }

    /** Retiring a run touches the run controller alone. */
    method RetireRun()
      requires Valid()
      modifies runs
      ensures Valid() && View() == Steps.CancelRun(old(View()))
    {
      runs.CancelRun();
    }

    method InvalidateRun()
      requires Valid()
      modifies runs
      ensures Valid() && View() == Steps.CancelRun(old(View()))
    {
      runs.InvalidateCurrentRun();
    }

    /** The run is retired before the machine hears of the cancellation. */
    method Cancel() returns (error: Option<MachineError>)
      requires Valid()
      modifies this`data, queue, runs
      ensures Valid() && (data == old(data) || fresh(data))
      ensures View() == Steps.Dispatch(Steps.CancelRun(old(View())), CancelRequested)
    {
      RetireRun();
      error := DispatchEvent(CancelRequested);
    }

    method Reset() returns (error: Option<MachineError>)
      requires Valid()
      modifies this`data, queue, runs
      ensures Valid() && (data == old(data) || fresh(data))
      ensures View() == Steps.Dispatch(Steps.CancelRun(Steps.CancelRun(old(View()))), ResetRequested)
    {
      RetireRun();
      InvalidateRun();
      error := DispatchEvent(ResetRequested);
    }

    /** Replaces the conversation in place, without a transition; the list object is a new one. */
    method ReplaceMessages(messages: seq<Message>)
      requires Valid()
      modifies data, queue, runs
      ensures Valid() && View() == Steps.ReplaceMessages(old(View()), messages)
      ensures unchanged(old(data.messages))
    {
      runs.CancelRun();
      runs.InvalidateCurrentRun();
      data.messages := new MessageList(messages);
      data.pendingTool, data.pendingPermission, data.currentTool, data.batch := None, None, None, null;
      data.content, data.reasoning := "", "";
      data.state := Idle;
      queue.Clear();
    }

    /**
     The first half of `run_turn`: decide, start the run, commit. A decision that was made always
     commits, so there is no first transition to cancel the run for.
     */
    method StartTurn(text: string, attachments: seq<Attachment>) returns (error: Option<MachineError>)
      requires Valid()
      modifies this, queue, runs
      ensures Valid() && (data == old(data) || fresh(data))
      ensures View() == Steps.Start(old(View()), text, attachments)
    {
      var event := UserMessageSubmitted(text, attachments);
      var decision := CalculateTransition(event);
      if decision.Err? {
        return Some(decision.error);
      }
      EngineInvariant.AcceptedCommits(data.View(), event);
      var run := runs.StartRun();
      error := CommitTransition(decision.value);
      loop := Steps.Draining(run);
    }

    /** The top of the drain loop: take the oldest action, or finish, or report a stall. */
    method PopAction()
      requires Valid() && loop.Draining?
      modifies this`loop, queue, runs
      ensures Valid() && View() == Steps.PopAction(old(View()))
    {
      var popped := queue.Pop();
      if popped.Some? {
        loop := Steps.Executing(loop.run, popped.value);
      } else if data.state.Idle? {
        runs.FinishRun(loop.run);
        loop := Steps.Off;
      } else {
        loop := Steps.Stalled;
      }
    }

    /** What the loop does with a failure before it raises it. */
    method Fail(outcome: Outcome)
      requires Valid() && !outcome.Finished?
      modifies this, queue, runs
      ensures Valid() && (data == old(data) || fresh(data))
      ensures View() == Steps.Fail(old(View()), outcome)
    {
      var error;
      if outcome.WasCancelled? {
        error := Cancel();
      } else {
        error := DispatchEvent(ErrorOccurred(Some(outcome.message)));
      }
      loop := Steps.Off;
    }

    /** One executed action: discard it if stale, otherwise resolve, decide and commit. */
    method CompleteAction(env: Steps.Env)
      requires Valid() && Machine.Valid(data.View()) && loop.Executing?
      modifies this, queue, runs
      ensures Valid() && (data == old(data) || fresh(data))
      ensures View() == Steps.CompleteAction(old(View()), env)
    {
      var outcome := Execute(env.ports, loop.queued.action);
      if !outcome.Finished? {
        Fail(outcome);
        return;
      }
      var current := runs.IsCurrent(loop.queued.run);
      if !current {
        loop := Steps.Draining(loop.run);
        return;
      }
      var batch := None;
      if data.batch != null {
        batch := Some(Batch(data.batch.id, data.batch.calls, data.batch.index));
      }
      var event := Resolve(outcome.result, batch, env.specs, env.policy);
      if event.Err? {
        Fail(Failed(event.error));
        return;
      }
      var error := HandleEvent(event.value);
      if error.Some? {
        Fail(Failed("state machine error"));
        return;
      }
      Remember(env, event.value);
    }

    /** Behind the commit an approval for good is recorded, which may raise. */
    method Remember(env: Steps.Env, event: Event)
      requires Valid() && loop.Executing?
      modifies this, queue, runs
      ensures Valid() && (data == old(data) || fresh(data))
      ensures View() == Steps.AfterCommit(old(View()), env, event, old(loop).run)
    {
      var raised := RememberError(env.policy, event);
      if raised.Some? {
        Fail(Failed(raised.value));
        return;
      }
      loop := Steps.Draining(loop.run);
    }

    /** Appends streaming text, unless the chunk is stale or the candidate does not validate. */
    method RecordStreamChunk(run: nat, chunk: StreamChunk)
      requires Valid()
      modifies this`data, queue
      ensures Valid() && (data == old(data) || fresh(data))
      ensures View() == Steps.RecordChunk(old(View()), run, chunk)
    {
      var current := runs.IsCurrent(run);
      if !current {
        return;
      }
      var error := CommitTransition(
        TransitionResult(data.state, [AppendStreamingAssistant(chunk)], ActionPlan(false, [])));
    }

    /** The object is where the run `labels` of the step relation leads from `start`. */
    ghost predicate Follows(start: Steps.Engine, labels: seq<Steps.Label>)
      reads this, data, data.messages, data.batch, queue, runs
    {
      && EngineInvariant.EngineInv(View())
      && Steps.Allowed(start, labels) && View() == Steps.Run(start, labels)
    }

    method FollowPop(ghost start: Steps.Engine, ghost labels: seq<Steps.Label>)
      requires Valid() && loop.Draining? && Follows(start, labels)
      modifies this`loop, queue, runs
      ensures Valid() && Follows(start, labels + [Steps.Pop])
      ensures !loop.Draining? && !loop.Stalled?
    {
      EngineInvariant.StepKeepsEngineInv(View(), Steps.Pop);
      EngineInvariant.RunExtends(start, labels, Steps.Pop);
      PopAction();
    }

    method FollowComplete(ghost start: Steps.Engine, ghost labels: seq<Steps.Label>, env: Steps.Env)
      requires Valid() && loop.Executing? && Follows(start, labels)
      modifies this, queue, runs
      ensures Valid() && Follows(start, labels + [Steps.Complete(env)])
      ensures loop.Draining? || loop.Off?
    {
      EngineInvariant.StepKeepsEngineInv(View(), Steps.Complete(env));
      EngineInvariant.RunExtends(start, labels, Steps.Complete(env));
      CompleteAction(env);
    }

    /**
     The drain loop of one undisturbed turn, for as many executor answers as `envs` supplies. What
     it does is a run of the step relation, and it ends with the turn over or an action waiting.
     */
    method RunScheduledActions(envs: seq<Steps.Env>) returns (ghost labels: seq<Steps.Label>, used: nat)
      requires Valid() && EngineInvariant.EngineInv(View()) && loop.Draining?
      modifies this, queue, runs
      ensures Valid() && used <= |envs|
      ensures Follows(old(View()), labels)
      ensures loop.Off? || (loop.Executing? && used == |envs|)
    {
      labels, used := [], 0;
      ghost var start := View();
      while loop.Draining?
        invariant Valid() && used <= |envs| && Follows(start, labels)
        invariant !loop.Draining? ==> loop.Off? || (loop.Executing? && used == |envs|)
        decreases |envs| - used, loop.Draining?
      {
        FollowPop(start, labels);
        labels := labels + [Steps.Pop];
        if loop.Executing? && used < |envs| {
          FollowComplete(start, labels, envs[used]);
          labels, used := labels + [Steps.Complete(envs[used])], used + 1;
        }
      }
    }
  }
}
