/**
 The engine (`runtime/engine/action_loop.py`, `commands.py`) as interleaved atomic steps.

 The engine lock is only held across synchronous code and the executor call is the only point
 where the loop suspends, so everything between two such points is one step. The steps below are
 finer than that: another command may also fall between a commit and the next pop. One turn loop
 runs at a time, which the session's turn flag enforces (`runtime/session/session.py:86-94`).
 */
module EngineSteps {
  import opened Outcomes
  import opened Protocol
  import opened Machine
  import opened Execution

  /**
   Where the turn loop is. `run` is the id it captured when it started. `Stalled` is the loop
   that found an empty queue outside `Idle` and raised.
   */
  datatype Loop = Off | Draining(run: nat) | Executing(run: nat, queued: QueuedAction) | Stalled

  datatype Engine = Engine(
    data: Data,
    queue: seq<QueuedAction>,
    nextAction: nat,
    run: nat,
    active: bool,
    loop: Loop)

  /** What the world supplies while one action is executed and resolved. */
  datatype Env = Env(ports: Ports, specs: seq<ToolSpec>, policy: Policy)

  datatype Label =
    | Ready
    | StartTurn(text: string, attachments: seq<Attachment>)
    | Pop
    | Complete(env: Env)
    | Chunk(run: nat, chunk: StreamChunk)
    | Cancel
    | Reset
    | Replace(messages: seq<Message>)

  function Initial(messages: seq<Message>): Engine {
    Engine(Data(Initializing, messages, None, None, None, None, "", ""), [], 0, 0, false, Off)
  }

  predicate IsCurrent(e: Engine, run: nat) {
    run != 0 && run == e.run
  }

  /** `_commit_transition_locked`: data and queue change together. */
  function CommitPlan(e: Engine, data: Data, plan: ActionPlan): Engine {
    Enqueue(e.(data := data, queue := if plan.clearExisting then [] else e.queue), plan.schedule)
  }

  function Enqueue(e: Engine, actions: seq<Action>): Engine {
    if actions == [] then e
    else
      var before := Enqueue(e, actions[..|actions| - 1]);
      var id := before.nextAction + 1;
      before.(nextAction := id, queue := before.queue + [QueuedAction(e.run, id, actions[|actions| - 1])])
  }

  function FinishRun(e: Engine, run: nat): Engine {
    if IsCurrent(e, run) then e.(active := false) else e
  }

  function CancelRun(e: Engine): Engine {
    e.(run := e.run + 1, active := false)
  }

  /**
   `dispatch_event` for an event that is not a user message: commit, then drain. An event that
   schedules nothing leaves nothing to drain, so the drain only finishes the run when `Idle`.
   */
  function Dispatch(e: Engine, event: Event): Engine {
    match Handle(e.data, event)
    case Err(_) => e
    case Ok((data, plan)) =>
      var committed := CommitPlan(e, data, plan);
      if committed.queue == [] && data.state.Idle? then FinishRun(committed, committed.run) else committed
  }

  /** A failed action: a cancellation retires the run first, anything else is reported as an error. */
  function Fail(e: Engine, outcome: Outcome): Engine
    requires !outcome.Finished?
  {
    var settled := if outcome.WasCancelled? then Dispatch(CancelRun(e), CancelRequested)
                   else Dispatch(e, ErrorOccurred(Some(outcome.message)));
    settled.(loop := Off)
  }

  /** Keeping an approval for good comes behind the commit, and may raise there. */
  function AfterCommit(e: Engine, env: Env, event: Event, run: nat): Engine {
    match RememberError(env.policy, event)
    case Some(message) => Fail(e, Failed(message))
    case None => e.(loop := Draining(run))
  }

  /** `_execute_scheduled_action` after the executor has answered. */
  function CompleteAction(e: Engine, env: Env): Engine
    requires e.loop.Executing? && Valid(e.data)
  {
    var queued := e.loop.queued;
    match Execute(env.ports, queued.action)
    case Finished(result) =>
      if !IsCurrent(e, queued.run) then e.(loop := Draining(e.loop.run))
      else (match Resolve(result, e.data.batch, env.specs, env.policy)
            case Err(message) => Fail(e, Failed(message))
            case Ok(event) =>
              match Handle(e.data, event)
              case Err(_) => Fail(e, Failed("state machine error"))
              case Ok((data, plan)) => AfterCommit(CommitPlan(e, data, plan), env, event, e.loop.run))
    case WasCancelled => Fail(e, WasCancelled)
    case Failed(message) => Fail(e, Failed(message))
  }

  function PopAction(e: Engine): Engine
    requires e.loop.Draining?
  {
    if e.queue != [] then e.(queue := e.queue[1..], loop := Executing(e.loop.run, e.queue[0]))
    else if e.data.state.Idle? then FinishRun(e, e.loop.run).(loop := Off)
    else e.(loop := Stalled)
  }

  function Start(e: Engine, text: string, attachments: seq<Attachment>): Engine {
    match Handle(e.data, UserMessageSubmitted(text, attachments))
    case Err(_) => e
    case Ok((data, plan)) =>
      var started := e.(run := e.run + 1, active := true);
      CommitPlan(started, data, plan).(loop := Draining(started.run))
  }

  function RecordChunk(e: Engine, run: nat, chunk: StreamChunk): Engine {
    if !IsCurrent(e, run) then e
    else match Commit(e.data, TransitionResult(e.data.state, [AppendStreamingAssistant(chunk)], Nothing))
      case Err(_) => e
      case Ok(data) => e.(data := data)
  }

  function ReplaceMessages(e: Engine, messages: seq<Message>): Engine {
    e.(run := e.run + 2, active := false, queue := [],
       data := Data(Idle, messages, None, None, None, None, "", ""))
  }

  predicate Enabled(e: Engine, l: Label) {
    && Valid(e.data)
    && match l
       case StartTurn(_, _) => e.loop.Off? || e.loop.Stalled?
       case Pop => e.loop.Draining?
       case Complete(_) => e.loop.Executing?
       case _ => true
  }

  function Step(e: Engine, l: Label): Engine
    requires Enabled(e, l)
  {
    match l
    case Ready => Dispatch(e, EngineReady)
    case StartTurn(text, attachments) => Start(e, text, attachments)
    case Pop => PopAction(e)
    case Complete(env) => CompleteAction(e, env)
    case Chunk(run, chunk) => RecordChunk(e, run, chunk)
    case Cancel => Dispatch(CancelRun(e), CancelRequested)
    case Reset => Dispatch(CancelRun(CancelRun(e)), ResetRequested)
    case Replace(messages) => ReplaceMessages(e, messages)
  }

  predicate Allowed(e: Engine, labels: seq<Label>)
    decreases |labels|
  {
    labels == [] || (Enabled(e, labels[0]) && Allowed(Step(e, labels[0]), labels[1..]))
  }

  function Run(e: Engine, labels: seq<Label>): Engine
    requires Allowed(e, labels)
    decreases |labels|
  {
    if labels == [] then e else Run(Step(e, labels[0]), labels[1..])
  }
}
