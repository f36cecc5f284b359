/**
 Sessions and the notification stream together: what every use case makes the emitter do, and what a
 consumer has seen behind any history of them.
 */
module SessionStream {
  import opened Outcomes
  import opened Protocol
  import opened Machine
  import opened EngineSteps
  import opened EngineInvariant
  import opened Execution
  import opened CompletionEffects
  import opened SessionLog
  import opened SessionSteps
  import opened SessionInvariant
  import E = SnapshotEmitter

  /** A decision is recorded, and the last announced call forgotten, before the engine applies it. */
  function EmitterSteps(s: Session, a: UseCase): seq<E.EmitterStep>
    requires Allows(s, a)
  {
    var next := Act(s, a);
    match a
    case BeginTurn(_, _) => [E.Snapshot(next.engine.data)]
    case Loop(step) => if step.Complete? then [E.Snapshot(next.engine.data)] else []
    case Audit(record) => if record.kind.ApprovalDecided? then [E.Decide] else []
    case EndTurn => [E.Snapshot(next.engine.data)]
    case CancelRun => if s.holder.Turn? then [E.Snapshot(next.engine.data)] else []
    case ResetConversation =>
      (if s.holder.Turn? then [E.Snapshot(next.engine.data)] else []) + [E.Rearm(next.emitted)]
    case FinishCompact(_) => [E.Skip(next.emitted)]
    case Undo => if UndoPointOf(s.logs[s.active]).Some? then [E.Skip(next.emitted)] else []
    case ReplaceConversation(_) => [E.Rearm(next.emitted)]
    case Fork(_) => [E.Rearm(next.emitted)]
    case Resume(_) => [E.Rearm(next.emitted)]
    case Remember(value) => if value in s.memory then [] else [E.Rearm(next.emitted)]
    case ForgetMemories => [E.Rearm(next.emitted)]
    case _ => []
  }

  function AllEmitterSteps(s: Session, uses: seq<UseCase>): seq<E.EmitterStep>
    requires AllAllowed(s, uses)
    decreases |uses|
  {
    if uses == [] then [] else EmitterSteps(s, uses[0]) + AllEmitterSteps(Act(s, uses[0]), uses[1..])
  }

  function MarkAfter(m: E.Mark, steps: seq<E.EmitterStep>): E.Mark
    decreases |steps|
  {
    if steps == [] then m else MarkAfter(E.After(m, steps[0]), steps[1..])
  }

  lemma {:induction false} StreamConcat(m: E.Mark, shown: E.Screen, a: seq<E.EmitterStep>, b: seq<E.EmitterStep>)
    ensures E.Stream(m, a + b) == E.Stream(m, a) + E.Stream(MarkAfter(m, a), b)
    ensures MarkAfter(m, a + b) == MarkAfter(MarkAfter(m, a), b)
    ensures E.Orderly(m, shown, a + b)
       <==> E.Orderly(m, shown, a) && E.Orderly(MarkAfter(m, a), E.Newest(shown, a), b)
    decreases |a|
  {
    if a == [] {
      assert a + b == b && [] + E.Stream(m, b) == E.Stream(m, b);
    } else {
      StreamConcat(E.After(m, a[0]), E.Latest(shown, a[0]), a[1..], b);
      assert (a + b)[0] == a[0] && (a + b)[1..] == a[1..] + b;
    }
  }

  /** What a consumer should see of a session. */
  function Screen(s: Session): E.Screen {
    E.Display(s.engine.data)
  }

  /** The engine is ready, the emitter's mark is the session's, and it knows what is on show. */
  predicate Follows(s: Session, m: E.Mark) {
    !s.engine.data.state.Initializing? && m.emitted == s.emitted && E.InStep(m, Screen(s))
  }

  /** One use case: the stream stays orderly, and the consumer shows the session again. */
  predicate KeepsUp(s: Session, m: E.Mark, next: Session, steps: seq<E.EmitterStep>) {
    && E.Orderly(m, Screen(s), steps) && E.Newest(Screen(s), steps) == Screen(next)
    && Follows(next, MarkAfter(m, steps)) && E.Shown(Screen(s), E.Stream(m, steps)) == Screen(next)
  }

  lemma NothingEmitted(s: Session, m: E.Mark, next: Session)
    requires Follows(s, m) && next.emitted == s.emitted && Screen(next) == Screen(s)
    ensures KeepsUp(s, m, next, [])
  {
  }

  lemma OneStep(m: E.Mark, shown: E.Screen, step: E.EmitterStep)
    ensures E.Orderly(m, shown, [step])
       <==> (step.Rearm? ==> !m.hasApproval) && (step.Snapshot? ==> E.Steady(m, shown, step.data))
    ensures MarkAfter(m, [step]) == E.After(m, step) && E.Newest(shown, [step]) == E.Latest(shown, step)
    ensures E.Stream(m, [step]) == if step.Snapshot? then E.Notes(m, step.data) else []
  {
    assert [step][1..] == [] && E.Stream(E.After(m, step), []) == [];
    assert E.Orderly(E.After(m, step), E.Latest(shown, step), []);
    assert MarkAfter(E.After(m, step), []) == E.After(m, step);
    assert E.Newest(E.Latest(shown, step), []) == E.Latest(shown, step);
  }

  /** A call that stays pending keeps its description. */
  predicate PendingStays(s: Session, next: Session) {
    next.engine.data.pendingTool.Some? && next.engine.data.pendingTool == s.engine.data.pendingTool ==>
      Screen(next).asked == Screen(s).asked
  }

  lemma SnapshotEmitted(s: Session, m: E.Mark, next: Session)
    requires Follows(s, m) && next.emitted == |Conversation(next)|
    requires PendingStays(s, next) && !next.engine.data.state.Initializing?
    ensures KeepsUp(s, m, next, [E.Snapshot(next.engine.data)])
  {
    OneStep(m, Screen(s), E.Snapshot(next.engine.data));
    E.SnapshotIsShown(m, next.engine.data, Screen(s));
  }

  /** A step that shows nothing: fine while nothing is on show, or if it only forgets the last call. */
  lemma SilentStep(s: Session, m: E.Mark, next: Session, step: E.EmitterStep)
    requires Follows(s, m) && !step.Snapshot? && Screen(next) == Screen(s)
    requires if step.Decide? then next.emitted == s.emitted
             else step.emitted == next.emitted && Screen(next).asked.None?
    ensures KeepsUp(s, m, next, [step])
  {
    OneStep(m, Screen(s), step);
  }

  lemma ResetEmitted(s: Session, m: E.Mark, next: Session)
    requires Follows(s, m) && next.emitted == |Conversation(next)| && next.engine.data.pendingTool.None?
    requires !next.engine.data.state.Initializing?
    ensures KeepsUp(s, m, next, [E.Snapshot(next.engine.data)] + [E.Rearm(next.emitted)])
  {
    var snapshot := [E.Snapshot(next.engine.data)];
    SnapshotEmitted(s, m, next);
    OneStep(MarkAfter(m, snapshot), Screen(next), E.Rearm(next.emitted));
    OneStep(m, Screen(s), E.Snapshot(next.engine.data));
    StreamConcat(m, Screen(s), snapshot, [E.Rearm(next.emitted)]);
    E.ShownConcat(Screen(s), E.Stream(m, snapshot), []);
    NewestConcat(Screen(s), snapshot, [E.Rearm(next.emitted)]);
  }

  lemma {:induction false} NewestConcat(shown: E.Screen, a: seq<E.EmitterStep>, b: seq<E.EmitterStep>)
    ensures E.Newest(shown, a + b) == E.Newest(E.Newest(shown, a), b)
    decreases |a|
  {
    if a == [] {
      assert a + b == b;
    } else {
      NewestConcat(E.Latest(shown, a[0]), a[1..], b);
      assert (a + b)[0] == a[0] && (a + b)[1..] == a[1..] + b;
    }
  }

  // ----- What a step of the engine does to what is on show -----

  /** An action that completes leaves no call pending that was, unless it changes nothing at all. */
  lemma {:induction false} CompletionSettlesPending(e: Engine, env: Env)
    requires EngineInv(e) && e.loop.Executing? && e.data.pendingTool.Some?
    ensures CompleteAction(e, env).data == e.data || CompleteAction(e, env).data.pendingTool.None?
  {
    if !IsCurrent(e, e.loop.queued.run) {
      StaleCompletionChangesNothing(e, env);
    } else if Failure(e.data, env.ports).Some? {
      FailedPortEndsRun(e, env);
    } else {
      DecisionIsFollowed(e, env, env.ports.approval.value.value);
    }
  }

  lemma {:induction false} CompletionStaysReady(e: Engine, env: Env)
    requires EngineInv(e) && e.loop.Executing?
    ensures !CompleteAction(e, env).data.state.Initializing?
  {
    StepKeepsEngineInv(e, Complete(env));
    if CompleteAction(e, env).loop.Off? {
      OffBehindFailure(e, env);
    }
  }

  lemma {:induction false} OffBehindFailure(e: Engine, env: Env)
    requires EngineInv(e) && e.loop.Executing? && CompleteAction(e, env).loop.Off?
    ensures CompleteAction(e, env).data.state.Idle?
  {
    match Execute(env.ports, e.loop.queued.action) {
      case Finished(result) =>
        if IsCurrent(e, e.loop.queued.run) {
          match Resolve(result, e.data.batch, env.specs, env.policy) {
            case Err(message) => FailKeeps(e, Outcome.Failed(message));
            case Ok(event) =>
              CompletionCommits(e, env, event);
              if RememberError(env.policy, event).Some? {
                FailKeeps(Committed(e, event), Outcome.Failed(RememberError(env.policy, event).value));
              }
          }
        }
      case WasCancelled => FailKeeps(e, WasCancelled);
      case Failed(message) => FailKeeps(e, Outcome.Failed(message));
    }
  }

  /** Without a turn the engine waits for nobody. */
  lemma NobodyWaits(s: Session)
    requires BaseInv(s) && !s.holder.Turn?
    ensures s.engine.data.pendingTool.None?
  {
  }

  lemma ActKeepsUp(s: Session, m: E.Mark, a: UseCase)
    requires BaseInv(s) && Follows(s, m) && Allows(s, a)
    ensures KeepsUp(s, m, Act(s, a), EmitterSteps(s, a))
  {
    var next := Act(s, a);
    ActKeepsBase(s, a);
    match a {
      case BeginTurn(text, attachments) =>
        NobodyWaits(s);
        StartEffects(s.engine, text, attachments);
        SnapshotEmitted(s, m, next);
      case EndTurn => SnapshotEmitted(s, m, next);
      case Loop(step) => LoopKeepsUp(s, m, step);
      case Audit(record) =>
        if record.kind.ApprovalDecided? {
          SilentStep(s, m, next, E.Decide);
        } else {
          NothingEmitted(s, m, next);
        }
      case CancelRun =>
        CancelEffects(s.engine);
        if s.holder.Turn? {
          SnapshotEmitted(s, m, next);
        } else {
          IdleKeepsUp(s, m, a);
        }
      case ResetConversation =>
        RewriteEffects(s.engine, []);
        if s.holder.Turn? {
          ResetEmitted(s, m, next);
        } else {
          IdleKeepsUp(s, m, a);
        }
      case _ => IdleKeepsUp(s, m, a);
    }
  }

  lemma LoopKeepsUp(s: Session, m: E.Mark, step: Label)
    requires BaseInv(s) && Follows(s, m) && Allows(s, Loop(step)) && BaseInv(Act(s, Loop(step)))
    ensures KeepsUp(s, m, Act(s, Loop(step)), EmitterSteps(s, Loop(step)))
  {
    match step {
      case Complete(env) =>
        CompletionStaysReady(s.engine, env);
        if s.engine.data.pendingTool.Some? {
          CompletionSettlesPending(s.engine, env);
        }
        SnapshotEmitted(s, m, Act(s, Loop(step)));
      case Chunk(run, chunk) =>
        ChunkEffects(s.engine, run, chunk);
        NothingEmitted(s, m, Act(s, Loop(step)));
      case Pop => NothingEmitted(s, m, Act(s, Loop(step)));
    }
  }

  /** The use cases outside a turn leave an idle engine idle. */
  lemma IdleKeepsUp(s: Session, m: E.Mark, a: UseCase)
    requires BaseInv(s) && Follows(s, m) && Allows(s, a) && BaseInv(Act(s, a)) && !s.holder.Turn?
    requires !a.BeginTurn? && !a.Loop?
    ensures KeepsUp(s, m, Act(s, a), EmitterSteps(s, a))
  {
    var next := Act(s, a);
    NobodyWaits(s);
    NobodyWaits(next);
    StaysIdle(s, a);
    if EmitterSteps(s, a) == [] {
      if a.CancelRun? {
        CancelGrows(s.engine);
      }
      NothingEmitted(s, m, next);
    } else {
      SilentStep(s, m, next, EmitterSteps(s, a)[0]);
    }
  }

  lemma StaysIdle(s: Session, a: UseCase)
    requires BaseInv(s) && Allows(s, a) && !s.holder.Turn? && !a.BeginTurn? && !a.Loop?
    requires !s.engine.data.state.Initializing?
    ensures s.engine.data.state.Idle? && Act(s, a).engine.data.state.Idle?
  {
    CancelEffects(s.engine);
    RewriteEffects(s.engine, []);
  }

  /**
   Over every history from creation the stream is orderly, and a consumer of it shows exactly the state
   of the engine, the call it waits for and the description of that call: nothing is asked without a turn.
   */
  lemma {:induction false} ConsumerShowsSession(s: Session, m: E.Mark, uses: seq<UseCase>)
    requires BaseInv(s) && Follows(s, m) && AllAllowed(s, uses)
    ensures E.Orderly(m, Screen(s), AllEmitterSteps(s, uses))
    ensures var last := ActAll(s, uses);
            && Follows(last, MarkAfter(m, AllEmitterSteps(s, uses)))
            && E.Shown(Screen(s), E.Stream(m, AllEmitterSteps(s, uses))) == Screen(last)
            && (!last.holder.Turn? ==> Screen(last).asked.None?)
    decreases |uses|
  {
    if uses == [] {
      if !s.holder.Turn? {
        NobodyWaits(s);
      }
    } else {
      var next, steps := Act(s, uses[0]), EmitterSteps(s, uses[0]);
      ActKeepsBase(s, uses[0]);
      ActKeepsUp(s, m, uses[0]);
      ConsumerShowsSession(next, MarkAfter(m, steps), uses[1..]);
      StreamGoesOn(s, m, next, steps, AllEmitterSteps(next, uses[1..]));
    }
  }

  lemma StreamGoesOn(s: Session, m: E.Mark, next: Session, steps: seq<E.EmitterStep>, rest: seq<E.EmitterStep>)
    requires KeepsUp(s, m, next, steps) && E.Orderly(MarkAfter(m, steps), Screen(next), rest)
    ensures E.Orderly(m, Screen(s), steps + rest)
    ensures MarkAfter(m, steps + rest) == MarkAfter(MarkAfter(m, steps), rest)
    ensures E.Shown(Screen(s), E.Stream(m, steps + rest))
         == E.Shown(Screen(next), E.Stream(MarkAfter(m, steps), rest))
  {
    StreamConcat(m, Screen(s), steps, rest);
    E.ShownConcat(Screen(s), E.Stream(m, steps), E.Stream(MarkAfter(m, steps), rest));
  }

  /** A session that has just been created, beside a consumer that shows an idle engine. */
  lemma CreatedFollows(initial: seq<Message>, id: SessionId, logs: map<SessionId, seq<Record>>, memory: seq<string>)
    ensures var s := Created(initial, id, logs, memory);
            BaseInv(s) && Screen(s) == E.Screen(Idle, None) && Follows(s, E.Mark(|initial|, false, None))
  {
    CreatedSessionAgrees(initial, id, logs, memory);
  }

  // ----- Every message once -----

  /** What a turn consists of, and a cancel. */
  predicate OfTurns(a: UseCase) {
    a.BeginTurn? || a.Loop? || a.Audit? || a.EndTurn? || a.CancelRun?
  }

  lemma SnapshotPublishesNew(s: Session, m: E.Mark, next: Session)
    requires m.emitted == |Conversation(s)| && Conversation(s) <= Conversation(next)
    ensures Conversation(s) + E.Published(E.Stream(m, [E.Snapshot(next.engine.data)])) == Conversation(next)
  {
    OneStep(m, E.Display(next.engine.data), E.Snapshot(next.engine.data));
    E.SnapshotPublishes(m, next.engine.data);
  }

  lemma NothingPublished(m: E.Mark, step: E.EmitterStep)
    requires !step.Snapshot?
    ensures E.Published(E.Stream(m, [step])) == E.Published(E.Stream(m, [])) == []
  {
    OneStep(m, E.Screen(Idle, None), step);
  }

  lemma ActPublishes(s: Session, m: E.Mark, a: UseCase)
    requires BaseInv(s) && Follows(s, m) && Allows(s, a) && OfTurns(a)
    ensures Conversation(s) + E.Published(E.Stream(m, EmitterSteps(s, a))) == Conversation(Act(s, a))
  {
    var next := Act(s, a);
    match a {
      case BeginTurn(text, attachments) =>
        StartGrows(s.engine, text, attachments);
        SnapshotPublishesNew(s, m, next);
      case Loop(step) =>
        match step {
          case Complete(env) =>
            CompleteGrows(s.engine, env);
            SnapshotPublishesNew(s, m, next);
          case Chunk(run, chunk) => ChunkEffects(s.engine, run, chunk);
          case Pop =>
        }
      case Audit(record) =>
        if record.kind.ApprovalDecided? {
          NothingPublished(m, E.Decide);
        }
      case EndTurn => SnapshotPublishesNew(s, m, next);
      case CancelRun =>
        CancelGrows(s.engine);
        if s.holder.Turn? {
          SnapshotPublishesNew(s, m, next);
        }
    }
  }

  lemma PublishedJoins(m: E.Mark, steps: seq<E.EmitterStep>, rest: seq<E.EmitterStep>, before: seq<Message>,
                       middle: seq<Message>, after: seq<Message>)
    requires before + E.Published(E.Stream(m, steps)) == middle
    requires middle + E.Published(E.Stream(MarkAfter(m, steps), rest)) == after
    ensures before + E.Published(E.Stream(m, steps + rest)) == after
  {
    StreamConcat(m, E.Screen(Idle, None), steps, rest);
    E.PublishedConcat(E.Stream(m, steps), E.Stream(MarkAfter(m, steps), rest));
  }

  /**
   Over every sequence of turns and cancels, every message that joins the conversation is published
   once, in order, and nothing else is.
   */
  lemma {:induction false} EveryMessageIsPublishedOnce(s: Session, m: E.Mark, uses: seq<UseCase>)
    requires BaseInv(s) && Follows(s, m) && AllAllowed(s, uses) && forall a :: a in uses ==> OfTurns(a)
    ensures Conversation(s) + E.Published(E.Stream(m, AllEmitterSteps(s, uses))) == Conversation(ActAll(s, uses))
    decreases |uses|
  {
    if uses != [] {
      var next, steps := Act(s, uses[0]), EmitterSteps(s, uses[0]);
      var rest := AllEmitterSteps(next, uses[1..]);
      assert uses[0] in uses;
      ActKeepsBase(s, uses[0]);
      ActKeepsUp(s, m, uses[0]);
      ActPublishes(s, m, uses[0]);
      EveryMessageIsPublishedOnce(next, MarkAfter(m, steps), uses[1..]);
      PublishedJoins(m, steps, rest, Conversation(s), Conversation(next), Conversation(ActAll(next, uses[1..])));
    }
  }
}
