/**
 What the engine keeps when it is handed transcripts with an open block, as undo does: apart from
 blocks that a user talked over, every call is still answered.
 */
module OrderlyRuns {
  import opened Outcomes
  import opened Protocol
  import opened Transcript
  import opened TalkedOver
  import opened Machine
  import opened MachineInvariant
  import opened Execution
  import opened EngineSteps
  import opened EngineInvariant

  /** The data with the messages since a block was last talked over. */
  function Trimmed(d: Data): Data {
    d.(messages := Latest(d.messages))
  }

  /** The invariant of the machine holds for those messages; only an idle engine may hold an open block. */
  predicate Tied(d: Data) {
    Consistent(Trimmed(d)) || (d.state.Idle? && Orderly(d.messages))
  }

  lemma ConsistentIsTied(d: Data)
    requires Consistent(d)
    ensures Tied(d) && !IsTalkedOver(d.messages)
  {
    UnbrokenIsUntouched(d.messages);
    LatestOfUntouched(d.messages);
  }

  lemma TiedIsOrderly(d: Data)
    requires Tied(d)
    ensures Orderly(d.messages)
    ensures d.state.WaitingLLM? ==> Closed(Scan(Latest(d.messages)))
  {
  }

  /** What an event appends does not depend on the messages in front of it. */
  predicate Appends(d: Data, e: Event) {
    Accepted(d, e) && !e.ResetRequested? && !e.UserMessageSubmitted?
  }

  function Appended(d: Data, e: Event): seq<Message>
    requires Appends(d, e)
  {
    After(d.(messages := []), e).messages
  }

  lemma {:induction false} NoUserInAnswers(cs: seq<Change>)
    requires forall c :: c in cs ==> c.AppendToolResult?
    ensures forall m :: m in AnswerMessages(cs) ==> !m.role.User?
  {
    if cs != [] {
      NoUserInAnswers(cs[..|cs| - 1]);
    }
  }

  lemma EndAppends(d: Data, running: string, notExecuted: string)
    requires Valid(d)
    ensures var more := EndMessages(d.(messages := []), running, notExecuted);
            && EndMessages(d, running, notExecuted) == d.messages + more
            && forall m :: m in more ==> !m.role.User?
  {
    var bare := d.(messages := []);
    OutstandingAnswersOwed(d, running, notExecuted);
    var answers := AnswerMessages(Outstanding(SnapshotFrom(d).value, running, notExecuted));
    NoUserInAnswers(Outstanding(SnapshotFrom(d).value, running, notExecuted));
    assert SnapshotFrom(bare) == SnapshotFrom(d);
    assert Flushed(d) == d.messages + Flushed(bare);
    assert EndMessages(d, running, notExecuted) == Flushed(d) + answers;
    assert d.messages + (Flushed(bare) + answers) == Flushed(d) + answers;
  }

  lemma StepAppends(d: Data, e: Event)
    requires Appends(d, e) && !Terminal(e)
    ensures After(d, e).messages == d.messages + Appended(d, e)
    ensures forall m :: m in Appended(d, e) ==> !m.role.User?
  {
  }

  lemma AfterAppends(d: Data, e: Event)
    requires Appends(d, e)
    ensures After(d, e).messages == d.messages + Appended(d, e)
    ensures forall m :: m in Appended(d, e) ==> !m.role.User?
  {
    match e {
      case ErrorOccurred(err) =>
        var reason := if err.Some? then err.value else "unknown runtime error";
        EndAppends(d, reason, "not executed: " + reason);
      case CancelRequested => EndAppends(d, "cancelled", "not executed: cancelled");
      case _ => StepAppends(d, e);
    }
  }

  /** Trimming and handling an event commute. */
  lemma AfterOfTrimmed(d: Data, e: Event)
    requires Appends(d, e)
    ensures Accepted(Trimmed(d), e) && After(Trimmed(d), e) == Trimmed(After(d, e))
    ensures IsTalkedOver(After(d, e).messages) <==> IsTalkedOver(d.messages)
  {
    AfterAppends(d, e);
    AfterAppends(Trimmed(d), e);
    assert Trimmed(d).(messages := []) == d.(messages := []);
    LatestConcat(d.messages, Appended(d, e));
    RestIsTheSame(d, Latest(d.messages), e);
  }

  /** Nothing but the messages depends on the messages. */
  lemma RestIsTheSame(d: Data, messages: seq<Message>, e: Event)
    requires Appends(d, e)
    ensures var other := d.(messages := messages);
            Accepted(other, e) && After(other, e) == After(d, e).(messages := After(other, e).messages)
  {
    assert SnapshotFrom(d.(messages := messages)) == SnapshotFrom(d);
  }

  lemma UserSpeaks(d: Data, text: string, attachments: seq<Attachment>)
    requires Valid(d) && d.state.Idle? && Tied(d)
    ensures Tied(After(d, UserMessageSubmitted(text, attachments)))
  {
    var m := UserMessage(text, attachments);
    LatestPush(d.messages, m);
    ScanAppend(Latest(d.messages), m);
    ScanAppend([], m);
    assert [] + [m] == [m];
  }

  lemma AfterIsTied(d: Data, e: Event)
    requires Valid(d) && Tied(d) && Accepted(d, e)
    ensures Tied(After(d, e))
  {
    if e.UserMessageSubmitted? {
      UserSpeaks(d, e.text, e.attachments);
    } else if e.ResetRequested? {
      ScanIgnoresSystem(NoBlock, d.messages);
      ConsistentIsTied(After(d, e));
    } else {
      AfterOfTrimmed(d, e);
      if Consistent(Trimmed(d)) {
        AfterIsConsistent(Trimmed(d), e);
      } else {
        IdleEndKeeps(d, e);
      }
    }
  }

  lemma IdleEndKeeps(d: Data, e: Event)
    requires Valid(d) && d.state.Idle? && Appends(d, e)
    ensures After(d, e) == d
  {
    match e {
      case ErrorOccurred(err) =>
        var reason := if err.Some? then err.value else "unknown runtime error";
        QuietEndChangesNothing(d, reason, "not executed: " + reason);
      case CancelRequested => QuietEndChangesNothing(d, "cancelled", "not executed: cancelled");
      case _ =>
    }
  }

  // ----- The engine -----

  lemma FailTied(e: Engine, outcome: Outcome)
    requires Failable(e) && Tied(e.data) && !outcome.Finished?
    ensures Tied(Fail(e, outcome).data)
  {
    if outcome.WasCancelled? {
      TerminalEventSettles(CancelRun(e), CancelRequested);
      AfterIsTied(e.data, CancelRequested);
    } else {
      var event := ErrorOccurred(Some(outcome.message));
      TerminalEventSettles(e, event);
      AfterIsTied(e.data, event);
    }
  }

  lemma CompleteTied(e: Engine, env: Env)
    requires EngineInv(e) && Tied(e.data) && e.loop.Executing?
    ensures Tied(CompleteAction(e, env).data)
  {
    match Execute(env.ports, e.loop.queued.action) {
      case Finished(result) =>
        if IsCurrent(e, e.loop.queued.run) {
          match Resolve(result, e.data.batch, env.specs, env.policy) {
            case Err(message) => FailTied(e, Failed(message));
            case Ok(event) =>
              CompletionCommits(e, env, event);
              AfterIsTied(e.data, event);
              if RememberError(env.policy, event).Some? {
                FailTied(Committed(e, event), Failed(RememberError(env.policy, event).value));
              }
          }
        }
      case WasCancelled => FailTied(e, WasCancelled);
      case Failed(message) => FailTied(e, Failed(message));
    }
  }

  lemma DispatchTied(e: Engine, event: Event)
    requires Valid(e.data) && Tied(e.data)
    ensures Tied(Dispatch(e, event).data)
  {
    if Accepted(e.data, event) {
      AcceptedIsHandled(e.data, event);
      AfterIsTied(e.data, event);
      PlanMatchesState(e.data, event);
      CommitPlanShape(e, After(e.data, event), PlanFor(e.data, event));
    }
  }

  lemma StartTied(e: Engine, text: string, attachments: seq<Attachment>)
    requires Valid(e.data) && Tied(e.data)
    ensures Tied(Start(e, text, attachments).data)
  {
    var event := UserMessageSubmitted(text, attachments);
    if Accepted(e.data, event) {
      AcceptedIsHandled(e.data, event);
      AfterIsTied(e.data, event);
      CommitPlanShape(e.(run := e.run + 1, active := true), After(e.data, event), PlanFor(e.data, event));
    }
  }

  lemma {:induction false} StepKeepsTied(e: Engine, l: Label)
    requires EngineInv(e) && Tied(e.data) && Enabled(e, l)
    requires l.Replace? ==> Orderly(l.messages)
    ensures Tied(Step(e, l).data)
  {
    match l {
      case Ready => DispatchTied(e, EngineReady);
      case StartTurn(text, attachments) => StartTied(e, text, attachments);
      case Complete(env) => CompleteTied(e, env);
      case Chunk(run, chunk) => StreamChunkCommit(e.data, chunk);
      case Cancel => DispatchTied(CancelRun(e), CancelRequested);
      case Reset => DispatchTied(CancelRun(CancelRun(e)), ResetRequested);
      case _ =>
    }
  }
}
