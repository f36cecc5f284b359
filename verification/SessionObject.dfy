/**
 The session as an object: engine, emitter and repository, the active identifier and the turn flag.
 Every atomic section is proved to do exactly what the matching use case of `SessionSteps` says and
 to keep the session valid, so any allowed sequence of them can be driven.
 */
module SessionObject {
  import opened Outcomes
  import opened Protocol
  import Machine
  import opened SessionLog
  import opened History
  import opened SessionRepository
  import opened SnapshotEmitter
  import EngineObject
  import EngineInvariant
  import Steps = EngineSteps
  import S = SessionSteps
  import SessionInvariant

  class Session {
    const engine: EngineObject.Engine
    const repository: Repository
    var emitter: Emitter
    var meta: string
    var holder: S.Holder

    /** What every history of use cases keeps, and the run controller in step. */
    ghost predicate Valid()
      reads this, engine, engine.data, engine.data.messages, engine.data.batch, engine.queue, engine.runs,
            emitter, repository
    {
      engine.Valid() && SessionInvariant.BaseInv(View())
    }

    ghost function View(): S.Session
      reads this, engine, engine.data, engine.data.messages, engine.data.batch, engine.queue, engine.runs,
            emitter, repository
    {
      S.Session(engine.View(), repository.logs, meta, emitter.emittedMessages, holder, repository.memory)
    }

    /** `new_persistent_session` over a stored conversation that the engine already holds. */
    constructor (engine: EngineObject.Engine, repository: Repository, meta: string)
      requires engine.Valid() && EngineInvariant.EngineInv(engine.View()) && engine.loop.Off?
      requires meta in repository.logs
      requires NonSystem(Replay(repository.logs[meta])) == NonSystem(engine.data.View().messages)
      ensures this.engine == engine && this.repository == repository && this.meta == meta && holder == S.Free
      ensures fresh(emitter) && emitter.emittedMessages == |engine.data.View().messages|
      ensures Valid()
    {
      this.engine, this.repository, this.meta, holder := engine, repository, meta, S.Free;
      emitter := new Emitter(0);
      new;
      emitter.Reset(|engine.data.messages.items|);
    }

    // ----- Sections of the use cases -----

    method EmitSnapshot() returns (notes: seq<Notification>)
      requires meta in repository.logs
      modifies emitter, repository`logs
      ensures View() == S.Emit(old(View()))
      ensures notes == Notes(old(emitter.Value()), engine.data.View())
    {
      var d := engine.Snapshot();
      notes := emitter.Emit(d, repository, meta);
    }

    method CancelEngine()
      requires engine.Valid() && Machine.Valid(engine.data.View())
      modifies engine`data, engine.queue, engine.runs
      ensures engine.Valid() && (engine.data == old(engine.data) || fresh(engine.data))
      ensures View() == old(View()).(engine := Steps.Step(old(engine.View()), Steps.Cancel))
    {
      var error := engine.Cancel();
    }

    method ResetEngine()
      requires engine.Valid() && Machine.Valid(engine.data.View())
      modifies engine`data, engine.queue, engine.runs
      ensures engine.Valid() && (engine.data == old(engine.data) || fresh(engine.data))
      ensures View() == old(View()).(engine := Steps.Step(old(engine.View()), Steps.Reset))
    {
      var error := engine.Reset();
    }

    method SwapEngine(messages: seq<Message>)
      requires engine.Valid()
      modifies engine.data, engine.queue, engine.runs
      ensures engine.Valid()
      ensures View() == old(View()).(engine := Steps.ReplaceMessages(old(engine.View()), messages))
    {
      engine.ReplaceMessages(messages);
    }

    method Mark(emitted: nat)
      modifies emitter`emittedMessages
      ensures View() == old(View()).(emitted := emitted)
    {
      emitter.emittedMessages := emitted;
    }

    method ResetEmitter(emitted: nat)
      modifies emitter
      ensures View() == old(View()).(emitted := emitted)
    {
      emitter.Reset(emitted);
    }

    /** `_rearmEmitter`: a new emitter object. */
    method RearmEmitter(emitted: nat)
      modifies this`emitter
      ensures fresh(emitter) && View() == old(View()).(emitted := emitted)
    {
      emitter := new Emitter(emitted);
    }

    method Record(record: Record)
      requires meta in repository.logs
      modifies repository`logs
      ensures View() == S.Append(old(View()), [record])
    {
      repository.Append(meta, record);
    }

    method StoreCancel()
      requires meta in repository.logs
      modifies repository`logs
      ensures View() == S.Append(old(View()), [Bare(Kind.Cancelled)])
    {
      repository.SaveCancel(meta);
    }

    method StoreReset()
      requires meta in repository.logs
      modifies repository`logs
      ensures View() == S.Append(old(View()), [Bare(WasReset)])
    {
      repository.SaveReset(meta);
    }

    method StoreReplacement(messages: seq<Message>)
      requires meta in repository.logs
      modifies repository`logs
      ensures View() == S.Append(old(View()), [S.ReplacedBy(messages)])
    {
      repository.SaveConversationReplacement(meta, messages);
    }

    method StoreCompaction(summary: string, original: seq<Message>, kept: seq<Message>)
      requires meta in repository.logs
      modifies repository`logs
      ensures View() == S.Append(old(View()), [Bare(Kind.Compacted).(compact := Some(Compact(summary, original, kept)))])
    {
      repository.SaveCompaction(meta, summary, original, kept);
    }

    /** Another session becomes the active one. */
    method Activate(id: string, messages: seq<Message>)
      requires engine.Valid()
      modifies this`meta, this`emitter, engine.data, engine.queue, engine.runs
      ensures engine.Valid() && fresh(emitter)
      ensures View() == old(View()).(engine := Steps.ReplaceMessages(old(engine.View()), messages), active := id,
                                     emitted := |messages|)
    {
      SwapEngine(messages);
      meta := id;
      RearmEmitter(|messages|);
    }

    // ----- The use cases -----

    /** Takes the turn flag, starts the run and shows the user's message. */
    method BeginTurn(text: string, attachments: seq<Attachment>) returns (ok: bool)
      requires Valid()
      modifies this`holder, emitter, repository`logs, engine, engine.queue, engine.runs
      ensures Valid() && (engine.data == old(engine.data) || fresh(engine.data))
      ensures ok == old(holder).Free?
      ensures View() == if ok then S.Act(old(View()), S.BeginTurn(text, attachments)) else old(View())
    {
      if !holder.Free? {
        return false;
      }
      SessionInvariant.ActKeepsBase(View(), S.BeginTurn(text, attachments));
      holder := S.Turn;
      var error := engine.StartTurn(text, attachments);
      var notes := EmitSnapshot();
      ok := true;
    }

    method PopAction()
      requires Valid() && holder.Turn? && engine.loop.Draining?
      modifies engine`loop, engine.queue, engine.runs
      ensures Valid() && View() == S.Act(old(View()), S.Loop(Steps.Pop))
    {
      SessionInvariant.ActKeepsBase(View(), S.Loop(Steps.Pop));
      engine.PopAction();
    }

    /** One executed action, and the observer's emission behind it. */
    method CompleteAction(env: Steps.Env)
      requires Valid() && holder.Turn? && engine.loop.Executing?
      modifies emitter, repository`logs, engine, engine.queue, engine.runs
      ensures Valid() && (engine.data == old(engine.data) || fresh(engine.data))
      ensures View() == S.Act(old(View()), S.Loop(Steps.Complete(env)))
    {
      SessionInvariant.ActKeepsBase(View(), S.Loop(Steps.Complete(env)));
      engine.CompleteAction(env);
      var notes := EmitSnapshot();
    }

    method RecordStreamChunk(run: nat, chunk: StreamChunk)
      requires Valid()
      modifies engine`data, engine.queue
      ensures Valid() && (engine.data == old(engine.data) || fresh(engine.data))
      ensures View() == S.Act(old(View()), S.Loop(Steps.Chunk(run, chunk)))
    {
      SessionInvariant.ActKeepsBase(View(), S.Loop(Steps.Chunk(run, chunk)));
      engine.RecordStreamChunk(run, chunk);
    }

    /** Approvals, errors and checkpoints are recorded beside the messages. */
    method Audit(record: SessionLog.Record)
      requires Valid() && holder.Turn? && S.IsAudit(record)
      modifies repository`logs
      ensures Valid() && View() == S.Act(old(View()), S.Audit(record))
    {
      SessionInvariant.ActKeepsBase(View(), S.Audit(record));
      Record(record);
    }

    method EndTurn()
      requires Valid() && holder.Turn? && engine.loop.Off?
      modifies this`holder, emitter, repository`logs
      ensures Valid() && View() == S.Act(old(View()), S.EndTurn)
    {
      SessionInvariant.ActKeepsBase(View(), S.EndTurn);
      var notes := EmitSnapshot();
      holder := S.Free;
    }

    /** Stays available while a turn runs; the observer of that turn then emits. */
    method Cancel()
      requires Valid()
      modifies emitter, repository`logs, engine`data, engine.queue, engine.runs
      ensures Valid() && (engine.data == old(engine.data) || fresh(engine.data))
      ensures View() == S.Act(old(View()), S.CancelRun)
    {
      SessionInvariant.ActKeepsBase(View(), S.CancelRun);
      CancelEngine();
      if holder.Turn? {
        var notes := EmitSnapshot();
      }
      StoreCancel();
    }

    /** Stored before the engine forgets; the observer of a running turn emits in between. */
    method Reset()
      requires Valid()
      modifies emitter, repository`logs, engine`data, engine.queue, engine.runs
      ensures Valid() && (engine.data == old(engine.data) || fresh(engine.data))
      ensures View() == S.Act(old(View()), S.ResetConversation)
    {
      SessionInvariant.ActKeepsBase(View(), S.ResetConversation);
      StoreReset();
      ResetEngine();
      if holder.Turn? {
        var notes := EmitSnapshot();
      }
      ResetEmitter(|engine.data.messages.items|);
    }

    method ReplaceConversation(messages: seq<Message>) returns (ok: bool)
      requires Valid()
      modifies emitter, repository`logs, engine.data, engine.queue, engine.runs
      ensures Valid() && ok == old(holder).Free?
      ensures View() == if ok then S.Act(old(View()), S.ReplaceConversation(messages)) else old(View())
    {
      if !holder.Free? {
        return false;
      }
      SessionInvariant.ActKeepsBase(View(), S.ReplaceConversation(messages));
      StoreReplacement(messages);
      SwapEngine(messages);
      ResetEmitter(|messages|);
      ok := true;
    }

    /** Up to the point where the model may be asked for the summary. */
    method BeginCompact(keepNewest: int) returns (ok: bool)
      requires Valid()
      modifies this`holder
      ensures Valid() && ok == old(holder).Free?
      ensures View() == if ok then S.Act(old(View()), S.BeginCompact(keepNewest)) else old(View())
    {
      if !holder.Free? {
        return false;
      }
      var d := engine.Snapshot();
      ok := true;
      if d.messages == [] {
        return;
      }
      var keep := if keepNewest < 1 then 4 else keepNewest;
      if |NonSystem(d.messages)| <= keep {
        return;
      }
      holder := S.Compacting(d.messages, keep);
    }

    /** With the summary at hand: stored first, then swapped in. */
    method FinishCompact(summary: string)
      requires Valid() && holder.Compacting?
      modifies this`holder, emitter, repository`logs, engine.data, engine.queue, engine.runs
      ensures Valid() && View() == S.Act(old(View()), S.FinishCompact(summary))
    {
      SessionInvariant.ActKeepsBase(View(), S.FinishCompact(summary));
      var current := holder.current;
      var kept := CompactedMessages(current, summary, holder.keepNewest);
      StoreCompaction(summary, current, kept);
      SwapEngine(kept);
      Mark(|kept|);
      holder := S.Free;
    }

    /** The summary could not be had. */
    method AbortCompact()
      requires Valid() && holder.Compacting?
      modifies this`holder
      ensures Valid() && View() == S.Act(old(View()), S.AbortCompact)
    {
      holder := S.Free;
    }

    /**
     `restores` says whether the workspace can restore the files of the checkpoint. It does so in
     front of the truncation, so a failure loses no history.
     */
    method Undo(restores: bool) returns (ok: bool)
      requires Valid()
      modifies emitter, repository`logs, engine.data, engine.queue, engine.runs
      ensures Valid()
      ensures ok == (old(holder).Free? && UndoPointOf(old(repository.logs)[old(meta)]).Some? && restores)
      ensures View() == if ok then S.Act(old(View()), S.Undo) else old(View())
    {
      if !holder.Free? {
        return false;
      }
      SessionInvariant.ActKeepsBase(View(), S.Undo);
      var found := repository.LoadUndoPoint(meta);
      if found.None? || !restores {
        return false;
      }
      var (checkpoint, messages, index) := found.value;
      repository.TruncateLog(meta, index);
      SwapEngine(messages);
      Mark(|messages|);
      ok := true;
    }

    /** `id` is the identifier the store makes up, so it is new. */
    method Fork(id: string) returns (ok: bool)
      requires Valid() && id !in repository.logs
      modifies this`meta, this`emitter, repository`logs, engine.data, engine.queue, engine.runs
      ensures Valid() && (emitter == old(emitter) || fresh(emitter)) && ok == old(holder).Free?
      ensures View() == if ok then S.Act(old(View()), S.Fork(id)) else old(View())
    {
      if !holder.Free? {
        return false;
      }
      SessionInvariant.ActKeepsBase(View(), S.Fork(id));
      var d := engine.Snapshot();
      repository.Create(id, d.messages);
      Activate(id, d.messages);
      ok := true;
    }

    /**
     `validates` and `activates` say what the workspace answers. An unknown session and a refusal in
     front change nothing; a refusal at activation comes behind the write, and nothing is swapped.
     */
    method Resume(id: string, validates: bool, activates: bool) returns (ok: bool)
      requires Valid()
      modifies this`meta, this`emitter, repository`logs, engine.data, engine.queue, engine.runs
      ensures Valid() && (emitter == old(emitter) || fresh(emitter))
      ensures ok == (old(holder).Free? && id in old(repository.logs) && validates && activates)
      ensures View() == if ok then S.Act(old(View()), S.Resume(id))
                        else if old(holder).Free? && id in old(repository.logs) && validates
                        then S.Act(old(View()), S.FailedResume(id))
                        else old(View())
    {
      if !holder.Free? || id !in repository.logs || !validates {
        return false;
      }
      SessionInvariant.ActKeepsBase(View(), S.Resume(id));
      SessionInvariant.ActKeepsBase(View(), S.FailedResume(id));
      var messages := repository.Load(id);
      messages := WithMemoryContext(messages, repository.memory);
      repository.SaveConversationReplacement(id, messages);
      if !activates {
        return false;
      }
      Activate(id, messages);
      ok := true;
    }

    method ReplaceMemoryContext(items: seq<string>)
      requires engine.Valid() && meta in repository.logs && repository.memory == items
      modifies emitter, repository`logs, engine.data, engine.queue, engine.runs
      ensures engine.Valid() && View() == S.ReplaceMemory(old(View()), items)
    {
      var d := engine.Snapshot();
      var kept := WithMemoryContext(d.messages, items);
      StoreReplacement(kept);
      SwapEngine(kept);
      ResetEmitter(|kept|);
    }

    /** An empty line is refused, whoever holds the flag. */
    method Remember(text: string, strip: string -> string) returns (ok: bool)
      requires Valid()
      modifies emitter, repository, engine.data, engine.queue, engine.runs
      ensures Valid() && ok == (strip(text) != "" && old(holder).Free?)
      ensures View() == if ok then S.Act(old(View()), S.Remember(strip(text))) else old(View())
    {
      var value := strip(text);
      if value == "" || !holder.Free? {
        return false;
      }
      SessionInvariant.ActKeepsBase(View(), S.Remember(value));
      ok := true;
      if value in repository.memory {
        return;
      }
      repository.SaveMemory(repository.memory + [value]);
      ReplaceMemoryContext(repository.memory);
    }

    method ForgetMemories() returns (ok: bool)
      requires Valid()
      modifies emitter, repository, engine.data, engine.queue, engine.runs
      ensures Valid() && ok == old(holder).Free?
      ensures View() == if ok then S.Act(old(View()), S.ForgetMemories) else old(View())
    {
      if !holder.Free? {
        return false;
      }
      SessionInvariant.ActKeepsBase(View(), S.ForgetMemories);
      repository.SaveMemory([]);
      ReplaceMemoryContext([]);
      ok := true;
    }

    // ----- Any history of use cases -----

    /** The parts of the loop that a turn drives. */
    method PerformLoop(step: Steps.Label)
      requires Valid() && S.Allows(View(), S.Loop(step))
      modifies emitter, repository`logs, engine, engine.queue, engine.runs
      ensures Valid() && (engine.data == old(engine.data) || fresh(engine.data))
      ensures View() == S.Act(old(View()), S.Loop(step))
    {
      match step {
        case Pop => PopAction();
        case Complete(env) => CompleteAction(env);
        case Chunk(run, chunk) => RecordStreamChunk(run, chunk);
      }
    }

    method Perform(a: S.UseCase)
      requires Valid() && S.Allows(View(), a)
      modifies this, emitter, repository, engine, engine.data, engine.queue, engine.runs
      ensures Valid() && View() == S.Act(old(View()), a)
      ensures (emitter == old(emitter) || fresh(emitter)) && (engine.data == old(engine.data) || fresh(engine.data))
    {
      var ok;
      match a {
        case BeginTurn(text, attachments) => ok := BeginTurn(text, attachments);
        case Loop(step) => PerformLoop(step);
        case Audit(record) => Audit(record);
        case EndTurn => EndTurn();
        case CancelRun => Cancel();
        case ResetConversation => Reset();
        case ReplaceConversation(messages) => ok := ReplaceConversation(messages);
        case BeginCompact(keepNewest) => ok := BeginCompact(keepNewest);
        case FinishCompact(summary) => FinishCompact(summary);
        case AbortCompact => AbortCompact();
        case Undo => ok := Undo(true);
        case Fork(id) => ok := Fork(id);
        case Resume(id) => ok := Resume(id, true, true);
        case FailedResume(id) => ok := Resume(id, true, false);
        case Remember(value) => ok := Remember(value, (s: string) => s);
        case ForgetMemories => ok := ForgetMemories();
      }
    }

    /** The object follows every allowed history, step by step, and stays valid. */
    method PerformAll(uses: seq<S.UseCase>)
      requires Valid() && S.AllAllowed(View(), uses)
      modifies this, emitter, repository, engine, engine.data, engine.queue, engine.runs
      ensures Valid() && View() == S.ActAll(old(View()), uses)
      ensures (emitter == old(emitter) || fresh(emitter)) && (engine.data == old(engine.data) || fresh(engine.data))
    {
      ghost var all := S.ActAll(View(), uses);
      assert uses[0..] == uses;
      for i := 0 to |uses|
        invariant Valid() && S.AllAllowed(View(), uses[i..]) && S.ActAll(View(), uses[i..]) == all
        invariant (emitter == old(emitter) || fresh(emitter)) && (engine.data == old(engine.data) || fresh(engine.data))
      {
        assert uses[i..][0] == uses[i] && uses[i..][1..] == uses[i + 1..];
        Perform(uses[i]);
      }
    }
  }
}
