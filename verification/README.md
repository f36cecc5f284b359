# Verification of the agent runtime

A Dafny model of the agent runtime and of the parts that a conversation passes on its way to disk and to
the provider, with proofs of what the runtime promises about it. `dafny verify dfyconfig.toml` checks
everything.

The runtime is a state machine. Events go in; a pure transition answers with changes to the runtime data
and with a plan of actions; an applier makes the changes on a clone, validates it and swaps it in. The
engine drains the planned actions one by one: call the model, look at the next call of a batch, wait for an
approval, run a tool. A session wraps the engine, writes every message to an append-only log, and rewrites
history on request. The provider accepts a transcript only if every tool call in it is answered, in order,
directly behind the message that asked. Nothing in the source checks that rule over a whole run; the
project proves it.

The main results, hardest first:

- **Every tool call is answered.** In every state of every interleaving of turns, stream chunks, cancels,
  resets and replacements, the history is a sequence of complete blocks and at most one open block, which
  is the batch being worked on, answered up to its index (`EngineInvariant.EveryCallIsAnswered`).
- **Queue and state move in lockstep**, no event resolved for a current completion is refused by the
  machine, the "queue is empty" error is unreachable, and stale work changes nothing. The resolver itself
  refuses in exactly three cases, and each ends the turn with everything answered (`EngineInvariant`).
- **Log and memory agree** step by step over every session history, with the exact condition of the two use
  cases that can part them (`SessionInvariant`). Any session's file cut at any byte reads back to a
  conversation that the session has had, or to the beginning of one: exactly where the replay is kept, up to
  system messages over every history at all (`CrashRecovery`).
- **Every request alternates, and pairs exactly when it should.** Over every history of use cases beside any
  orderly store, and over any number of processes that die with their files cut anywhere, a request is fully
  paired if and only if no user message in it follows an unanswered call (`EndToEnd`, `Restarts`, over
  `ClaudePairing`, `SessionOrder`, `OrderlyRuns`). The first request of a turn is paired if and only if the
  conversation it begins on is complete. A history that undoes no checkpoint, and resumes and brings in complete
  transcripts only, sends paired requests only (`EndToEnd.EveryRequestIsPaired`).
- **Exact work**: an uninterrupted batch of n calls reaches the next model call after n + 1 to 3n + 1
  actions, both reached, and after at most 2n + 1 when the permission mode never asks (`WorkBound`,
  `UnattendedModes`).
- **A denied call runs** over any run if and only if the user granted it for good earlier in that run
  (`Approvals`).
- **A tool runs only with a licence**: over every run, each tool that runs was classified to run directly or
  approved by the user as exactly that call (`CompletionEffects.ToolRunsOnlyWithLicence`).
- **Every operation does what it promises, not just what keeps the rest in step**: what each event, port
  answer, session use case, provider request and MCP operation makes of the state is stated on the data alone,
  with the messages and texts written out (`EventEffects`, `CompletionEffects`, `SessionEffects`,
  `ClaudeContents`, `McpEffects`; also `PolicyEffects`, `MemoryText`, `FramingEffects`).
- **Torn logs heal**, Content-Length framing round trips and a cut stream delivers exactly the whole frames,
  the MCP transaction keeps registry, manager, settings and file in agreement, and a cut tool result is the
  longest valid UTF-8 prefix.

Objects that the source updates in place are classes here: the runtime data and its message list, the
queue, the run controller, the engine, the emitter, the repository, the session, the log file, the stream
reader and connection, the registry, the manager, the controller and the cancellation context. Each method
is proved against a function of its old state, and the properties are proved about those functions. The
engine object follows the step relation through its drain loop, and the session object follows any allowed
sequence of use cases (`SessionObject.Session.PerformAll`).

## Where the code does less than a reader expects

Each is stated with the exact condition under which the property does hold.

- A reset during a turn makes the observer save the kept system messages again; replay then doubles them.
  Replay agrees exactly when no system message is kept or nothing else was there
  (`SessionInvariant.MidTurnResetAgreesExactly`; `MidTurnResetDoubles` is the shortest failing run).
- Resume promises to leave the current session untouched when it cannot succeed, but it stores the new
  context before the workspace is activated. If the active session is resumed and activation fails, log and
  memory agree exactly when the memory message would not have changed
  (`SessionInvariant.FailedResumeAgreesExactly`). It would have in the session that a start beside a memory
  file builds: the start puts the memory message last, a resume puts it first
  (`SessionInvariant.FreshSessionCanPart`).
- Undo hands back the transcript of a checkpoint. One that is recorded while its tool runs hands back an open
  block (`SessionInvariant.UndoLeavesOpenBlock`); only if a hook in front of the tool suspends, and a cancel or
  reset comes in between, is it recorded in idle. The turn behind an undo sends a paired request if and only if
  the transcript handed back is complete (`EndToEnd.TurnBehindUndoPairsExactly`); otherwise every later request
  is unpaired too until the conversation is rewritten (`SessionOrder.TalkedOverUntilRewritten`).
- Nothing in a resume repairs a block that was open when a process died. The turn behind a resume sends a paired
  request if and only if the stored transcript is complete (`EndToEnd.TurnBehindResumePairsExactly`), that is,
  if the process did not die in a batch (`Restarts.TurnBehindCrashPairsExactly`). `Restarts.DyingInBatch` is a
  run that leaves such a log, and `Restarts.ResumedOpenBlockIsUnpaired` the unpaired request of the process that
  resumes it. `super_agent/runtime/machine/transition.py:368-371` names this failure as one that survives a
  resume; answering on error and cancel does not reach a process that dies.
- A reset or cancel while a compaction waits for its summary is lost: the compaction swaps in what it read
  at its start (`SessionInvariant.CompactionRestoresWhatWasReset`).
- A crash that loses only a line feed makes the next append run into the old line; reading then drops both
  records, or, if the two texts together pass the line cap, refuses the whole log
  (`LogFile.AppendAfterCrashIsReadExactly`).
- A record longer than 20 MiB can be appended but makes its log unreadable (`LogFile.ReadableIffFits`).
- An MCP removal that fails to persist keeps the agreement exactly when the manager is open and the
  compensating reconnect lists tools that the registry accepts (`McpServers.RemoveAgreesExactly`); the module
  comment of `super_agent/app/mcp.py` claims agreement always.
- The policy calls deny rules absolute, but the resolver asks the always-allow store first, and swapping the
  policy does not empty the store. A call that the current policy denies runs exactly when its key was
  granted for good earlier in the run (`Approvals.DeniedCallRunsExactlyIfGranted`; `DeniedCallCanRun` is a
  run in which plan mode denies a call and it runs).
- A tool call whose input does not encode, such as a lone surrogate in its JSON, has no approval key: the
  resolver raises and the turn ends as an error (`Approvals.KeylessCallEndsTurn`).

## Assumptions

- One turn loop at a time: the session's turn flag (`super_agent/runtime/session/session.py:86-94`). The
  engine alone does not enforce it.
- The engine lock is held across synchronous code only, and the executor call is the only point where the
  loop suspends. The steps of the model are finer than that.
- Observer and emitter calls do not suspend, and repository writes succeed.
- A new session gets an identifier that no stored session has.
- Transcripts handed in from outside are complete, or at least orderly, where a statement asks for it
  (`SessionInvariant.Trusted`, `SessionOrder.BringsOrder`). Stored logs are orderly where it asks for that
  (`SessionOrder.LogOrderly`); what the runtime itself has written is, by `Restarts`.
- Within one process a log is its records. A file that lost only its last line feed is outside of that once
  something is appended to it; at the next start it reads as a beginning of the log or not at all.
- Events from outside are ready, cancel, reset and replace; user messages start turns. Run identifiers are
  numbers, 0 standing for the empty one. An absent `tool_calls` and an empty one are the same value.

## Model

| member | source | states |
|---|---|---|
| Transcript.CompleteIffBlocks | super_agent/runtime/machine/transition.py:359-380 | a transcript has every call answered, by a running scan, if and only if it is a sequence of blocks in which an assistant message with calls is followed by exactly its answers, in call order with matching ids |
| Transcript.ScanGivesBlocks | super_agent/runtime/machine/transition.py:359-380 | a transcript whose scan has not broken is complete blocks and at most one open block answered as far as the scan says |
| Transcript.AnswersOwedClose | super_agent/runtime/machine/transition.py:359-380 | appending an answer for each outstanding call, in order, completes the transcript |
| Machine.OutstandingToolResults | super_agent/runtime/machine/transition.py:359-380 | the loop yields one result for the call in hand and then one for each remaining call, in order |
| MachineInvariant.OutstandingAnswersOwed | super_agent/runtime/machine/transition.py:359-380 | from valid data the outstanding results answer exactly the calls the open block still owes |
| MachineInvariant.SameToolCallIsEquivalence | super_agent/runtime/machine/snapshot.py:139-148 | identity of tool calls is an equivalence relation |
| MachineInvariant.AcceptedIsHandled | super_agent/runtime/machine/transition.py:195-418 | every event that the transition accepts commits: no change fails and the result is the state written out event by event |
| MachineInvariant.AfterIsValid | super_agent/runtime/machine/snapshot.py:73-148 | validity is inductive: the outcome of an accepted event validates |
| MachineInvariant.EndRunCompletes | super_agent/runtime/machine/transition.py:383-409 | an error or a cancel in any state answers everything outstanding and leaves a complete transcript |
| MachineInvariant.AfterIsConsistent | super_agent/runtime/machine/transition.py:210-418 | every accepted event keeps the tie between state, batch index and how far the open block is answered |
| MachineInvariant.TransitionKeepsInv | super_agent/runtime/machine/transition.py:195-207 | an event commits exactly when the table accepts it, and whether it is accepted or refused, validity and that tie are kept |
| MachineInvariant.StreamChunkCommit | super_agent/runtime/engine/action_loop.py:383-402 | a streamed delta touches the streaming text only and is refused outside the waiting state |
| EventEffects.EventCommitsExactly | super_agent/runtime/machine/transition.py:195-418 | the whole table: for each of the 15 events the states in which it commits and the call it must be about |
| EventEffects.EndOfRunAnswersExactly | super_agent/runtime/machine/transition.py:359-409 | a cancel and an error flush what was being streamed, marked as interrupted, and answer every call left in order: the running one as cancelled or with the error, every other as not executed |
| EventEffects.MessageEventEffects | super_agent/runtime/machine/transition.py:210-250 | the user message, the reply and the batch arrive with all they carry as the one new message; a reset keeps the system messages alone |
| EventEffects.QueueEventEffects | super_agent/runtime/machine/transition.py:307-356 | the next call runs, waits or is answered as denied with the reason, and the index moves on by one; a finished batch goes back to the model |
| EventEffects.CallEventEffects | super_agent/runtime/machine/transition.py:257-305 | a result is the content of its answer; an approval lets the pending call run; a denial runs nothing and answers with the name of the call |
| EventEffects.SameCallExactly | super_agent/runtime/machine/snapshot.py:139-148 | calls with an id are the same by id, calls without one by name and input |
| RuntimeDataApplier.RuntimeData.Validate | super_agent/runtime/machine/snapshot.py:73-148 | the checks on the object decide validity of its value |
| RuntimeDataApplier.CloneRuntimeData | super_agent/runtime/machine/runtime_data_change_applier.py:158-169 | an equal, new object; the message list is shared unless it was to be cloned |
| RuntimeDataApplier.ApplyRuntimeDataChange | super_agent/runtime/machine/runtime_data_change_applier.py:93-155 | in-place application is the pure change, and the message list is written only by a change that touches messages |
| RuntimeDataApplier.ApplyRuntimeDataChanges | super_agent/runtime/machine/runtime_data_change_applier.py:68-91 | copy-on-write equals folding the changes over a full clone, and the committed object, its list and its batch are never altered, also on failure |
| Execution.ActionQueue.Queue | super_agent/runtime/execution/action_queue.py:26-31 | queues at the end under an id never used before |
| Execution.ActionQueue.Pop | super_agent/runtime/execution/action_queue.py:33-37 | takes the oldest action |
| Execution.ActionQueue.Clear | super_agent/runtime/execution/action_queue.py:39-46 | empties the queue and keeps the id counter |
| Execution.RunController.StartRun | super_agent/runtime/execution/run_controller.py:79-84 | a new, higher run number becomes current |
| Execution.RunController.CancelRun | super_agent/runtime/execution/run_controller.py:91-94 | the run number moves on, so the old one is retired |
| Execution.RunController.InvalidateCurrentRun | super_agent/runtime/execution/run_controller.py:86-89 | the same without a cancel by the user |
| Execution.RunController.FinishRun | super_agent/runtime/execution/run_controller.py:96-99 | ends the current run's context and no other, without retiring its number |
| EngineInvariant.ResolvedIsAccepted | super_agent/runtime/execution/action_result_resolver.py:72-126 | whatever the resolver makes of the result of the demanded action passes the guards of the state reached |
| EngineInvariant.CurrentCompletionIsAccepted | super_agent/runtime/engine/action_loop.py:289-378 | no completion for the current run produces an unexpected-event or protocol error |
| EngineInvariant.ResolverRefusesExactly | super_agent/runtime/execution/action_result_resolver.py:72-126 | resolution fails exactly for tool calls while no tool is offered, for an unknown decision, and for a next call that the policy or its approval key raises on |
| EngineInvariant.RefusedCompletionEndsTurn | super_agent/runtime/engine/action_loop.py:264-287 | a refused current completion ends the turn as an error: idle, nothing queued, everything outstanding answered |
| EngineInvariant.CompletionCommits | super_agent/runtime/engine/action_loop.py:352-378 | a resolved current completion always commits; only recording an approval for good can raise behind it |
| CompletionEffects.ToolRunsOnlyWithLicence | super_agent/runtime/engine/action_loop.py:289-378 | over every run: if a tool runs, an earlier step of the run classified exactly that call to run directly or the user approved it, and it has been running ever since |
| CompletionEffects.PoppedToolIsRunning | super_agent/runtime/engine/action_loop.py:248-262 | the tool that the loop takes off the queue is the call that is licensed to run |
| CompletionEffects.ModelReplyArrives | super_agent/runtime/execution/action_result_resolver.py:104-116 | a reply arrives with content, reasoning and calls; without calls it ends the turn, with calls it starts a batch, and without tools on offer those end it as an error |
| CompletionEffects.NextCallIsClassified | super_agent/runtime/execution/action_result_resolver.py:85-102 | the next call runs, is asked about with its description, or is answered as denied, as the policy decides; a policy that raises ends the run |
| CompletionEffects.DecisionIsFollowed | super_agent/runtime/execution/action_result_resolver.py:118-126 | once and always let the pending call run, a denial answers it and runs nothing, anything else ends the run; an approval for good that cannot be recorded ends the run with the call answered |
| CompletionEffects.ToolAnswerArrives | super_agent/runtime/execution/scheduled_action_executor.py:114-132 | the text of a tool is the content of its answer, and an error that it raises is one too |
| CompletionEffects.FailedPortEndsRun | super_agent/runtime/execution/scheduled_action_executor.py:89-140 | a port that is missing, cancelled or broken ends the run with every call left answered |
| CompletionEffects.CancelEffects | super_agent/runtime/engine/commands.py:78-87 | a cancel retires the run, drops its work and answers what it leaves |
| CompletionEffects.RewriteEffects | super_agent/runtime/engine/commands.py:89-115 | a reset keeps the system messages and a replacement what it is given, in idle, with the run retired twice |
| CompletionEffects.StartEffects | super_agent/runtime/engine/action_loop.py:184-209 | a user message starts a run in idle with the model due, and is refused everywhere else |
| CompletionEffects.ChunkEffects | super_agent/runtime/engine/action_loop.py:383-402 | a chunk of the current run is kept, content and reasoning, while the model is asked, and changes nothing otherwise |
| CompletionEffects.PopEffects | super_agent/runtime/engine/action_loop.py:248-262 | the loop takes the oldest action and ends only in idle with nothing queued |
| EngineInvariant.StepKeepsEngineInv | super_agent/runtime/engine/action_loop.py:173-277 | every atomic step keeps validity, lockstep and the identity of the call in hand |
| EngineInvariant.LockstepOverEveryRun | super_agent/runtime/engine/action_loop.py:248-277 | in every run from construction the queued or executing action is the one the state demands, and the loop never finds an empty queue outside idle |
| EngineInvariant.EveryCallIsAnswered | super_agent/runtime/machine/transition.py:237-409 | in every state of every run the history parses into complete blocks and at most one open block, the batch, answered up to its index; a batch answered to its end is the newest complete block |
| EngineInvariant.ModelSeesCompleteTranscript | super_agent/runtime/execution/scheduled_action_executor.py:106-112 | every model call for the current run is made with every call answered |
| EngineInvariant.RetiredStaysRetired | super_agent/runtime/execution/run_controller.py:79-110 | a run number below the current one is never current again |
| EngineInvariant.StaleWorkChangesNothing | super_agent/runtime/engine/action_loop.py:352-402 | in every later state a chunk of a retired run changes nothing and a completion changes neither data nor queue |
| EngineObject.Engine.CommitTransition | super_agent/runtime/engine/action_loop.py:233-246 | data, queue clearing and new entries change together, or nothing does |
| EngineObject.Engine.DispatchEvent | super_agent/runtime/engine/action_loop.py:173-227 | the object does what the dispatch step says, and fails exactly when the event is not handled |
| EngineObject.Engine.Cancel | super_agent/runtime/engine/commands.py:78-87 | retires the run and commits the cancel as one step |
| EngineObject.Engine.Reset | super_agent/runtime/engine/commands.py:89-93 | retires the run twice and keeps the system messages only |
| EngineObject.Engine.ReplaceMessages | super_agent/runtime/engine/commands.py:95-115 | a new conversation in idle with an empty queue; the old list object is left alone |
| EngineObject.Engine.StartTurn | super_agent/runtime/engine/action_loop.py:184-209 | starts a run and commits the user message, or refuses it |
| EngineObject.Engine.PopAction | super_agent/runtime/engine/action_loop.py:248-262 | the top of the drain loop |
| EngineObject.Engine.Fail | super_agent/runtime/engine/action_loop.py:264-287 | a cancellation retires the run first, any other failure is reported as an error |
| EngineObject.Engine.CompleteAction | super_agent/runtime/engine/action_loop.py:289-378 | a completion is discarded if stale, else resolved, decided and committed |
| EngineObject.Engine.Remember | super_agent/runtime/engine/action_loop.py:377-378 | behind the commit an approval for good is recorded, and a failure there ends the turn |
| EngineObject.Engine.RecordStreamChunk | super_agent/runtime/engine/action_loop.py:383-402 | appends streaming text for the current run only, and only if the candidate validates |
| EngineObject.Engine.RunScheduledActions | super_agent/runtime/engine/action_loop.py:248-277 | the drain loop is a run of the step relation and ends with the turn over or an action waiting |
| WorkBound.BatchStepProgress | super_agent/runtime/machine/transition.py:257-356 | one action of a batch makes the measure of remaining calls and phase strictly smaller |
| WorkBound.BatchWorkBound | super_agent/runtime/machine/transition.py:257-356 | an uninterrupted fresh batch of n calls reaches the next model call after at least n + 1 and at most 3n + 1 actions, and the tools that ran are an in-order subsequence of the batch |
| WorkBound.BatchStepGoesOn | super_agent/runtime/engine/action_loop.py:352-378 | a batch goes on exactly when its action finishes, resolves, and an approval for good can be recorded |
| WorkBound.RefusalsAreShortest | super_agent/runtime/machine/transition.py:344-356 | n + 1 is reached for every n, by refusing every call |
| WorkBound.ApprovalsAreLongest | super_agent/runtime/machine/transition.py:257-330 | 3n + 1 is reached for every n, by approving and running every call |
| WorkBound.ToolsRunInOrder | super_agent/runtime/machine/transition.py:257-342 | on the way to the model the tools that run are an in-order subsequence of the batch with the batch's own calls |
| WorkBound.EngineCompletionIsBatchStep | super_agent/runtime/engine/action_loop.py:289-378 | the engine's own completions are the batch steps that the bounds count |
| SessionLog.MessagesFromRecords | super_agent/store/store.py:266-296 | the loop computes the replay of the records |
| SessionLog.SavedMessageReplays | super_agent/store/repository.py:68-81 | a saved message comes back from replay if and only if a tool message carries nothing that a tool result record drops |
| SessionLog.SavedMessagesReplay | super_agent/store/repository.py:68-81 | a list of such messages saved behind any log replays behind that log's messages |
| SessionLog.CreatedLogReplays | super_agent/store/store.py:313-341 | a created log replays to its initial messages |
| SessionLog.CheckpointUndo | super_agent/store/store.py:512-529 | the backward search answers the newest checkpoint with files, its position and the transcript in front of it |
| SessionLog.UndoPointIsNewest | super_agent/store/store.py:512-529 | an undo point is found if and only if there is one, and no later record is one |
| SessionLog.UndoIsSoundAndIdempotent | super_agent/store/store.py:531-552 | the truncated log replays to the transcript handed to the engine; a second undo finds the same checkpoint and changes nothing |
| LogFile.EventLog.Append | super_agent/store/store.py:349-380 | one encoded record and a line feed at the end of the file |
| LogFile.EventLog.ReadRecords | super_agent/store/store.py:468-497 | the loop answers what the specification reads, truncates to the bytes that stay, and changes nothing when it raises |
| LogFile.TornTailHeals | super_agent/store/store.py:468-497 | a log cut anywhere inside the last record's text reads as the records before it, is truncated to exactly their bytes, and reads the same again |
| LogFile.CorruptionIsLoud | super_agent/store/store.py:468-497 | an undecodable line with other content behind it is refused, at its position |
| LogFile.ReadableIffFits | super_agent/store/store.py:468-497 | a log is readable if and only if every record fits the 20 MiB cap |
| LogFile.AppendThenRead | super_agent/store/store.py:349-380 | append and read gives the old records and the new one |
| LogFile.LostLineFeed | super_agent/store/store.py:468-497 | a last record without its line feed is kept and the file is left as it is |
| LogFile.AppendAfterCrashIsReadExactly | super_agent/store/store.py:349-380 | heal, append, read gives what was healed and the new record if and only if the crash lost more than the line feed |
| LogFile.GluedLinesCanBeTooLong | super_agent/store/store.py:468-497 | two records glued into one line longer than the cap make the whole log unreadable |
| LogFile.CutReadsPrefix | super_agent/store/store.py:468-497 | a written log cut at any byte reads as its records up to some point and nothing else |
| LogFile.OneRecordReads | super_agent/store/store.py:468-497 | a log of one record reads as that record, or is refused past 20 MiB |
| LogFile.TornExactly | super_agent/store/store.py:468-497 | an undecodable line is dropped if and only if nothing but blanks follows it, and refused otherwise |
| CrashRecovery.CutLogIsPast | super_agent/store/store.py:468-497 | after any history from creation whose steps keep the replay, beside stored sessions with a past of their own, any session's file cut at any byte reads back to records that replay to a conversation of that session's past or the beginning of one |
| CrashRecovery.CutConversationIsPast | super_agent/store/store.py:468-497 | over every history at all, the same up to system messages |
| LogFile.UnaryCodecIsLawful | super_agent/store/store.py:349-380 | the laws asked of the record codec can be met |
| History.CompactedMessages | super_agent/runtime/session/history.py:270-286 | the loops compute system messages, summary and window |
| History.CompactionPreservesCompleteness | super_agent/runtime/session/history.py:270-286 | a complete transcript stays complete, every system message is kept in order, and the window starts at the latest non-tool position that keeps the newest messages asked for |
| History.MemoryIsReplaced | super_agent/runtime/session/history.py:289-299 | the memory message is replaced and not accumulated, and completeness is untouched |
| MemoryText.MemoryReadsBack | super_agent/runtime/session/history.py:289-299 | the memory message reads back to the heading and one line for every memory, where each memory is one line |
| MemoryText.MemoryGrowsByLine | super_agent/runtime/session/history.py:289-299 | one memory more is one line more, whatever the memories hold |
| MemoryText.OnlyMemoryIsDropped | super_agent/runtime/session/history.py:289-299 | a message is dropped as the old memory exactly when it is a system message under that heading |
| SessionRepository.Repository.Create | super_agent/store/store.py:313-341 | stores a started record and every initial message as appended |
| SessionRepository.Repository.SaveMessage | super_agent/store/repository.py:68-81 | a tool message becomes a tool result record, any other an appended message |
| SessionRepository.Repository.SaveCheckpoint | super_agent/store/repository.py:132-149 | an empty capture stores nothing |
| SessionRepository.Repository.TruncateLog | super_agent/store/store.py:531-552 | keeps the record at the index and everything in front of it |
| SnapshotEmitter.Emitter.Emit | super_agent/runtime/session/snapshot_emitter.py:57-98 | publishes state, approval change and unemitted messages in this order, and saves exactly those messages |
| SnapshotEmitter.Emitter.MarkApprovalConsumed | super_agent/runtime/session/snapshot_emitter.py:43-49 | forgets the last call and keeps that an approval is on show |
| SnapshotEmitter.RepeatIsSilentUnlessConsumed | super_agent/runtime/session/snapshot_emitter.py:43-98 | a repeated snapshot adds nothing; after a decision an equal pending call is announced again |
| SnapshotEmitter.SnapshotIsShown | super_agent/runtime/session/snapshot_emitter.py:57-98 | whatever a consumer in step showed, behind a snapshot it shows state, pending call and description of that snapshot |
| SnapshotEmitter.ConsumerFollowsSnapshots | super_agent/runtime/session/snapshot_emitter.py:57-98 | over every stream of snapshots, decisions and re-arms, where nothing is on show at a re-arm and a pending call keeps its description, a consumer shows exactly the newest snapshot |
| SessionStream.CreatedFollows | super_agent/runtime/session/session.py:206-238 | a created session starts in step with a consumer that shows an idle engine |
| SessionStream.ConsumerShowsSession | super_agent/runtime/session/turn.py:188-202 | over every session history the stream is of that kind, and a consumer shows exactly the state of the engine, the call that it waits for and the description of that call, nothing as soon as no turn runs |
| SessionStream.EveryMessageIsPublishedOnce | super_agent/runtime/session/snapshot_emitter.py:91-98 | over every sequence of turns and cancels the published messages are exactly those that joined the conversation, once each and in order |
| SessionInvariant.ActAgreesExactly | super_agent/runtime/session/session.py:122-152 | from agreement every use case leads to agreement, except that a reset during a turn and a resume that fails at activation do so if and only if their stated condition holds |
| SessionInvariant.ReplayAgreesOverEveryHistory | super_agent/store/store.py:266-296 | after every history of turns, cancels, resets, compactions, undos, forks, resumes, memory changes and replacements whose steps keep the replay, the active log replays to the engine's messages |
| SessionInvariant.ConversationIsStoredOverEveryHistory | super_agent/store/store.py:266-296 | over every history at all, log and memory agree on everything but system messages |
| SessionInvariant.CreatedSessionAgrees | super_agent/runtime/session/session.py:218-238 | a created session starts in agreement |
| SessionEffects.CreatedEffects | super_agent/runtime/session/session.py:218-238 | a new session holds its initial messages in idle, on a log of its own that replays to them, and no other log is touched |
| SessionEffects.BeginTurnEffects | super_agent/runtime/session/turn.py:100-143 | the user message joins conversation and log and the model is due; an engine that is not ready refuses it |
| SessionEffects.LoopEffects | super_agent/runtime/session/turn.py:114-141 | what a step of the loop adds to the conversation is stored, and nothing else |
| SessionEffects.BesideEffects | super_agent/runtime/session/checkpoint.py:24-36 | an audit record stands on the log and changes no replay; the end of a turn frees the flag alone |
| SessionEffects.CancelRunEffects | super_agent/runtime/session/session.py:122-126 | a cancel answers what it leaves, stores the answers, and records itself behind them |
| SessionEffects.ResetEffects | super_agent/runtime/session/session.py:128-138 | a reset keeps exactly the system messages and is on the log |
| SessionEffects.ReplaceEffects | super_agent/runtime/session/session.py:140-152 | conversation, replay and engine are exactly what was asked for, by one record |
| SessionEffects.BeginCompactEffects | super_agent/runtime/session/history.py:203-225 | a compaction reads the conversation if it has more to summarise than it keeps, 4 where less than 1 was asked for |
| SessionEffects.FinishCompactEffects | super_agent/runtime/session/history.py:226-286 | conversation and replay are the system messages, the summary word for word, and the newest of the rest from the latest message that is no answer |
| SessionEffects.UndoEffects | super_agent/runtime/session/history.py:235-257 | conversation and replay are what came before the newest checkpoint with files, and the log ends with it |
| SessionEffects.UndoNeedsCheckpoint | super_agent/runtime/session/history.py:235-257 | without such a checkpoint undo changes nothing |
| SessionEffects.ForkEffects | super_agent/runtime/session/history.py:58-91 | a new session is active with the same conversation, and every old log is untouched |
| SessionEffects.ResumeEffects | super_agent/runtime/session/history.py:137-187 | the session asked for is active with its stored conversation, the memory in front; no other log is touched |
| SessionEffects.FailedResumeEffects | super_agent/runtime/session/history.py:174-181 | a resume that fails at activation stores just that and swaps nothing |
| SessionEffects.RememberEffects | super_agent/runtime/session/history.py:98-135 | a new line joins the memory and its message in front of the conversation; a known one changes nothing |
| SessionEffects.ForgetEffects | super_agent/runtime/session/history.py:117-135 | the memory is empty and its message gone from the conversation |
| SessionInvariant.MidTurnResetAgreesExactly | super_agent/runtime/session/snapshot_emitter.py:91-98 | a reset during a turn keeps replay in agreement if and only if no system message, or nothing else, was there |
| SessionInvariant.MidTurnResetDoubles | super_agent/runtime/session/snapshot_emitter.py:91-98 | one system message, a first turn and a reset: the conversation keeps one, replay gives two |
| SessionInvariant.FailedResumeAgreesExactly | super_agent/runtime/session/history.py:174-181 | a resume that fails at activation keeps log and memory in agreement if and only if it was another session or the memory message would not change |
| SessionInvariant.FreshSessionCanPart | super_agent/app/session.py:160-165 | a session created beside a memory, resumed into itself with a refusal at activation, has a log that replays to another order than its conversation |
| SessionInvariant.CompactionRestoresWhatWasReset | super_agent/runtime/session/history.py:203-233 | whatever is cancelled or reset while a compaction is under way, it swaps in the compaction of what it read at its start, which is not empty |
| SessionInvariant.UndoLeavesOpenBlock | super_agent/runtime/session/history.py:235-257 | undo of a checkpoint taken while a tool runs hands back a transcript that ends in the open block of that tool |
| SessionInvariant.StoredTranscriptIsComplete | super_agent/runtime/session/history.py:203-233 | when every transcript from outside is complete and no checkpoint is undone, the stored transcript of an idle session is complete |
| TalkedOver.CompleteExactly | super_agent/runtime/machine/transition.py:359-380 | a transcript is complete if and only if no user message follows an unanswered call and the messages since then close every block |
| OrderlyRuns.StepKeepsTied | super_agent/runtime/engine/commands.py:95-115 | from a transcript with an open block handed in, every engine step keeps every later call answered |
| SessionOrder.CompactionKeepsOrder | super_agent/runtime/session/history.py:270-286 | a compaction leaves nothing wrong but what was talked over inside its window |
| SessionOrder.OrderOverEveryHistory | super_agent/runtime/session/history.py:235-257 | over every history, undo included, a talked-over block is the only thing that is ever wrong with a conversation, a log, or what an undo hands back |
| SessionOrder.TurnTalksOverExactly | super_agent/runtime/session/turn.py:100-143 | the message that begins a turn talks over a block exactly when the conversation in front of it is not complete |
| SessionOrder.TalkedOverUntilRewritten | super_agent/runtime/session/history.py:58-257 | a talked-over block stays through every use case that does not rewrite the conversation |
| SessionObject.Session.EmitSnapshot | super_agent/runtime/session/session.py:191-198 | a snapshot is emitted and persisted as one step |
| SessionObject.Session.constructor | super_agent/runtime/session/session.py:206-215 | a valid session over a stored conversation, everything counted as emitted |
| SessionObject.Session.BeginTurn | super_agent/runtime/session/turn.py:100-143 | takes the turn flag or refuses, starts the run, emits, and leaves the session valid |
| SessionObject.Session.CompleteAction | super_agent/runtime/session/turn.py:114-141 | an executed action and the observer's emission are one step |
| SessionObject.Session.EndTurn | super_agent/runtime/session/turn.py:143-189 | the last emission, and the flag released |
| SessionObject.Session.Audit | super_agent/runtime/session/checkpoint.py:24-36 | a checkpoint, approval or error is recorded beside the messages |
| SessionObject.Session.Cancel | super_agent/runtime/session/session.py:122-126 | cancels the engine, lets a running turn's observer emit, and records the cancel |
| SessionObject.Session.Reset | super_agent/runtime/session/session.py:128-138 | stores the reset, resets the engine, lets a running turn's observer emit, and re-arms the emitter |
| SessionObject.Session.ReplaceConversation | super_agent/runtime/session/session.py:140-152 | refused while the flag is held, else stored and swapped in |
| SessionObject.Session.BeginCompact | super_agent/runtime/session/history.py:203-225 | does nothing for a short conversation, with a default of 4 messages to keep |
| SessionObject.Session.FinishCompact | super_agent/runtime/session/history.py:226-233 | stores the compaction and swaps in the kept messages |
| SessionObject.Session.Undo | super_agent/runtime/session/history.py:235-257 | truncates behind the undo point and hands its transcript to the engine; refused without a checkpoint, or when the files cannot be restored, with nothing lost |
| SessionObject.Session.Fork | super_agent/runtime/session/history.py:58-91 | copies the conversation into a new session and activates it under a new emitter |
| SessionObject.Session.Resume | super_agent/runtime/session/history.py:137-187 | activates a stored conversation under the current memory; an unknown session or a refusal in front changes nothing, a refusal at activation has stored the replacement |
| SessionObject.Session.Remember | super_agent/runtime/session/history.py:98-135 | refuses an empty line, adds a memory once, and swaps the memory message |
| SessionObject.Session.ForgetMemories | super_agent/runtime/session/history.py:117-135 | empties the memory and drops the memory message |
| SessionObject.Session.PerformAll | super_agent/runtime/session/session.py:122-152 | the object follows every allowed sequence of use cases exactly and stays valid |
| Claude.SplitSystemMessages | super_agent/llm/claude.py:170-181 | system texts joined by blank lines, and the rest in order |
| Claude.MergeAdjacentMessages | super_agent/llm/claude.py:236-251 | the loop computes the merge of neighbours with one role |
| Claude.ToClaudeMessages | super_agent/llm/claude.py:184-213 | the loops compute the translation |
| ClaudePairing.MergePreservesAndAlternates | super_agent/llm/claude.py:236-251 | merging keeps every block, its role and the order, and no two neighbours share a role |
| ClaudeContents.RequestSaysEverything | super_agent/llm/claude.py:184-251 | the request holds what the messages say, word for word, in order, under the right role: nothing is lost, changed, added or moved |
| ClaudeContents.EverythingArrives | super_agent/llm/claude.py:184-251 | the tool results are ids and contents of the tool messages, the uses are the calls with their parsed inputs, and the texts are what user and assistant wrote |
| ClaudeContents.AttachmentsAreShown | super_agent/llm/claude.py:216-233 | the loop shows each attachment by its kind, in order, and leaves out a text that does not decode |
| ClaudeContents.SystemTextHolds | super_agent/llm/claude.py:170-181 | every system message is in the system text, word for word, behind those in front of it, and no other message is |
| ClaudePairing.CompleteTranscriptTranslates | super_agent/llm/claude.py:170-251 | a complete transcript translates to strictly alternating roles, the same blocks, and results that lead their message and are exactly the uses in front of it |
| ClaudePairing.PairedExactlyWhenComplete | super_agent/llm/claude.py:170-251 | where no answer is out of place, the translation is paired if and only if the transcript is complete |
| ClaudePairing.OrderlyPairsExactly | super_agent/llm/claude.py:170-251 | where nothing is wrong but talked-over blocks, the request alternates and is paired if and only if the transcript is complete; a talked-over block never pairs again |
| ClaudePairing.BrokenCanPair | super_agent/llm/claude.py:202-213 | an answer behind an assistant message that says nothing breaks the rule and still pairs, since that message is not sent |
| EndToEnd.EveryRequestIsPaired | super_agent/llm/claude.py:68-83 | from creation beside any store and any memory, over every history that resumes and brings in complete transcripts only and undoes no checkpoint, every request, of the turn loop and of a compaction, is alternating and paired, and the log mirrors the conversation |
| EndToEnd.SummaryRequestIsComplete | super_agent/runtime/engine/commands.py:128-146 | a complete conversation with the summary prompt behind it is complete |
| EndToEnd.EveryRequestPairsExactly | super_agent/llm/claude.py:68-83 | from creation beside any orderly store and any memory, over every session history, undo, resets during a turn and resumes included, every request alternates and is paired if and only if no user message in it follows an unanswered call |
| EndToEnd.FirstRequestPairsExactly | super_agent/runtime/session/turn.py:100-143 | the first request of a turn is paired if and only if the conversation that the turn begins on is complete |
| EndToEnd.TurnBehindUndoPairsExactly | super_agent/runtime/session/history.py:235-257 | the first request of the turn behind an undo is paired if and only if the transcript at the undo point is complete |
| EndToEnd.TurnBehindResumePairsExactly | super_agent/runtime/session/history.py:137-187 | the first request of the turn behind a resume is paired if and only if the stored transcript is complete |
| Restarts.StoreStaysOrderly | super_agent/store/store.py:349-380 | over every session history, every log of the store replays orderly from whatever beginning of it is left |
| Restarts.CutFilesSurvive | super_agent/store/store.py:468-497 | files cut anywhere read back to a beginning of each log, and none is lost by the cut |
| Restarts.EveryRequestOfEveryLifePairsExactly | super_agent/runtime/session/history.py:137-187 | from an empty store, over any number of processes that each die with their logs cut anywhere, every request of every later process alternates and is paired if and only if no user message in it follows an unanswered call |
| Restarts.CallInHandIsOpen | super_agent/runtime/machine/transition.py:359-380 | while a call waits or runs the conversation is not complete |
| Restarts.TurnBehindCrashPairsExactly | super_agent/runtime/session/history.py:137-187 | a session whose process dies, resumed in another process, begins with a paired request if and only if its conversation was complete at that moment |
| Restarts.DyingInBatch | super_agent/runtime/engine/action_loop.py:289-378 | a run from creation whose log ends in the model's unanswered call |
| Restarts.ResumedOpenBlockIsUnpaired | super_agent/runtime/session/history.py:137-187 | create, resume of that log, next turn: an unpaired request without an undo |
| Framing.DecimalRoundTrips | super_agent/tools/lsp/client.py:105-125 | printing a length and parsing it gives it back |
| Framing.StreamReader.ReadLine | super_agent/tools/lsp/client.py:105-125 | a line with its line feed, or what is left |
| Framing.ReadHeader | super_agent/tools/lsp/client.py:105-125 | the loop reads the header the specification scans, with the same failures |
| Framing.Connection.Write | super_agent/tools/lsp/client.py:248-265 | one frame behind what was sent, or the error that stopped the connection; a write that stalls stops it |
| Framing.Connection.ReadLoop | super_agent/tools/mcp/client.py:271-280 | hands over every body of the stream in order and records what stopped it |
| Framing.StreamRoundTripsExactly | super_agent/tools/mcp/client.py:153-173 | bodies written as frames are read back the same until the stream closes, if and only if each has from 1 byte to 32 MiB |
| FramingEffects.FrameIs | super_agent/tools/lsp/client.py:248-265 | a frame is the header name, the length in decimal without leading zeros, an empty line and the body |
| FramingEffects.OtherLineIsSkipped | super_agent/tools/lsp/client.py:105-125 | a header line that does not begin with the name, in whatever case, is skipped |
| FramingEffects.LengthLineCounts | super_agent/tools/lsp/client.py:105-125 | the name in any case with digits behind it sets the length, blanks or none around them, and a later line wins |
| FramingEffects.WrongLengthIsRefused | super_agent/tools/lsp/client.py:105-125 | a length with anything in it that no number has ends the connection |
| FramingEffects.BlankLineEndsHeader | super_agent/tools/lsp/client.py:105-125 | a blank line ends the header, and a length from 1 byte to 32 MiB is accepted |
| Framing.CutStreamDeliversWholeFrames | super_agent/tools/lsp/client.py:143-153 | a stream that ends anywhere delivers exactly the bodies whose frames arrived whole |
| ToolRegistry.Registry.constructor | super_agent/tools/registry.py:44-52 | the table and order of the given tools; coherent only if their names are distinct |
| ToolRegistry.Registry.Add | super_agent/tools/registry.py:71-96 | adds the whole batch or nothing |
| ToolRegistry.Registry.Remove | super_agent/tools/registry.py:98-103 | forgets the names in table and order |
| ToolRegistry.Registry.Replace | super_agent/tools/registry.py:105-133 | swaps the named tools for the whole batch, or changes nothing |
| ToolRegistry.OperationsKeepCoherence | super_agent/tools/registry.py:71-133 | every operation keeps the order duplicate-free and equal to the table's names |
| ToolRegistry.OperationsKeepListing | super_agent/tools/registry.py:44-133 | from any construction on, the order lists exactly the names of the table |
| ToolRegistry.RemoveUndoesAdd | super_agent/tools/registry.py:71-103 | removing what was just added restores table and order |
| McpController.Manager.Add | super_agent/tools/mcp/client.py:435-457 | installs server and tools, or refuses when closed, for a known server, a failed connection or a known tool name |
| McpController.Manager.Close | super_agent/tools/mcp/client.py:505-512 | marks the manager closed and keeps its servers on the table |
| McpController.Manager.Remove | super_agent/tools/mcp/client.py:459-468 | forgets the server and exactly its own tools |
| McpController.Manager.Restart | super_agent/tools/mcp/client.py:470-493 | registry first, then manager, or neither |
| McpController.Controller.Add | super_agent/app/mcp.py:70-89 | the three steps with their rollback |
| McpController.Controller.Remove | super_agent/app/mcp.py:91-113 | the three steps with the compensating reconnect |
| McpController.Controller.Restart | super_agent/app/mcp.py:115-122 | replaces one server's tools |
| McpServers.FailedAddLeavesNoTrace | super_agent/app/mcp.py:70-89 | a failed add leaves registry, manager, settings and file as they were, whichever step failed |
| McpServers.AddAgrees | super_agent/app/mcp.py:70-89 | an add keeps the agreement, whatever fails |
| McpEffects.AddSucceedsExactly | super_agent/app/mcp.py:70-89 | an add answers true if and only if it has a name and a command, the manager is open, the name is new, the server connects with distinct tool names that nobody holds, and the settings are saved |
| McpEffects.AddEffects | super_agent/app/mcp.py:70-89 | then the server is there under its settings in all four tables, over a connection of its own, with exactly the tools it lists behind the others, which are as before |
| McpEffects.RemoveSucceedsExactly | super_agent/app/mcp.py:91-113 | a removal answers true if and only if the name is known and the settings are saved; an unknown name changes nothing |
| McpEffects.RemoveEffects | super_agent/app/mcp.py:91-113 | then server, settings, saved entry and exactly its own tools are gone, and every other one is as before |
| McpEffects.UnsavedRemoveEffects | super_agent/app/mcp.py:91-113 | a removal that is not saved keeps the settings, and the server is back with what it lists now if it can be |
| McpEffects.LostRemoveEffects | super_agent/app/mcp.py:91-113 | where it cannot, whether the manager has the server back, and that its tools are gone from the registry |
| McpEffects.RestartSucceedsExactly | super_agent/app/mcp.py:115-122 | a restart answers true if and only if the name is known and the server connects with distinct tool names that nobody else holds |
| McpEffects.RestartEffects | super_agent/app/mcp.py:115-122 | then the server has a new connection under the settings it had with exactly the tools it lists now |
| McpEffects.CloseEffects | super_agent/tools/mcp/client.py:505-512 | a closed manager keeps what it has and refuses every add |
| McpServers.RestartAgrees | super_agent/app/mcp.py:115-122 | a restart keeps the agreement, and a failed one changes nothing |
| McpServers.RemoveAgreesExactly | super_agent/app/mcp.py:91-113 | a removal keeps the agreement if and only if it persists, or the manager is open and the reconnect lists distinct names the registry has room for |
| McpServers.LostServerDisagrees | super_agent/app/mcp.py:91-113 | a removal that neither persists nor reconnects leaves settings that name a server nobody runs |
| McpServers.AgreementOverEveryHistory | super_agent/app/mcp.py:70-132 | over every history of adds, removals, restarts and a close with failures anywhere, but every failed removal compensated, all four tables agree |
| PermissionPolicy.ModesNest | super_agent/runtime/execution/policy.py:135-178 | the calls that run directly nest as plan, ask, accept-edits, bypass, and only plan mode denies beyond the rules |
| PermissionPolicy.DenyEntriesOnlyDeny | super_agent/runtime/execution/policy.py:249-289 | further deny entries only move decisions to denied, in every mode |
| PermissionPolicy.AllowEntriesOnlyApprove | super_agent/runtime/execution/policy.py:249-289 | further allow entries only move decisions from approval to running |
| PermissionPolicy.DestructiveRunsOnlyInBypass | super_agent/runtime/execution/policy.py:135-178 | a destructive command runs unasked if and only if the mode is bypass and no rule denies it |
| PolicyEffects.PrecedenceIsKept | super_agent/runtime/execution/policy.py:135-178 | deny rules are absolute, then the mode, then what is asked about whatever is allowed, then allow rules, then risk |
| PolicyEffects.RulesApply | super_agent/runtime/execution/policy.py:221-289 | a call is refused if and only if its tool, command prefix, path or variable is listed or out of reach, and let through only by a rule that covers all it touches |
| PolicyEffects.RiskIsListed | super_agent/runtime/execution/policy.py:292-297 | the first spec of the name says whether a tool is risky, and a tool without one is |
| PolicyEffects.KeysAreExact | super_agent/runtime/execution/approval_store.py:67-91 | two calls share an approval key if and only if they have the same tool and the same canonical input |
| Approvals.StoreHoldsGrants | super_agent/runtime/engine/action_loop.py:377-378 | over every run the store holds exactly what was in it and what was granted since |
| Approvals.GrantIsUsersDecision | super_agent/runtime/execution/action_result_resolver.py:118-126 | a key is granted only by the user's always-decision on the pending call of the current run |
| Approvals.GrantIsAlwaysRecorded | super_agent/runtime/engine/action_loop.py:377-378 | with the default policy, recording a grant never raises: the call was classified before it was asked about |
| Approvals.DeniedCallRunsExactlyIfGranted | super_agent/runtime/execution/action_result_resolver.py:98-102 | over every run with policies swapped at will, a call that the current policy denies runs if and only if its key was granted for good earlier in that run |
| Approvals.DeniedCallCanRun | super_agent/runtime/engine/commands.py:117-126 | a run in which plan mode denies the next call and it runs |
| Approvals.KeylessCallEndsTurn | super_agent/runtime/execution/approval_store.py:67-91 | a call whose input has no key ends the turn as an error with the engine idle |
| UnattendedModes.PlanAndBypassNeverAsk | super_agent/runtime/execution/policy.py:135-178 | the resolver never asks for an approval in plan and bypass mode |
| UnattendedModes.UnattendedBatchBound | super_agent/runtime/machine/transition.py:257-356 | in those modes an uninterrupted fresh batch of n calls reaches the next model call after n + 1 to 2n + 1 actions, and no state on the way waits for an approval |
| Utf8.EncodeThenDecode | super_agent/tools/mcp/client.py:139-145 | strict decoding gives back what was encoded |
| Utf8.DecodeThenEncode | super_agent/tools/mcp/client.py:139-145 | what decodes strictly is the encoding of its text |
| Utf8.CutStopsAtCharacter | super_agent/tools/mcp/client.py:139-145 | behind the last character boundary in the cap every byte is a continuation, and the boundary is at most 3 bytes back |
| Utf8.CutText | super_agent/tools/mcp/client.py:139-145 | an output over the cap becomes its longest prefix that fits, and the loop backs up at most 3 bytes |
| Utf8.FormatOutput | super_agent/tools/mcp/client.py:138-145 | an output over 200,000 bytes becomes its longest fitting prefix and the mark |
| RunContexts.RunContext.Cancel | super_agent/runtime/protocol/run_context.py:85-95 | cancels the context, leaves no cancelled context with a live child, and cancels nothing that is not derived from it |
| RunContexts.RunContext.Adopt | super_agent/runtime/protocol/run_context.py:70-75 | a live context keeps the child, a cancelled one cancels it and what is derived from it, nothing else |
| RunContexts.CancellationReaches | super_agent/runtime/protocol/run_context.py:20-27 | a cancelled context has cancelled everything derived from it, however far down |

## Left out

- The terminal interface, composer, rendering and the app adapter.
- Provider streaming, web tools, command spawning, sandboxing, process groups: the model and the tool runner are arbitrary answers or failures.
- Telemetry, usage reports, settings loading, instruction discovery, export formatting: plumbing.
- Real file systems, fsync, file locks, path canonicalisation: a log is a byte sequence and checkpoint files are opaque.
- JSON and SHA-256: the record codec is abstract with stated laws, and a frame body is any byte string.
- Time stamps, turn and session identifiers, titles and other metadata of records; the wording of errors raised inside the machine.
- What the workspace does in a resume or an undo: it is an answer, accepted or refused; the one-time upgrade of old metadata is not modelled.
- Failed repository writes in a session: the agreement is stated for writes that succeed.
- Values on a run context and contexts that share one event: a cancel does not walk their children, so nothing is claimed about them. The link from the run controller to its context is the `active` flag.
- Two engine loops at once, and observers that block on a full notification queue.
- The registry of transitions: its lookup by state and event type is a match here.
- The command analyzer's token heuristics and the path primitives of the policy: inputs.
- PermissionPolicy.ModesNest: knows the four accepted modes only; the empty mode is normalised to ask and any other is refused where a mode is set.
- The matching of replies to pending requests in the LSP and MCP clients, and the wait for closing connections.
- Framing.ReadHeader: does not model the stream reader's 64 KiB line limit or Python's limit on the digits of an integer.
- Joining the parts of a tool result before it is cut.
- Other providers' translations; tool results and attachments that carry images beyond what `to_claude_messages` does.
