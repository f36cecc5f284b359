/**
 The records of one session and what they mean (`store/store.py`, `store/repository.py`):
 replay, the record a message is saved as, and the undo point.
 */
module SessionLog {
  import opened Outcomes
  import opened Protocol

  datatype Kind =
    | SessionStarted | MessageAppended | ApprovalDecided | ToolResult | Cancelled | WasReset | Failed
    | CheckpointTaken | Compacted | ContextReplaced

  datatype FileSnapshot = FileSnapshot(path: string, exists_: bool, content: string, mode: int)

  datatype Checkpoint = Checkpoint(id: string, files: seq<FileSnapshot>, reason: string)

  datatype Compact = Compact(summary: string, original: seq<Message>, kept: seq<Message>)

  /** One log line, without its time stamps and identifiers. */
  datatype Record = Record(
    kind: Kind,
    message: Option<Message>,
    toolCall: Option<ToolCall>,
    result: string,
    checkpoint: Option<Checkpoint>,
    compact: Option<Compact>,
    messages: seq<Message>)

  function Bare(kind: Kind): Record {
    Record(kind, None, None, "", None, None, [])
  }

  /** What one record does to the model context; audit records do nothing. */
  function ReplayRecord(messages: seq<Message>, r: Record): seq<Message> {
    match r.kind
    case MessageAppended => if r.message.Some? then messages + [r.message.value] else messages
    case ToolResult =>
      if r.toolCall.Some? then messages + [ToolMessage(r.toolCall.value, r.result)] else messages
    case WasReset => SystemMessages(messages)
    case Compacted => if r.compact.Some? then r.compact.value.kept else messages
    case ContextReplaced => r.messages
    case _ => messages
  }

  function Replay(records: seq<Record>): seq<Message> {
    if records == [] then []
    else ReplayRecord(Replay(records[..|records| - 1]), records[|records| - 1])
  }

  /** The loop form of replay. */
  method MessagesFromRecords(records: seq<Record>) returns (messages: seq<Message>)
    ensures messages == Replay(records)
  {
    messages := [];
    for i := 0 to |records|
      invariant messages == Replay(records[..i])
    {
      var r := records[i];
      assert records[..i + 1][..i] == records[..i];
      if r.kind.MessageAppended? {
        if r.message.Some? {
          messages := messages + [r.message.value];
        }
      } else if r.kind.ToolResult? {
        if r.toolCall.Some? {
          messages := messages + [ToolMessage(r.toolCall.value, r.result)];
        }
      } else if r.kind.WasReset? {
        messages := SystemMessages(messages);
      } else if r.kind.Compacted? {
        if r.compact.Some? {
          messages := r.compact.value.kept;
        }
      } else if r.kind.ContextReplaced? {
        messages := r.messages;
      }
    }
    assert records[..|records|] == records;
  }

  lemma ReplayAppend(records: seq<Record>, r: Record)
    ensures Replay(records + [r]) == ReplayRecord(Replay(records), r)
  {
    assert (records + [r])[..|records|] == records;
  }

  /** `save_message`: a `tool` message becomes a tool result, anything else an appended message. */
  function RecordFor(m: Message): Record {
    if m.role.Tool?
    then Bare(ToolResult).(toolCall := Some(ToolCall(m.toolCallId, m.toolName, "")), result := m.content)
    else Bare(MessageAppended).(message := Some(m))
  }

  /** A `tool` message carries nothing that a tool result record would drop. */
  predicate Canonical(m: Message) {
    m.role.Tool? ==> m.reasoning == "" && m.toolCalls == [] && !m.interrupted && m.attachments == []
  }

  /** Saving and replaying a message gives it back exactly when it is canonical. */
  lemma SavedMessageReplays(records: seq<Record>, m: Message)
    ensures Replay(records + [RecordFor(m)]) == Replay(records) + [m] <==> Canonical(m)
  {
    ReplayAppend(records, RecordFor(m));
    if m.role.Tool? {
      var back := ToolMessage(ToolCall(m.toolCallId, m.toolName, ""), m.content);
      assert (Replay(records) + [back])[|Replay(records)|] == back;
      assert (Replay(records) + [m])[|Replay(records)|] == m;
    }
  }

  function RecordsFor(messages: seq<Message>): seq<Record> {
    if messages == [] then []
    else RecordsFor(messages[..|messages| - 1]) + [RecordFor(messages[|messages| - 1])]
  }

  lemma OneMoreReplays(records: seq<Record>, saved: seq<Record>, front: seq<Message>, m: Message)
    requires Replay(records + saved) == Replay(records) + front && Canonical(m)
    ensures Replay(records + (saved + [RecordFor(m)])) == Replay(records) + (front + [m])
  {
    assert records + (saved + [RecordFor(m)]) == records + saved + [RecordFor(m)];
    SavedMessageReplays(records + saved, m);
    assert Replay(records) + (front + [m]) == Replay(records) + front + [m];
  }

  lemma {:induction false} SavedMessagesReplay(records: seq<Record>, messages: seq<Message>)
    requires forall m :: m in messages ==> Canonical(m)
    ensures Replay(records + RecordsFor(messages)) == Replay(records) + messages
  {
    if messages == [] {
      assert records + [] == records;
      assert Replay(records) + [] == Replay(records);
    } else {
      var front, m := messages[..|messages| - 1], messages[|messages| - 1];
      SavedMessagesReplay(records, front);
      OneMoreReplays(records, RecordsFor(front), front, m);
      assert messages == front + [m];
    }
  }

  /** `create` stores every initial message as appended, `tool` messages included. */
  function CreateRecords(messages: seq<Message>): seq<Record> {
    if messages == [] then [Bare(SessionStarted)]
    else CreateRecords(messages[..|messages| - 1])
         + [Bare(MessageAppended).(message := Some(messages[|messages| - 1]))]
  }

  lemma {:induction false} CreatedLogReplays(messages: seq<Message>)
    ensures Replay(CreateRecords(messages)) == messages
  {
    if messages == [] {
      assert CreateRecords([])[..0] == [];
    } else {
      CreatedLogReplays(messages[..|messages| - 1]);
      ReplayAppend(CreateRecords(messages[..|messages| - 1]),
                   Bare(MessageAppended).(message := Some(messages[|messages| - 1])));
    }
  }

  // ----- Undo -----

  predicate UndoPoint(r: Record) {
    r.kind.CheckpointTaken? && r.checkpoint.Some? && |r.checkpoint.value.files| > 0
  }

  /** `checkpoint_undo`: the newest checkpoint with files, or `None`. */
  method CheckpointUndo(records: seq<Record>)
    returns (found: Option<(Checkpoint, seq<Message>, nat)>)
    ensures found == UndoPointOf(records)
  {
    var index := |records| - 1;
    assert records[..|records|] == records;
    while index >= 0
      invariant -1 <= index < |records|
      invariant UndoPointOf(records) == UndoPointOf(records[..index + 1])
    {
      assert records[..index + 1][..index] == records[..index];
      if UndoPoint(records[index]) {
        var messages := MessagesFromRecords(records[..index]);
        return Some((records[index].checkpoint.value, messages, index));
      }
      index := index - 1;
    }
    found := None;
  }

  function UndoPointOf(records: seq<Record>): Option<(Checkpoint, seq<Message>, nat)> {
    if records == [] then None
    else
      var n := |records| - 1;
      if UndoPoint(records[n]) then Some((records[n].checkpoint.value, Replay(records[..n]), n))
      else UndoPointOf(records[..n])
  }

  /** `truncate_after`: keeps the record at `keep` and everything before it. */
  function TruncateAfter(records: seq<Record>, keep: int): seq<Record> {
    if keep < 0 || keep >= |records| - 1 then records else records[..keep + 1]
  }

  /** `UndoPointOf` finds a checkpoint exactly when there is one, and the newest one. */
  lemma {:induction false} UndoPointIsNewest(records: seq<Record>)
    ensures UndoPointOf(records).None? <==> forall r :: r in records ==> !UndoPoint(r)
    ensures match UndoPointOf(records)
            case None => true
            case Some((checkpoint, messages, index)) =>
              && index < |records| && UndoPoint(records[index]) && records[index].checkpoint == Some(checkpoint)
              && messages == Replay(records[..index])
              && forall j :: index < j < |records| ==> !UndoPoint(records[j])
  {
    if records != [] {
      var n := |records| - 1;
      if UndoPoint(records[n]) {
        assert records[n] in records;
      } else {
        UndoPointIsNewest(records[..n]);
        assert records == records[..n] + [records[n]];
        if UndoPointOf(records).Some? {
          var index := UndoPointOf(records).value.2;
          assert records[..n][..index] == records[..index];
        }
      }
    }
  }

  /** Cutting the log behind an undo point leaves that undo point the newest. */
  lemma CutAtUndoPoint(records: seq<Record>, index: nat)
    requires index < |records| && UndoPoint(records[index])
    ensures var left := records[..index + 1];
            && Replay(left) == Replay(records[..index])
            && UndoPointOf(left) == Some((records[index].checkpoint.value, Replay(records[..index]), index))
  {
    var left := records[..index + 1];
    assert left[..index] == records[..index] && left[index] == records[index];
    assert left == records[..index] + [records[index]];
    ReplayAppend(records[..index], records[index]);
  }

  /**
   Undo is sound on the log and idempotent: what is left replays to the transcript handed to the
   engine, and a second undo finds the same checkpoint and changes nothing.
   */
  lemma UndoIsSoundAndIdempotent(records: seq<Record>, checkpoint: Checkpoint, messages: seq<Message>, index: nat)
    requires UndoPointOf(records) == Some((checkpoint, messages, index))
    ensures Replay(TruncateAfter(records, index)) == messages
    ensures UndoPointOf(TruncateAfter(records, index)) == UndoPointOf(records)
    ensures TruncateAfter(TruncateAfter(records, index), index) == TruncateAfter(records, index)
    ensures TruncateAfter(records, index) <= records && |TruncateAfter(records, index)| == index + 1
  {
    UndoPointIsNewest(records);
    assert TruncateAfter(records, index) == records[..index + 1];
    CutAtUndoPoint(records, index);
  }

  /** Records that are no undo point leave the undo point where it was. */
  lemma {:induction false} UndoPointSurvives(records: seq<Record>, more: seq<Record>)
    requires forall r :: r in more ==> !UndoPoint(r)
    ensures UndoPointOf(records + more) == UndoPointOf(records)
  {
    if more == [] {
      assert records + more == records;
    } else {
      var n := |more| - 1;
      UndoPointSurvives(records, more[..n]);
      assert (records + more)[..|records + more| - 1] == records + more[..n];
      assert more[n] in more;
    }
  }
}
