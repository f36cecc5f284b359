/** Session storage as an object (`store/repository.py`): one log for each session, and the memory. */
module SessionRepository {
  import opened Outcomes
  import opened Protocol
  import opened SessionLog

  class Repository {
    var logs: map<string, seq<Record>>
    var memory: seq<string>

    constructor ()
      ensures logs == map[] && memory == []
    {
      logs, memory := map[], [];
    }

    method Create(id: string, initial: seq<Message>)
      modifies this`logs
      ensures logs == old(logs)[id := CreateRecords(initial)]
    {
      var records := [Bare(SessionStarted)];
      for i := 0 to |initial|
        invariant records == CreateRecords(initial[..i])
      {
        assert initial[..i + 1][..i] == initial[..i];
        records := records + [Bare(MessageAppended).(message := Some(initial[i]))];
      }
      assert initial[..|initial|] == initial;
      logs := logs[id := records];
    }

    method Append(id: string, record: Record)
      requires id in logs
      modifies this`logs
      ensures logs == old(logs)[id := old(logs)[id] + [record]]
    {
      logs := logs[id := logs[id] + [record]];
    }

    method SaveMessage(id: string, m: Message)
      requires id in logs
      modifies this`logs
      ensures logs == old(logs)[id := old(logs)[id] + [RecordFor(m)]]
    {
      var record := Bare(MessageAppended).(message := Some(m));
      if m.role.Tool? {
        record := Bare(ToolResult).(toolCall := Some(ToolCall(m.toolCallId, m.toolName, "")), result := m.content);
      }
      Append(id, record);
    }

    method SaveCancel(id: string)
      requires id in logs
      modifies this`logs
      ensures logs == old(logs)[id := old(logs)[id] + [Bare(Cancelled)]]
    {
      Append(id, Bare(Cancelled));
    }

    method SaveReset(id: string)
      requires id in logs
      modifies this`logs
      ensures logs == old(logs)[id := old(logs)[id] + [Bare(WasReset)]]
    {
      Append(id, Bare(WasReset));
    }

    method SaveConversationReplacement(id: string, messages: seq<Message>)
      requires id in logs
      modifies this`logs
      ensures logs == old(logs)[id := old(logs)[id] + [Bare(ContextReplaced).(messages := messages)]]
    {
      Append(id, Bare(ContextReplaced).(messages := messages));
    }

    method SaveCompaction(id: string, summary: string, original: seq<Message>, kept: seq<Message>)
      requires id in logs
      modifies this`logs
      ensures logs == old(logs)[id := old(logs)[id]
                                      + [Bare(Compacted).(compact := Some(Compact(summary, original, kept)))]]
    {
      Append(id, Bare(Compacted).(compact := Some(Compact(summary, original, kept))));
    }

    /** An empty capture is not a checkpoint. */
    method SaveCheckpoint(id: string, checkpoint: Checkpoint)
      requires id in logs
      modifies this`logs
      ensures logs == if checkpoint.files == [] then old(logs)
                      else old(logs)[id := old(logs)[id] + [Bare(CheckpointTaken).(checkpoint := Some(checkpoint))]]
    {
      if checkpoint.files == [] {
        return;
      }
      Append(id, Bare(CheckpointTaken).(checkpoint := Some(checkpoint)));
    }

    method Load(id: string) returns (messages: seq<Message>)
      requires id in logs
      ensures messages == Replay(logs[id])
    {
      messages := MessagesFromRecords(logs[id]);
    }

    method LoadUndoPoint(id: string) returns (found: Option<(Checkpoint, seq<Message>, nat)>)
      requires id in logs
      ensures found == UndoPointOf(logs[id])
    {
      found := CheckpointUndo(logs[id]);
    }

    method TruncateLog(id: string, keep: nat)
      requires id in logs
      modifies this`logs
      ensures logs == old(logs)[id := TruncateAfter(old(logs)[id], keep)]
    {
      logs := logs[id := TruncateAfter(logs[id], keep)];
    }

    method SaveMemory(items: seq<string>)
      modifies this`memory
      ensures memory == items
    {
      memory := items;
    }
  }
}
