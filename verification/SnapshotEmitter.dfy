/**
 The snapshot emitter (`runtime/session/snapshot_emitter.py`): what a snapshot adds to the
 notification stream and to the log, and what a consumer of that stream gets to see.
 */
module SnapshotEmitter {
  import opened Outcomes
  import opened Protocol
  import opened Machine
  import opened SessionLog
  import opened SessionRepository

  datatype Notification =
    | StateChanged(state: State)
    | ApprovalRequested(call: ToolCall, request: Request)
    | ApprovalCleared
    | Appended(message: Message)

  /** What the emitter remembers. */
  datatype Mark = Mark(emitted: nat, hasApproval: bool, lastCall: Option<ToolCall>)

  function ApprovalNotes(m: Mark, d: Data): seq<Notification> {
    if d.pendingTool.Some? then
      if !m.hasApproval || m.lastCall != d.pendingTool then
        [ApprovalRequested(d.pendingTool.value,
                           if d.pendingPermission.Some? then d.pendingPermission.value else NoRequest)]
      else []
    else if m.hasApproval then [ApprovalCleared]
    else []
  }

  /** The messages behind the mark; a mark past the end means the conversation was cut. */
  function Unemitted(m: Mark, messages: seq<Message>): seq<Message> {
    messages[if m.emitted > |messages| then 0 else m.emitted..]
  }

  function MessageNotes(messages: seq<Message>): seq<Notification> {
    seq(|messages|, i requires 0 <= i < |messages| => Appended(messages[i]))
  }

  function Notes(m: Mark, d: Data): seq<Notification> {
    [StateChanged(d.state)] + ApprovalNotes(m, d) + MessageNotes(Unemitted(m, d.messages))
  }

  function Emitted(m: Mark, d: Data): Mark {
    Mark(|d.messages|, d.pendingTool.Some?, d.pendingTool)
  }

  function Consumed(m: Mark): Mark {
    m.(lastCall := None)
  }

  // ----- What a consumer sees -----

  /** What is on show: the state, and the approval that is asked for with the request that describes it. */
  datatype Screen = Screen(state: State, asked: Option<(ToolCall, Request)>)

  /** What a screen should show of the data. */
  function Display(d: Data): Screen {
    Screen(d.state,
           if d.pendingTool.None? then None
           else Some((d.pendingTool.value, if d.pendingPermission.None? then NoRequest else d.pendingPermission.value)))
  }

  /** The screen of a consumer after reading `notes`. */
  function Shown(before: Screen, notes: seq<Notification>): Screen {
    if notes == [] then before
    else
      var shown := Shown(before, notes[..|notes| - 1]);
      match notes[|notes| - 1]
      case StateChanged(state) => shown.(state := state)
      case ApprovalRequested(call, request) => shown.(asked := Some((call, request)))
      case ApprovalCleared => shown.(asked := None)
      case Appended(_) => shown
  }

  /** The emitter knows what is on show: whether anything is, and what, unless it was just decided. */
  predicate InStep(m: Mark, shown: Screen) {
    && m.hasApproval == shown.asked.Some?
    && (m.lastCall.Some? ==> shown.asked.Some? && m.lastCall.value == shown.asked.value.0)
  }

  /** A call that is pending still is described as it was. */
  predicate Steady(m: Mark, shown: Screen, d: Data) {
    m.lastCall.Some? && m.lastCall == d.pendingTool ==> shown.asked == Display(d).asked
  }

  lemma {:induction false} ShownConcat(before: Screen, a: seq<Notification>, b: seq<Notification>)
    ensures Shown(before, a + b) == Shown(Shown(before, a), b)
  {
    if b == [] {
      assert a + b == a;
    } else {
      ShownConcat(before, a, b[..|b| - 1]);
      assert (a + b)[..|a + b| - 1] == a + b[..|b| - 1];
    }
  }

  lemma {:induction false} MessagesDoNotShow(before: Screen, messages: seq<Message>)
    ensures Shown(before, MessageNotes(messages)) == before
  {
    if messages != [] {
      var front := messages[..|messages| - 1];
      MessagesDoNotShow(before, front);
      assert MessageNotes(messages)[..|messages| - 1] == MessageNotes(front);
    }
  }

  lemma OneNoteShows(before: Screen, note: Notification)
    ensures Shown(before, [note]) ==
            match note
            case StateChanged(state) => before.(state := state)
            case ApprovalRequested(call, request) => before.(asked := Some((call, request)))
            case ApprovalCleared => before.(asked := None)
            case Appended(_) => before
  {
    assert [note][..0] == [];
  }

  /** After every snapshot the consumer shows exactly that snapshot. */
  lemma SnapshotIsShown(m: Mark, d: Data, shown: Screen)
    requires InStep(m, shown) && Steady(m, shown, d)
    ensures Shown(shown, Notes(m, d)) == Display(d)
    ensures InStep(Emitted(m, d), Display(d))
  {
    var approval := ApprovalNotes(m, d);
    ShownConcat(shown, [StateChanged(d.state)] + approval, MessageNotes(Unemitted(m, d.messages)));
    ShownConcat(shown, [StateChanged(d.state)], approval);
    OneNoteShows(shown, StateChanged(d.state));
    if approval != [] {
      OneNoteShows(shown.(state := d.state), approval[0]);
      assert approval == [approval[0]];
    }
    MessagesDoNotShow(Display(d), Unemitted(m, d.messages));
  }

  /** A repeated snapshot says nothing new; after a decision an equal pending call is asked about again. */
  lemma RepeatIsSilentUnlessConsumed(m: Mark, d: Data)
    ensures Notes(Emitted(m, d), d) == [StateChanged(d.state)]
    ensures d.pendingTool.Some? ==>
              ApprovalNotes(Consumed(Emitted(m, d)), d)
              == [ApprovalRequested(d.pendingTool.value, Display(d).asked.value.1)]
  {
  }

  /** The messages that were published. */
  function Published(notes: seq<Notification>): seq<Message> {
    if notes == [] then []
    else
      var front, last := Published(notes[..|notes| - 1]), notes[|notes| - 1];
      if last.Appended? then front + [last.message] else front
  }

  lemma {:induction false} PublishedConcat(a: seq<Notification>, b: seq<Notification>)
    ensures Published(a + b) == Published(a) + Published(b)
  {
    if b == [] {
      assert a + b == a;
    } else {
      PublishedConcat(a, b[..|b| - 1]);
      assert (a + b)[..|a + b| - 1] == a + b[..|b| - 1];
    }
  }

  lemma {:induction false} MessagesArePublished(messages: seq<Message>)
    ensures Published(MessageNotes(messages)) == messages
  {
    if messages != [] {
      var front := messages[..|messages| - 1];
      MessagesArePublished(front);
      assert MessageNotes(messages)[..|messages| - 1] == MessageNotes(front);
    }
  }

  lemma OneNotePublishesNothing(note: Notification)
    requires !note.Appended?
    ensures Published([note]) == []
  {
    assert [note][..0] == [];
  }

  /** A snapshot publishes exactly the messages behind the mark. */
  lemma SnapshotPublishes(m: Mark, d: Data)
    ensures Published(Notes(m, d)) == Unemitted(m, d.messages)
  {
    var approval := ApprovalNotes(m, d);
    PublishedConcat([StateChanged(d.state)] + approval, MessageNotes(Unemitted(m, d.messages)));
    PublishedConcat([StateChanged(d.state)], approval);
    OneNotePublishesNothing(StateChanged(d.state));
    if approval != [] {
      OneNotePublishesNothing(approval[0]);
      assert approval == [approval[0]];
    }
    MessagesArePublished(Unemitted(m, d.messages));
  }

  /** `Skip` moves the mark alone, behind a rewrite that is stored already. */
  datatype EmitterStep = Snapshot(data: Data) | Decide | Rearm(emitted: nat) | Skip(emitted: nat)

  /** A reset or a new emitter comes while nothing is on show, and a pending call keeps its description. */
  predicate Orderly(m: Mark, shown: Screen, steps: seq<EmitterStep>)
    decreases |steps|
  {
    steps == []
    || (&& (steps[0].Rearm? ==> !m.hasApproval) && (steps[0].Snapshot? ==> Steady(m, shown, steps[0].data))
        && Orderly(After(m, steps[0]), Latest(shown, steps[0]), steps[1..]))
  }

  function After(m: Mark, step: EmitterStep): Mark {
    match step
    case Snapshot(d) => Emitted(m, d)
    case Decide => Consumed(m)
    case Rearm(n) => Mark(n, false, None)
    case Skip(n) => m.(emitted := n)
  }

  function Latest(shown: Screen, step: EmitterStep): Screen {
    if step.Snapshot? then Display(step.data) else shown
  }

  function Stream(m: Mark, steps: seq<EmitterStep>): seq<Notification>
    decreases |steps|
  {
    if steps == [] then []
    else (if steps[0].Snapshot? then Notes(m, steps[0].data) else []) + Stream(After(m, steps[0]), steps[1..])
  }

  /** What the newest snapshot shows. */
  function Newest(before: Screen, steps: seq<EmitterStep>): Screen
    decreases |steps|
  {
    if steps == [] then before else Newest(Latest(before, steps[0]), steps[1..])
  }

  /** Over every such stream of snapshots, decisions and re-arms the consumer shows the newest snapshot. */
  lemma {:induction false} ConsumerFollowsSnapshots(m: Mark, steps: seq<EmitterStep>, shown: Screen)
    requires InStep(m, shown) && Orderly(m, shown, steps)
    ensures Shown(shown, Stream(m, steps)) == Newest(shown, steps)
    decreases |steps|
  {
    if steps != [] {
      var next := After(m, steps[0]);
      var rest := Stream(next, steps[1..]);
      match steps[0] {
        case Snapshot(d) =>
          SnapshotIsShown(m, d, shown);
          ShownConcat(shown, Notes(m, d), rest);
          ConsumerFollowsSnapshots(next, steps[1..], Display(d));
        case _ =>
          ConsumerFollowsSnapshots(next, steps[1..], shown);
          assert [] + rest == rest;
      }
    }
  }

  // ----- The emitter object -----

  class Emitter {
    var emittedMessages: nat
    var hasApproval: bool
    var lastApprovalCall: Option<ToolCall>

    ghost function Value(): Mark
      reads this
    {
      Mark(emittedMessages, hasApproval, lastApprovalCall)
    }

    constructor (emittedMessages: nat)
      ensures Value() == Mark(emittedMessages, false, None)
    {
      this.emittedMessages, hasApproval, lastApprovalCall := emittedMessages, false, None;
    }

    method MarkApprovalConsumed()
      modifies this
      ensures Value() == Consumed(old(Value()))
    {
      lastApprovalCall := None;
    }

    method Reset(emittedMessages: nat)
      modifies this
      ensures Value() == Mark(emittedMessages, false, None)
    {
      this.emittedMessages, hasApproval, lastApprovalCall := emittedMessages, false, None;
    }

    /** State, then approval, then messages; every message is published and saved once. */
    method Emit(d: Data, repository: Repository, id: string) returns (notes: seq<Notification>)
      requires id in repository.logs
      modifies this, repository`logs
      ensures notes == Notes(old(Value()), d) && Value() == Emitted(old(Value()), d)
      ensures repository.logs
           == old(repository.logs)[id := old(repository.logs)[id] + RecordsFor(Unemitted(old(Value()), d.messages))]
    {
      notes := [StateChanged(d.state)];
      if d.pendingTool.Some? {
        if !hasApproval || lastApprovalCall.None? || lastApprovalCall != d.pendingTool {
          var request := if d.pendingPermission.Some? then d.pendingPermission.value else NoRequest;
          notes := notes + [ApprovalRequested(d.pendingTool.value, request)];
          lastApprovalCall, hasApproval := d.pendingTool, true;
        }
      } else {
        if hasApproval {
          notes := notes + [ApprovalCleared];
        }
        hasApproval, lastApprovalCall := false, None;
      }
      assert notes == [StateChanged(d.state)] + ApprovalNotes(old(Value()), d);
      if emittedMessages > |d.messages| {
        emittedMessages := 0;
      }
      var rest := d.messages[emittedMessages..];
      notes := PublishAll(rest, notes, repository, id);
      emittedMessages := |d.messages|;
    }

    method PublishAll(messages: seq<Message>, before: seq<Notification>, repository: Repository, id: string)
      returns (notes: seq<Notification>)
      requires id in repository.logs
      modifies repository`logs
      ensures notes == before + MessageNotes(messages)
      ensures repository.logs == old(repository.logs)[id := old(repository.logs)[id] + RecordsFor(messages)]
    {
      notes := before;
      ghost var log := repository.logs[id];
      assert log + RecordsFor(messages[..0]) == log && before + MessageNotes(messages[..0]) == before;
      for i := 0 to |messages|
        invariant notes == before + MessageNotes(messages[..i])
        invariant id in repository.logs && repository.logs == old(repository.logs)[id := log + RecordsFor(messages[..i])]
      {
        assert messages[..i + 1][..i] == messages[..i];
        assert MessageNotes(messages[..i + 1]) == MessageNotes(messages[..i]) + [Appended(messages[i])];
        notes := notes + [Appended(messages[i])];
        repository.SaveMessage(id, messages[i]);
        assert log + RecordsFor(messages[..i]) + [RecordFor(messages[i])] == log + RecordsFor(messages[..i + 1]);
      }
      assert messages[..|messages|] == messages;
    }
  }
}
