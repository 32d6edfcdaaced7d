/** How a connection's history ends: which terminal record it has, and what that names. */
module Endings {
  import opened Wire
  import opened Transport
  import opened Machine
  import opened Accountability

  /** Revocation, or a close for being closed or revoked: the host's own doing. */
  predicate ByHost(input: Input) {
    input == Revoke || input == Close(Error.Closed) || input == Close(Error.Revoked)
  }

  /** A completion that brings the importer a whole header. */
  predicate BringsHeader(m: State, input: Input) {
    && m.closed.None? && m.stage.Header? && m.active.data.Some?
    && input.Completed? && input.op == m.active.data.value.op && input.result.Bytes?
    && m.active.data.value.effect.Transfers()
    && 0 < input.result.count <= m.active.data.value.effect.length
    && HEADER_BYTES <= m.offsets.data + input.result.count && HEADER_BYTES <= |input.buffer|
  }

  /** The last sequence the connection has seen: of a source item, of a frame the exporter was
      provided, or in a header the importer read, whatever it then made of it. */
  function Seen(m: State, event: Event, was: Option<U64>): Option<U64>
    requires Inv(m)
  {
    match event
    case ObserveSource(sequence) => Some(sequence)
    case Receive(input) =>
      if input.Provided? && Apply(m, input).error.None? then Some(input.sequence)
      else if BringsHeader(m, input) then Some(HeaderSequence(input.buffer[..HEADER_BYTES]))
      else was
  }

  function AllSeen(m: State, events: seq<Event>, was: Option<U64>): Option<U64>
    requires Inv(m)
    decreases |events|
  {
    if events == [] then was
    else AllSeen(Tracked(m, NEW_ACCOUNT, events[0]).0, events[1..], Seen(m, events[0], was))
  }

  lemma SameMachine(m: State, a: Account, b: Account, event: Event)
    requires Inv(m)
    ensures Tracked(m, a, event).0 == Tracked(m, b, event).0
  {
  }

  // --- Notes ---

  /** The note a transition takes of a sequence, if any, comes first and is the one seen. */
  lemma CompleteSees(m: State, lane: Lane, op: OpId, result: IoResult, buffer: seq<Byte>, a: Account)
    requires Inv(m) && m.closed.None? && m.active.Get(lane).Some? && m.active.Get(lane).value.op == op
    ensures var (notes, input) := (Complete(m, lane, result, buffer).notes, Completed(op, result, buffer));
            AllNoted(a, notes).sequence
            == if BringsHeader(m, input) then Some(HeaderSequence(buffer[..HEADER_BYTES])) else a.sequence
  {
    hide HeaderAddresses, HeaderSequence, HeaderRevision, HeaderLength, Follows, AllNoted;
    var notes := Complete(m, lane, result, buffer).notes;
    NoNotes(a);
    if notes != [] { OneNote(a, notes[0]); }
    LaneOfOp(m, lane, op);
  }

  lemma LaneOfOp(m: State, lane: Lane, op: OpId)
    requires Inv(m) && m.active.Get(lane).Some? && m.active.Get(lane).value.op == op
    ensures m.active.data.Some? && m.active.data.value.op == op ==> lane.Data?
    ensures FirstLane(m.active, op) == Some(lane)
  {
    hide Demand, Bounds;
  }

  lemma TransitionSees(m: State, input: Input, a: Account)
    requires Inv(m) && m.closed.None?
    ensures AllNoted(a, Transition(m, input).notes).sequence == Seen(m, Event.Receive(input), a.sequence)
  {
    hide AllNoted, Complete, Demand, HeaderSequence;
    NoNotes(a);
    match input {
      case Provided(sequence, _) => TwoNotes(a, Observe(sequence), NoteAdmitted);
      case Admitted => OneNote(a, NoteAdmitted);
      case Completed(op, result, buffer) =>
        var lane := FirstLane(m.active, op);
        if lane.Some? { CompleteSees(m, lane.value, op, result, buffer, a); }
      case _ =>
    }
  }

  // --- The closing event ---

  /** The event closes an open connection: its history gains exactly one record, a cancellation
      if the host closed it and otherwise a rejection with the reason it closed for, naming the
      last sequence seen. */
  lemma ClosingEvent(m: State, a: Account, event: Event)
    requires Inv(m) && m.closed.None? && Tracks(m, a) && Allowed(m, event)
    ensures Tracked(m, a, event).0.closed.None? ==> Tracked(m, a, event).1.sequence == Seen(m, event, a.sequence)
    ensures Tracked(m, a, event).0.closed.Some? ==>
              && event.Receive? && Tracked(m, a, event).1.terminal
              && EndsWith(Tracked(m, a, event).1.history,
                          if ByHost(event.input) then Cancelled
                          else Outcome.Rejected(Tracked(m, a, event).0.closed.value),
                          Seen(m, event, a.sequence))
  {
    if event.Receive? {
      var input := event.input;
      ApplyKeepsInv(m, input);
      TransitionSees(m, input, a);
      TransitionTracks(m, a, input);
      hide PhaseOf, AllNoted, Transition, Seen, Tracks;
      var (step, notes) := (Apply(m, input), Transition(m, input).notes);
      if step.next.closed.Some? {
        var end := step.notes[|notes|];
        assert step.notes == notes + [end];
        NotesCompose(a, notes, [end]);
        OneNote(AllNoted(a, notes), end);
      } else {
        assert step.notes == notes;
      }
    }
  }

  /** The note neither opens nor closes a history. */
  predicate Plain(note: Note) { !note.NoteRejected? && !note.NoteCancelled? }

  lemma {:induction false} PlainNotes(a: Account, notes: seq<Note>)
    requires forall k :: 0 <= k < |notes| ==> Plain(notes[k])
    ensures AllNoted(a, notes).terminal == a.terminal
    decreases |notes|
  {
    if notes != [] { PlainNotes(Accountability.Noted(a, notes[0]), notes[1..]); }
  }

  lemma TransitionIsPlain(m: State, input: Input)
    requires Inv(m)
    ensures forall k :: 0 <= k < |Transition(m, input).notes| ==> Plain(Transition(m, input).notes[k])
  {
    hide HeaderAddresses, HeaderSequence, HeaderRevision, HeaderLength, Follows, Inv, FirstLane, EffectOf;
  }

  /** Whatever the machine and its history so far, an input after which the link is closed leaves
      an unended history with one terminal record: a cancellation if the host closed it, and
      otherwise a rejection with the reason the link has closed for. */
  lemma LastRecord(m: State, a: Account, input: Input)
    requires Inv(m) && !a.terminal && Apply(m, input).next.closed.Some?
    ensures var b := AllNoted(a, Apply(m, input).notes);
            && b.terminal
            && EndsWith(b.history, if ByHost(input) then Cancelled
                                   else Outcome.Rejected(Apply(m, input).next.closed.value), b.sequence)
  {
    var (step, notes) := (Apply(m, input), Transition(m, input).notes);
    TransitionIsPlain(m, input);
    PlainNotes(a, notes);
    hide AllNoted, Transition, Plain, Inv;
    var end := step.notes[|notes|];
    assert step.notes == notes + [end];
    NotesCompose(a, notes, [end]);
    OneNote(AllNoted(a, notes), end);
  }

  predicate EndsWith(history: seq<FrameRecord>, outcome: Outcome, sequence: Option<U64>) {
    history != [] && history[|history| - 1] == FrameRecord(sequence, outcome)
  }

  lemma {:induction false} ClosedStays(m: State, a: Account, events: seq<Event>)
    requires Inv(m) && m.closed.Some? && a.terminal
    ensures AfterEvents(m, a, events).0.closed == m.closed && AfterEvents(m, a, events).1.history == a.history
    decreases |events|
  {
    if events != [] {
      if events[0].Receive? {
        ClosureIsFinal(m, events[0].input);
        TerminalIsFinal(a, Apply(m, events[0].input).notes);
      }
      hide Apply, AllNoted;
      ClosedStays(Tracked(m, a, events[0]).0, Tracked(m, a, events[0]).1, events[1..]);
    }
  }

  /** Which event closed the connection, and the record its history therefore ends with. */
  lemma {:induction false} EndingOf(m: State, a: Account, events: seq<Event>) returns (k: nat)
    requires Inv(m) && m.closed.None? && Tracks(m, a) && AllAllowed(m, a, events)
    requires AfterEvents(m, a, events).0.closed.Some?
    ensures k < |events| && events[k].Receive? && AfterEvents(m, a, events[..k]).0.closed.None?
    ensures var (end, account) := AfterEvents(m, a, events);
            && AfterEvents(m, a, events[..k + 1]).0.closed == end.closed
            && EndsWith(account.history,
                        if ByHost(events[k].input) then Cancelled else Outcome.Rejected(end.closed.value),
                        AllSeen(m, events[..k + 1], a.sequence))
    decreases |events|
  {
    var (next, account) := Tracked(m, a, events[0]);
    ClosingEvent(m, a, events[0]);
    EventTracks(m, a, events[0]);
    SameMachine(m, a, NEW_ACCOUNT, events[0]);
    hide Tracked, Tracks, Seen, EndsWith, PhaseOf;
    if next.closed.Some? {
      k := 0;
      ClosedStays(next, account, events[1..]);
      assert events[..1][1..] == [] && events[..1][0] == events[0] && events[..0] == [];
      AfterOne(m, a, events[..1]);
      assert AllSeen(m, events[..1], a.sequence) == Seen(m, events[0], a.sequence);
    } else {
      var later := EndingOf(next, account, events[1..]);
      k := later + 1;
      assert events[..k][1..] == events[1..][..k - 1] && events[..k + 1][1..] == events[1..][..k];
    }
  }

  lemma AfterOne(m: State, a: Account, events: seq<Event>)
    requires Inv(m) && |events| == 1
    ensures AfterEvents(m, a, events) == Tracked(m, a, events[0])
  {
    assert events[1..] == [];
  }

  /** Over the whole life of a connection that ends closed, its last record is a cancellation if
      a revocation or a close for Closed or Revoked closed it, and otherwise a rejection with the
      very error it closed for; either names the last sequence the connection had seen. */
  lemma ConnectionEnding(contract: Contract, direction: Direction, capacity: nat, events: seq<Event>) returns (k: nat)
    requires ValidCapacity(capacity) && AllAllowed(Fresh(contract, direction, capacity), NEW_ACCOUNT, events)
    requires AfterEvents(Fresh(contract, direction, capacity), NEW_ACCOUNT, events).0.closed.Some?
    ensures var m := Fresh(contract, direction, capacity);
            var (end, account) := AfterEvents(m, NEW_ACCOUNT, events);
            && k < |events| && events[k].Receive? && AfterEvents(m, NEW_ACCOUNT, events[..k]).0.closed.None?
            && account.history != []
            && var last := account.history[|account.history| - 1];
               && last.sequence == AllSeen(m, events[..k + 1], None)
               && (events[k].input in {Revoke, Close(Error.Closed), Close(Error.Revoked)} ==> last.outcome == Cancelled)
               && (events[k].input !in {Revoke, Close(Error.Closed), Close(Error.Revoked)} ==>
                     last.outcome == Outcome.Rejected(end.closed.value))
  {
    k := EndingOf(Fresh(contract, direction, capacity), NEW_ACCOUNT, events);
  }
}
