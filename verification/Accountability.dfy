/** One connection's bounded history and the order its records always have. */
module Accountability {
  import opened Wire
  import opened Transport
  import opened Machine
  import Records

  /** Assigned by the host, never read from the peer. */
  datatype Connection = Connection(id: U64, generation: U64)

  datatype Outcome = FrameAdmitted | FrameCompleted | Rejected(error: Error) | Cancelled

  datatype FrameRecord = FrameRecord(sequence: Option<U64>, outcome: Outcome)

  datatype Record = Record(connection: Connection, contract: Contract, direction: Direction,
                           sequence: Option<U64>, outcome: Outcome)

  /** The history without its bound: every record ever pushed. */
  datatype Account = Account(sequence: Option<U64>, terminal: bool, history: seq<FrameRecord>)

  const NEW_ACCOUNT: Account := Account(None, false, [])

  function Recorded(a: Account, sequence: Option<U64>, outcome: Outcome): Account {
    if a.terminal then a else a.(history := a.history + [FrameRecord(sequence, outcome)])
  }

  function Noted(a: Account, note: Note): Account {
    match note
    case Observe(sequence) => a.(sequence := Some(sequence))
    case NoteAdmitted => Recorded(a, a.sequence, FrameAdmitted)
    case NoteCompleted(sequence) => Recorded(a, Some(sequence), FrameCompleted)
    case NoteRejected(error) => Recorded(a, a.sequence, Outcome.Rejected(error)).(terminal := true)
    case NoteCancelled => Recorded(a, a.sequence, Cancelled).(terminal := true)
  }

  function AllNoted(a: Account, notes: seq<Note>): Account
    decreases |notes|
  {
    if |notes| == 0 then a else AllNoted(Noted(a, notes[0]), notes[1..])
  }

  const HISTORY: nat := 8

  /** At most eight records survive until they are drained. */
  class Ledger {
    const connection: Connection
    const contract: Contract
    const direction: Direction
    const records: Records.Ring<FrameRecord>
    var sequence: Option<U64>
    var terminal: bool
    ghost var history: seq<FrameRecord>

    ghost function Repr(): set<object>
      reads this
    {
      {this, records, records.entries}
    }

    ghost predicate Valid()
      reads this, records, records.entries
    {
      records.Valid() && records.Model().capacity == HISTORY
    }

    ghost function Model(): Account
      reads this
    {
      Account(sequence, terminal, history)
    }

    constructor (connection: Connection, contract: Contract, direction: Direction)
      ensures Valid() && fresh(Repr())
      ensures Model() == NEW_ACCOUNT && records.Model() == Records.Queue(HISTORY, [], 0)
      ensures this.connection == connection && this.contract == contract && this.direction == direction
    {
      this.connection, this.contract, this.direction := connection, contract, direction;
      records := new Records.Ring<FrameRecord>(HISTORY);
      sequence, terminal, history := None, false, [];
    }

    method Pop() returns (record: Option<Record>)
      requires Valid()
      modifies records, records.entries
      ensures Valid()
      ensures var (queue, popped) := Records.Popped(old(records.Model()));
              && records.Model() == queue
              && record == (match popped
                            case None => None
                            case Some(r) => Some(Record(connection, contract, direction, r.sequence, r.outcome)))
    {
      var popped := records.Pop();
      match popped {
        case None => record := None;
        case Some(r) => record := Some(Record(connection, contract, direction, r.sequence, r.outcome));
      }
    }

    method Observe(sequence: U64)
      modifies `sequence
      ensures Model() == Noted(old(Model()), Note.Observe(sequence))
    {
      this.sequence := Some(sequence);
    }

    /** The ring takes exactly the records the unbounded history takes. */
    method Push(sequence: Option<U64>, outcome: Outcome)
      requires Valid()
      modifies this, records, records.entries
      ensures Valid()
      ensures Model() == Recorded(old(Model()), sequence, outcome)
      ensures records.Model() == if old(terminal) then old(records.Model())
                                 else Records.Pushed(old(records.Model()), FrameRecord(sequence, outcome))
    {
      if !terminal {
        records.Push(FrameRecord(sequence, outcome));
        history := history + [FrameRecord(sequence, outcome)];
      }
    }

    method Admitted()
      requires Valid()
      modifies this, records, records.entries
      ensures Valid()
      ensures Model() == Noted(old(Model()), NoteAdmitted)
    {
      Push(sequence, FrameAdmitted);
    }

    method Completed(sequence: U64)
      requires Valid()
      modifies this, records, records.entries
      ensures Valid()
      ensures Model() == Noted(old(Model()), NoteCompleted(sequence))
    {
      Push(Some(sequence), FrameCompleted);
    }

    method Finish(error: Error)
      requires Valid()
      modifies this, records, records.entries
      ensures Valid()
      ensures Model() == Noted(old(Model()), NoteRejected(error))
    {
      Push(sequence, Outcome.Rejected(error));
      terminal := true;
    }

    method Cancel()
      requires Valid()
      modifies this, records, records.entries
      ensures Valid()
      ensures Model() == Noted(old(Model()), NoteCancelled)
    {
      Push(sequence, Cancelled);
      terminal := true;
    }
  }

  // --- The order of records on one connection ---

  datatype Phase = Between | InFlight(sequence: U64) | Ended

  function Advance(phase: Phase, record: FrameRecord): Option<Phase> {
    match record.outcome
    case FrameAdmitted => if phase.Between? && record.sequence.Some? then Some(InFlight(record.sequence.value))
      else None
    case FrameCompleted => if phase.InFlight? && record.sequence == Some(phase.sequence) then Some(Between) else None
    case Rejected(_) => if phase.Ended? then None else Some(Ended)
    case Cancelled => if phase.Ended? then None else Some(Ended)
  }

  /** Reads a history as alternating admissions and completions of the same
      sequence, closed by at most one terminal record; None if it is anything else. */
  function PhaseOf(history: seq<FrameRecord>): Option<Phase> {
    if |history| == 0 then Some(Between)
    else
      match PhaseOf(history[..|history| - 1])
      case None => None
      case Some(phase) => Advance(phase, history[|history| - 1])
  }

  lemma {:induction false} PhaseStep(history: seq<FrameRecord>, record: FrameRecord)
    requires PhaseOf(history).Some?
    ensures PhaseOf(history + [record]) == Advance(PhaseOf(history).value, record)
  {
    assert (history + [record])[..|history|] == history;
  }

  predicate Terminal(record: FrameRecord) {
    record.outcome.Rejected? || record.outcome.Cancelled?
  }

  /** What an accepted reading says of any two neighbouring records. */
  lemma {:induction false} PhaseMeaning(history: seq<FrameRecord>, i: nat)
    requires PhaseOf(history).Some? && i < |history|
    ensures history[i].outcome.FrameCompleted? <==>
              && 0 < i && history[i - 1].outcome.FrameAdmitted? && !Terminal(history[i])
    ensures history[i].outcome.FrameCompleted? ==> history[i].sequence == history[i - 1].sequence
    ensures Terminal(history[i]) <==> i == |history| - 1 && PhaseOf(history) == Some(Ended)
    decreases |history|
  {
    var shorter := history[..|history| - 1];
    if i < |shorter| {
      PhaseMeaning(shorter, i);
    } else if 0 < |shorter| {
      PhaseMeaning(shorter, |shorter| - 1);
    }
  }

  /** Where the history stands, read off the machine that wrote it. */
  function Expected(m: State): Phase {
    if m.closed.Some? then Ended
    else if m.direction.Export? then (if m.stage.Source? then Between else InFlight(m.sequence))
    else if m.credited && m.previous.Some? then InFlight(m.previous.value)
    else Between
  }

  predicate Tracks(m: State, a: Account) {
    && PhaseOf(a.history) == Some(Expected(m))
    && a.terminal == m.closed.Some?
    && (m.closed.None? && (m.stage.Payload? || m.stage.Admission?) ==> a.sequence == Some(m.sequence))
  }

  /** What can happen to a tracked connection. A source item is observed only
      before its frame is provided, by an exporter waiting for one. */
  datatype Event = Receive(input: Input) | ObserveSource(sequence: U64)

  predicate Allowed(m: State, event: Event) {
    event.ObserveSource? ==> m.direction.Export? && m.stage.Source?
  }

  function Tracked(m: State, a: Account, event: Event): (next: (State, Account))
    requires Inv(m)
    ensures Inv(next.0)
  {
    match event
    case ObserveSource(sequence) => (m, Noted(a, Observe(sequence)))
    case Receive(input) =>
      ApplyKeepsInv(m, input);
      var step := Apply(m, input);
      (step.next, AllNoted(a, step.notes))
  }

  /** Appending one record to a tracked history that has not ended. */
  lemma {:induction false} RecordedPhase(a: Account, sequence: Option<U64>, outcome: Outcome)
    requires PhaseOf(a.history).Some? && !a.terminal
    ensures PhaseOf(Recorded(a, sequence, outcome).history)
            == Advance(PhaseOf(a.history).value, FrameRecord(sequence, outcome))
  {
    PhaseStep(a.history, FrameRecord(sequence, outcome));
  }

  lemma {:induction false} NoNotes(a: Account)
    ensures AllNoted(a, []) == a
  {
  }

  lemma {:induction false} OneNote(a: Account, note: Note)
    ensures AllNoted(a, [note]) == Noted(a, note)
  {
    assert [note][1..] == [];
    assert AllNoted(Noted(a, note), []) == Noted(a, note);
  }

  lemma {:induction false} TwoNotes(a: Account, first: Note, second: Note)
    ensures AllNoted(a, [first, second]) == Noted(Noted(a, first), second)
  {
    assert [first, second][1..] == [second];
    OneNote(Noted(a, first), second);
  }

  lemma {:induction false} NotesCompose(a: Account, first: seq<Note>, second: seq<Note>)
    ensures AllNoted(a, first + second) == AllNoted(AllNoted(a, first), second)
    decreases |first|
  {
    if |first| == 0 {
      assert first + second == second;
    } else {
      NotesCompose(Noted(a, first[0]), first[1..], second);
      assert (first + second)[1..] == first[1..] + second;
    }
  }

  /** A history that has not ended, and is where the still open machine says. */
  predicate Midway(m: State, a: Account) {
    && !a.terminal
    && PhaseOf(a.history).Some? && !PhaseOf(a.history).value.Ended?
    && (m.closed.None? ==> Tracks(m, a))
  }

  lemma {:induction false} ProvidedTracks(m: State, a: Account, sequence: U64, length: nat)
    requires Inv(m) && m.closed.None? && Tracks(m, a)
    ensures var step := Transition(m, Provided(sequence, length));
            Midway(Settled(step), AllNoted(a, step.notes))
  {
    hide PhaseOf, AllNoted;
    NoNotes(a);
    TwoNotes(a, Observe(sequence), NoteAdmitted);
    RecordedPhase(Noted(a, Observe(sequence)), Some(sequence), FrameAdmitted);
  }

  lemma {:induction false} AdmittedTracks(m: State, a: Account)
    requires Inv(m) && m.closed.None? && Tracks(m, a)
    ensures var step := Transition(m, Admitted);
            Midway(Settled(step), AllNoted(a, step.notes))
  {
    hide PhaseOf, AllNoted;
    NoNotes(a);
    OneNote(a, NoteAdmitted);
    RecordedPhase(a, a.sequence, FrameAdmitted);
  }

  lemma {:induction false} HeaderTracks(m: State, a: Account, header: seq<Byte>)
    requires m.closed.None? && m.stage.Header? && m.direction.Import? && Tracks(m, a)
    requires |header| == HEADER_BYTES
    ensures var step := ParseHeader(m, header);
            Midway(Settled(step), AllNoted(a, step.notes))
  {
    hide PhaseOf, AllNoted;
    NoNotes(a);
    OneNote(a, Observe(HeaderSequence(header)));
  }

  lemma {:induction false} ProgressTracks(m: State, a: Account, lane: Lane, count: nat, buffer: seq<Byte>)
    requires Ready(m, lane, count) && Tracks(m, a)
    ensures var step := Progress(m.(offsets := m.offsets.Set(lane, m.offsets.Get(lane) + count)), lane, buffer);
            Midway(Settled(step), AllNoted(a, step.notes))
  {
    hide PhaseOf, AllNoted;
    NoNotes(a);
    hide HeaderAddresses, HeaderSequence, HeaderRevision, HeaderLength;
    var moved := m.(offsets := m.offsets.Set(lane, m.offsets.Get(lane) + count));
    match lane
    case Data =>
      if m.stage.Header? {
        if HEADER_BYTES <= moved.offsets.data && HEADER_BYTES <= |buffer| {
          HeaderTracks(moved, a, buffer[..HEADER_BYTES]);
        }
      } else {
        OneNote(a, NoteCompleted(m.sequence));
        RecordedPhase(a, Some(m.sequence), FrameCompleted);
      }
    case CreditSend =>
      OneNote(a, NoteCompleted(m.previous.value));
      RecordedPhase(a, m.previous, FrameCompleted);
    case CreditReceive =>
      OneNote(a, NoteCompleted(m.sequence));
      RecordedPhase(a, Some(m.sequence), FrameCompleted);
  }

  lemma {:induction false} CompleteTracks(m: State, a: Account, lane: Lane, result: IoResult, buffer: seq<Byte>)
    requires Inv(m) && m.closed.None? && m.active.Get(lane).Some? && Tracks(m, a)
    ensures var step := Complete(m, lane, result, buffer);
            Midway(Settled(step), AllNoted(a, step.notes))
  {
    hide PhaseOf, AllNoted;
    NoNotes(a);
    hide Progress;
    assert LaneInv(m, lane);
    IdleKeepsInv(m, lane);
    var idle := m.(active := m.active.Set(lane, None));
    if result.Bytes? && 0 < result.count <= m.active.Get(lane).value.effect.length {
      ProgressTracks(idle, a, lane, result.count, buffer);
    }
  }

  lemma {:induction false} TransitionTracks(m: State, a: Account, input: Input)
    requires Inv(m) && m.closed.None? && Tracks(m, a)
    ensures var step := Transition(m, input);
            Midway(Settled(step), AllNoted(a, step.notes))
  {
    hide PhaseOf, AllNoted;
    NoNotes(a);
    match input {
      case Provided(sequence, length) => ProvidedTracks(m, a, sequence, length);
      case Admitted => AdmittedTracks(m, a);
      case Completed(op, result, buffer) =>
        if FirstLane(m.active, op).Some? {
          CompleteTracks(m, a, FirstLane(m.active, op).value, result, buffer);
        }
      case _ =>
    }
  }

  lemma {:induction false} TerminalIsFinal(a: Account, notes: seq<Note>)
    requires a.terminal
    ensures AllNoted(a, notes).terminal && AllNoted(a, notes).history == a.history
    decreases |notes|
  {
    if |notes| > 0 { TerminalIsFinal(Noted(a, notes[0]), notes[1..]); }
  }

  /** One event keeps the history in step with the machine, and a closing event
      writes the one record that ends it. */
  lemma {:induction false} EventTracks(m: State, a: Account, event: Event)
    requires Inv(m) && Tracks(m, a) && Allowed(m, event)
    ensures Tracks(Tracked(m, a, event).0, Tracked(m, a, event).1)
  {
    hide PhaseOf, AllNoted;
    NoNotes(a);
    if event.Receive? {
      hide Transition;
      var input := event.input;
      ApplyKeepsInv(m, input);
      var step := Apply(m, input);
      if m.closed.Some? {
        ClosureIsFinal(m, input);
        TerminalIsFinal(a, step.notes);
      } else {
        TransitionTracks(m, a, input);
        var notes := Transition(m, input).notes;
        if step.next.closed.Some? {
          var end := if HostClosure(input) then NoteCancelled else NoteRejected(step.next.closed.value);
          NotesCompose(a, notes, [end]);
          OneNote(AllNoted(a, notes), end);
          var mid := AllNoted(a, notes);
          RecordedPhase(mid, mid.sequence,
                        if HostClosure(input) then Cancelled else Outcome.Rejected(step.next.closed.value));
        } else {
          assert notes + [] == notes;
        }
      }
    }
  }

  function AfterEvents(m: State, a: Account, events: seq<Event>): (State, Account)
    requires Inv(m)
    decreases |events|
  {
    if |events| == 0 then (m, a)
    else
      var (next, account) := Tracked(m, a, events[0]);
      AfterEvents(next, account, events[1..])
  }

  predicate AllAllowed(m: State, a: Account, events: seq<Event>)
    requires Inv(m)
    decreases |events|
  {
    |events| > 0 ==>
      && Allowed(m, events[0])
      && var (next, account) := Tracked(m, a, events[0]);
         AllAllowed(next, account, events[1..])
  }

  lemma {:induction false} EventsTrack(m: State, a: Account, events: seq<Event>)
    requires Inv(m) && Tracks(m, a) && AllAllowed(m, a, events)
    ensures var (next, account) := AfterEvents(m, a, events); Tracks(next, account)
    decreases |events|
  {
    hide Tracked, Tracks;
    if |events| > 0 {
      EventTracks(m, a, events[0]);
      var (next, account) := Tracked(m, a, events[0]);
      EventsTrack(next, account, events[1..]);
    }
  }

  /** Over the whole life of a connection its records alternate admission and
      completion of one sequence at a time, and a terminal record is there exactly
      when the machine is closed, once, as the last. */
  lemma {:induction false} ConnectionHistory(contract: Contract, direction: Direction, capacity: nat,
                                             events: seq<Event>)
    requires ValidCapacity(capacity)
    requires AllAllowed(Fresh(contract, direction, capacity), NEW_ACCOUNT, events)
    ensures var (m, a) := AfterEvents(Fresh(contract, direction, capacity), NEW_ACCOUNT, events);
            && PhaseOf(a.history).Some?
            && (PhaseOf(a.history).value.Ended? <==> m.closed.Some?)
            && PhaseOf(a.history) == Some(Expected(m))
  {
    EventsTrack(Fresh(contract, direction, capacity), NEW_ACCOUNT, events);
  }
}
