/** The protocol object the driver holds: fields updated in place by each input. */
module Protocol {
  import opened Wire
  import opened Transport
  import opened Machine
  import opened Accountability
  import opened Endings

  /** An effect stays pending until it is accepted, and acceptance is not completion. */
  class Protocol {
    const contract: Contract
    const direction: Direction
    const capacity: nat
    var stage: Stage
    var active: PerLane<Option<Active>>
    var offsets: PerLane<nat>
    var length: nat
    var sequence: U64
    var previous: Option<U64>
    var revision: U32
    var credited: bool
    var closed: Option<Error>
    var accountability: Ledger?

    ghost predicate Valid()
      reads this, Repr()
    {
      Inv(Model()) && (accountability != null ==> accountability.Valid())
    }

    ghost function Repr(): set<object>
      reads this, accountability
    {
      {this} + (if accountability == null then {} else accountability.Repr())
    }

    function Model(): State
      reads this
    {
      State(contract, direction, capacity, stage, active, offsets, length, sequence, previous,
            revision, credited, closed)
    }

    /** The history so far, or an untouched one when the link is not tracked. */
    ghost function Account(): Account
      reads this, accountability
    {
      if accountability == null then NEW_ACCOUNT else accountability.Model()
    }

    /** The notes reach the ledger when there is one, and nothing otherwise. */
    ghost predicate Noted(before: Account, notes: seq<Note>)
      reads this, accountability
    {
      accountability != null ==> Account() == AllNoted(before, notes)
    }

    constructor (contract: Contract, direction: Direction, capacity: nat)
      requires ValidCapacity(capacity)
      ensures Valid() && fresh(Repr())
      ensures Model() == Fresh(contract, direction, capacity) && accountability == null
    {
      this.contract, this.direction, this.capacity := contract, direction, capacity;
      stage := if direction.Import? then Header else Source;
      active, offsets := PerLane(None, None, None), PerLane(0, 0, 0);
      length, sequence, previous := HEADER_BYTES, 0, None;
      revision, credited, closed, accountability := contract.revision, false, None, null;
    }

    constructor WithConnection(contract: Contract, direction: Direction, capacity: nat, connection: Connection)
      requires ValidCapacity(capacity)
      ensures Valid() && fresh(Repr())
      ensures Model() == Fresh(contract, direction, capacity)
      ensures accountability != null && Account() == NEW_ACCOUNT
    {
      this.contract, this.direction, this.capacity := contract, direction, capacity;
      stage := if direction.Import? then Header else Source;
      active, offsets := PerLane(None, None, None), PerLane(0, 0, 0);
      length, sequence, previous := HEADER_BYTES, 0, None;
      revision, credited, closed := contract.revision, false, None;
      accountability := new Ledger(connection, contract, direction);
    }

    function Effect(lane: Lane): Option<Effect>
      requires Inv(Model())
      reads this
    {
      EffectOf(Model(), lane)
    }

    /** The nine bytes the specification stages for the credit lane. */
    function CreditBytes(): (credit: seq<Byte>)
      reads this
      ensures credit == CreditOf(Model())
    {
      CreditFor(if previous.Some? then previous.value else sequence)
    }

    method PopRecord() returns (record: Option<Record>)
      requires Valid()
      modifies Repr()
      ensures Valid() && unchanged(this) && Account() == old(Account())
      ensures accountability == null ==> record == None
      ensures accountability != null ==>
                && var (queue, popped) := Records.Popped(old(accountability.records.Model()));
                && accountability.records.Model() == queue && (record.Some? <==> popped.Some?)
                && (record.Some? ==>
                      && record.value.connection == accountability.connection
                      && record.value.sequence == popped.value.sequence && record.value.outcome == popped.value.outcome)
    {
      record := None;
      if accountability != null {
        record := accountability.Pop();
      }
    }

    method ObserveSequence(sequence: U64)
      requires Valid()
      modifies Repr()
      ensures Valid() && unchanged(this)
      ensures Noted(old(Account()), [Observe(sequence)])
    {
      OneNote(Account(), Observe(sequence));
      if accountability != null { accountability.Observe(sequence); }
    }

    /** One input. An error closes the protocol and ends its history. */
    method Input(input: Input) returns (error: Option<Error>)
      requires Valid()
      modifies Repr()
      ensures Valid() && Repr() == old(Repr())
      ensures Model() == Apply(old(Model()), input).next
      ensures error == Apply(old(Model()), input).error
      ensures Noted(old(Account()), Apply(old(Model()), input).notes)
      ensures accountability != null && closed.Some? && !old(Account()).terminal ==>
                && Account().terminal
                && EndsWith(Account().history, if ByHost(input) then Cancelled else Outcome.Rejected(closed.value),
                            Account().sequence)
    {
      hide Machine.Transition, Inv;
      ghost var before, account := Model(), Account();
      ApplyKeepsInv(before, input);
      error := Transition(input);
      if error.Some? && closed.None? {
        closed := error;
      }
      ghost var notes := Machine.Transition(before, input).notes;
      if closed.Some? {
        if accountability != null {
          if HostClosure(input) {
            accountability.Cancel();
          } else {
            accountability.Finish(closed.value);
          }
        }
        ghost var end := if HostClosure(input) then NoteCancelled else NoteRejected(closed.value);
        OneNote(AllNoted(account, notes), end);
        NotesCompose(account, notes, [end]);
        if !account.terminal { LastRecord(before, account, input); }
      } else {
        assert notes + [] == notes;
      }
    }

    method Transition(input: Input) returns (error: Option<Error>)
      requires Valid()
      modifies Repr()
      ensures Repr() == old(Repr()) && (accountability != null ==> accountability.Valid())
      ensures var step := Machine.Transition(old(Model()), input);
              Model() == step.next && error == step.error && Noted(old(Account()), step.notes)
    {
      hide Machine.Complete, Machine.Progress, AllNoted, LaneInv, DistinctOps, Bounds;
      NoNotes(Account());
      error := None;
      match input {
        case Revoke =>
          if closed.None? { closed := Some(Error.Revoked); }
        case Close(reason) =>
          if closed.None? { closed := Some(reason); }
        case Accepted(lane, op) =>
          var effect := Effect(lane);
          if effect.None? || !effect.value.Transfers() {
            return Some(Error.Protocol);
          }
          if FirstLane(active, op).Some? {
            return Some(Error.Protocol);
          }
          active := active.Set(lane, Some(Active(op, effect.value)));
        case Completed(op, result, buffer) =>
          var found := FirstLane(active, op);
          if found.Some? {
            error := Complete(found.value, result, buffer);
          }
        case Provided(sequence, length) =>
          error := Provide(sequence, length);
        case Admitted =>
          error := Admit();
      }
    }

    method Provide(sequence: U64, length: nat) returns (error: Option<Error>)
      requires Valid()
      modifies Repr()
      ensures Repr() == old(Repr()) && (accountability != null ==> accountability.Valid())
      ensures var step := Machine.Transition(old(Model()), Provided(sequence, length));
              Model() == step.next && error == step.error && Noted(old(Account()), step.notes)
    {
      if closed.Some? {
        return closed;
      }
      if stage != Source || length < HEADER_BYTES || length > capacity {
        return Some(Error.Protocol);
      }
      TwoNotes(Account(), Observe(sequence), NoteAdmitted);
      this.sequence := sequence;
      if accountability != null { accountability.Observe(sequence); }
      this.length := length;
      offsets := offsets.Set(Data, 0);
      credited := false;
      stage := Sending;
      if accountability != null { accountability.Admitted(); }
      return None;
    }

    method Admit() returns (error: Option<Error>)
      requires Valid()
      modifies Repr()
      ensures Repr() == old(Repr()) && (accountability != null ==> accountability.Valid())
      ensures var step := Machine.Transition(old(Model()), Admitted);
              Model() == step.next && error == step.error && Noted(old(Account()), step.notes)
    {
      if closed.Some? {
        return closed;
      }
      if stage != Admission || credited {
        return Some(Error.Protocol);
      }
      OneNote(Account(), NoteAdmitted);
      previous := Some(sequence);
      if accountability != null { accountability.Admitted(); }
      credited := true;
      offsets := offsets.Set(CreditSend, 0);
      offsets := offsets.Set(Data, 0);
      length := HEADER_BYTES;
      stage := Header;
      return None;
    }

    /** The terminal completion of the operation accepted on `lane`. */
    method Complete(lane: Lane, result: IoResult, buffer: seq<Byte>) returns (error: Option<Error>)
      requires Valid() && active.Get(lane).Some?
      modifies Repr()
      ensures Repr() == old(Repr()) && (accountability != null ==> accountability.Valid())
      ensures var step := Machine.Complete(old(Model()), lane, result, buffer);
              Model() == step.next && error == step.error && Noted(old(Account()), step.notes)
    {
      hide Machine.Progress, AllNoted, DistinctOps, Bounds;
      NoNotes(Account());
      assert LaneInv(Model(), lane);
      if closed.None? { SentCreditHasFrame(Model(), lane); }
      var effect := active.Get(lane).value.effect;
      active := active.Set(lane, None);
      if closed.Some? {
        return None;
      }
      match result {
        case Retry => return None;
        case Failed(code) => return Some(Io(code));
        case Bytes(count) =>
          if count == 0 {
            return Some(Error.Closed);
          }
          if count > effect.length {
            return Some(Error.Protocol);
          }
          offsets := offsets.Set(lane, offsets.Get(lane) + count);
          error := Progress(lane, buffer);
      }
    }

    method Progress(lane: Lane, buffer: seq<Byte>) returns (error: Option<Error>)
      requires accountability != null ==> accountability.Valid()
      requires lane.CreditSend? && offsets.creditSend == CREDIT_BYTES ==> previous.Some?
      modifies Repr()
      ensures Repr() == old(Repr()) && (accountability != null ==> accountability.Valid())
      ensures var step := Machine.Progress(old(Model()), lane, buffer);
              Model() == step.next && error == step.error && Noted(old(Account()), step.notes)
    {
      error := None;
      match lane {
        case Data =>
          error := ProgressData(buffer);
        case CreditSend =>
          if offsets.creditSend == CREDIT_BYTES {
            OneNote(Account(), NoteCompleted(previous.value));
            credited := false;
            if accountability != null { accountability.Completed(previous.value); }
          }
        case CreditReceive =>
          if direction.Import? {
            return Some(Error.Protocol);
          }
          if offsets.creditReceive == CREDIT_BYTES {
            if |buffer| < CREDIT_BYTES {
              return Some(Error.Protocol);
            }
            if buffer[0] != 1 || buffer[1..CREDIT_BYTES] != ToLe(sequence, 8) || credited
               || !(stage.Sending? || stage.Credit?) {
              return Some(Error.Protocol);
            }
            OneNote(Account(), NoteCompleted(sequence));
            credited := true;
            offsets := offsets.Set(CreditReceive, 0);
            if stage.Credit? {
              stage := Source;
              if accountability != null { accountability.Completed(sequence); }
            }
          }
      }
    }

    method ProgressData(buffer: seq<Byte>) returns (error: Option<Error>)
      requires accountability != null ==> accountability.Valid()
      modifies Repr()
      ensures Repr() == old(Repr()) && (accountability != null ==> accountability.Valid())
      ensures var step := Machine.ProgressData(old(Model()), buffer);
              Model() == step.next && error == step.error && Noted(old(Account()), step.notes)
    {
      error := None;
      match stage {
        case Sending =>
          if offsets.data == length {
            OneNote(Account(), NoteCompleted(sequence));
            stage := if credited then Source else Credit;
            if credited && accountability != null { accountability.Completed(sequence); }
          }
        case Header =>
          if HEADER_BYTES <= offsets.data {
            if |buffer| < HEADER_BYTES {
              return Some(Error.Protocol);
            }
            error := ParseHeader(buffer[..HEADER_BYTES]);
          }
        case Payload =>
          if offsets.data == length { stage := Admission; }
        case Source => error := Some(Error.Protocol);
        case Credit => error := Some(Error.Protocol);
        case Admission => error := Some(Error.Protocol);
      }
    }

    method ParseHeader(header: seq<Byte>) returns (error: Option<Error>)
      requires accountability != null ==> accountability.Valid()
      requires |header| == HEADER_BYTES
      modifies Repr()
      ensures Repr() == old(Repr()) && (accountability != null ==> accountability.Valid())
      ensures var step := Machine.ParseHeader(old(Model()), header);
              Model() == step.next && error == step.error && Noted(old(Account()), step.notes)
      ensures error.None? <==>
                && HeaderAddresses(header, contract) && HEADER_BYTES + HeaderLength(header) <= capacity
                && old(offsets).data <= HEADER_BYTES + HeaderLength(header)
                && (old(previous).Some? && contract.delivery.Ordered? ==>
                      HeaderSequence(header) as int == old(previous).value + 1)
                && (old(previous).Some? && contract.delivery.Latest? ==>
                      HeaderSequence(header) > old(previous).value)
      ensures error in {None, Some(Error.Protocol), Some(Error.Capacity)}
      ensures error == Some(Error.Capacity) <==>
                HeaderAddresses(header, contract) && HEADER_BYTES + HeaderLength(header) > capacity
    {
      OneNote(Account(), Observe(HeaderSequence(header)));
      if accountability != null { accountability.Observe(HeaderSequence(header)); }
      if !HeaderAddresses(header, contract) {
        return Some(Error.Protocol);
      }
      revision := HeaderRevision(header);
      sequence := HeaderSequence(header);
      length := HEADER_BYTES + HeaderLength(header);
      if length > capacity {
        return Some(Error.Capacity);
      }
      if offsets.data > length {
        return Some(Error.Protocol);
      }
      if previous.Some? && !Follows(contract.delivery, previous.value, sequence) {
        return Some(Error.Protocol);
      }
      stage := if offsets.data == length then Admission else Payload;
      return None;
    }
  }
}
