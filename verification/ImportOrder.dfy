/** The sequences an importer admits from a peer it does not trust, in plain arithmetic: what
    each delivery mode accepts, and that nothing else is refused for its sequence. */
module ImportOrder {
  import opened Wire
  import opened Transport
  import opened Machine
  import UnixLink

  /** `b` comes right after `a` on an ordered link, and anywhere after it on a latest-state link. */
  predicate InTurn(delivery: Delivery, a: U64, b: U64) {
    match delivery
    case Ordered => b == a + 1
    case Latest => a < b
  }

  /** The sequences are in turn from one to the next. */
  predicate Consecutive(delivery: Delivery, admitted: seq<U64>) {
    forall i :: 0 <= i < |admitted| - 1 ==> InTurn(delivery, admitted[i], admitted[i + 1])
  }

  lemma Appended(delivery: Delivery, admitted: seq<U64>, next: U64)
    requires Consecutive(delivery, admitted)
    requires admitted != [] ==> InTurn(delivery, admitted[|admitted| - 1], next)
    ensures Consecutive(delivery, admitted + [next])
  {
  }

  // --- The protocol machine ---

  /** The sequence of the frame this input admits, if it admits one. */
  function AdmittedNow(m: State, input: Input): seq<U64>
    requires Inv(m)
  {
    if input.Admitted? && Apply(m, input).error.None? then [m.sequence] else []
  }

  /** The sequences admitted over a run of inputs. */
  function AdmittedBy(m: State, inputs: seq<Input>): seq<U64>
    requires Inv(m)
    decreases |inputs|
  {
    if inputs == [] then []
    else
      ApplyKeepsInv(m, inputs[0]);
      AdmittedNow(m, inputs[0]) + AdmittedBy(Apply(m, inputs[0]).next, inputs[1..])
  }

  /** An open importer remembers the last sequence it admitted, and a frame it has begun to
      read or holds for admission is in turn after that. */
  predicate Remembers(m: State, admitted: seq<U64>) {
    m.closed.None? ==>
      && m.direction.Import?
      && m.previous == (if admitted == [] then None else Some(admitted[|admitted| - 1]))
      && (!m.stage.Header? && m.previous.Some? ==> InTurn(m.contract.delivery, m.previous.value, m.sequence))
  }

  lemma CompletionRemembers(m: State, lane: Lane, result: IoResult, buffer: seq<Byte>, admitted: seq<U64>)
    requires Inv(m) && m.active.Get(lane).Some? && Remembers(m, admitted)
    ensures Remembers(Settled(Complete(m, lane, result, buffer)), admitted)
  {
    hide HeaderAddresses, HeaderSequence, HeaderRevision, HeaderLength;
  }

  lemma InputRemembers(m: State, input: Input, admitted: seq<U64>)
    requires Inv(m) && Remembers(m, admitted) && Consecutive(m.contract.delivery, admitted)
    ensures Apply(m, input).next.contract == m.contract
    ensures Remembers(Apply(m, input).next, admitted + AdmittedNow(m, input))
    ensures Consecutive(m.contract.delivery, admitted + AdmittedNow(m, input))
  {
    ApplyKeepsContract(m, input);
    hide Complete, Demand;
    match input {
      case Completed(op, result, buffer) =>
        var lane := FirstLane(m.active, op);
        if lane.Some? { CompletionRemembers(m, lane.value, result, buffer, admitted); }
      case Admitted =>
        if m.closed.None? && m.stage.Admission? && !m.credited {
          Appended(m.contract.delivery, admitted, m.sequence);
        }
      case _ =>
    }
    if AdmittedNow(m, input) == [] { assert admitted + AdmittedNow(m, input) == admitted; }
  }

  lemma {:induction false} RunRemembers(m: State, inputs: seq<Input>, admitted: seq<U64>)
    requires Inv(m) && Remembers(m, admitted) && Consecutive(m.contract.delivery, admitted)
    ensures Consecutive(m.contract.delivery, admitted + AdmittedBy(m, inputs))
    decreases |inputs|
  {
    if inputs == [] {
      assert admitted + AdmittedBy(m, inputs) == admitted;
    } else {
      hide Apply, Consecutive, Remembers, AdmittedNow;
      InputRemembers(m, inputs[0], admitted);
      ApplyKeepsInv(m, inputs[0]);
      var now := AdmittedNow(m, inputs[0]);
      RunRemembers(Apply(m, inputs[0]).next, inputs[1..], admitted + now);
      assert admitted + (now + AdmittedBy(Apply(m, inputs[0]).next, inputs[1..]))
          == (admitted + now) + AdmittedBy(Apply(m, inputs[0]).next, inputs[1..]);
    }
  }

  /** Whatever inputs an importer is given, from any peer, driver and host: on an ordered link the
      sequences it admits are consecutive, on a latest-state link they strictly increase. */
  lemma MachineAdmitsInTurn(contract: Contract, capacity: nat, inputs: seq<Input>)
    requires ValidCapacity(capacity)
    ensures var admitted := AdmittedBy(Fresh(contract, Import, capacity), inputs);
            && (contract.delivery.Ordered? ==>
                  forall i :: 0 <= i < |admitted| - 1 ==> (admitted[i + 1] as int) == (admitted[i] as int) + 1)
            && (contract.delivery.Latest? ==> forall i, j :: 0 <= i < j < |admitted| ==> admitted[i] < admitted[j])
  {
    var m := Fresh(contract, Import, capacity);
    RunRemembers(m, inputs, []);
    var admitted := AdmittedBy(m, inputs);
    assert [] + admitted == admitted;
    if contract.delivery.Latest? { Increase(admitted); }
  }

  lemma Increase(admitted: seq<U64>)
    requires Consecutive(Latest, admitted)
    ensures forall i, j :: 0 <= i < j < |admitted| ==> admitted[i] < admitted[j]
  {
    forall i, j | 0 <= i < j < |admitted| ensures admitted[i] < admitted[j] { Between(admitted, i, j); }
  }

  lemma {:induction false} Between(admitted: seq<U64>, i: nat, j: nat)
    requires Consecutive(Latest, admitted) && i < j < |admitted|
    ensures admitted[i] < admitted[j]
    decreases j
  {
    assert InTurn(Latest, admitted[j - 1], admitted[j - 1 + 1]);
    if i < j - 1 { Between(admitted, i, j - 1); }
  }

  /** A header that addresses the importer's contract and fits its buffer. */
  predicate ReadsHeader(m: State, op: OpId, count: nat, buffer: seq<Byte>) {
    && Inv(m) && m.closed.None? && m.stage.Header? && m.active.data.Some? && m.active.data.value.op == op
    && 0 < count <= m.active.data.value.effect.length
    && HEADER_BYTES <= m.offsets.data + count && HEADER_BYTES <= |buffer|
  }

  /** A header just completed is taken exactly when it names the importer's event and major, the
      frame fits the buffer, no bytes beyond it came along, and its sequence is the first or in
      turn; too long a frame is a capacity error and every other refusal a protocol error. */
  lemma HeaderTakenExactly(m: State, op: OpId, count: nat, buffer: seq<Byte>)
    requires ReadsHeader(m, op, count, buffer)
    ensures var header := buffer[..HEADER_BYTES];
            var step := Apply(m, Completed(op, Bytes(count), buffer));
            var addressed := HeaderAddresses(header, m.contract);
            var fits := HEADER_BYTES + HeaderLength(header) <= m.capacity;
            && (step.error.None? <==>
                  && addressed && fits && m.offsets.data + count <= HEADER_BYTES + HeaderLength(header)
                  && (m.previous.Some? && m.contract.delivery.Ordered? ==>
                        HeaderSequence(header) == m.previous.value + 1)
                  && (m.previous.Some? && m.contract.delivery.Latest? ==>
                        HeaderSequence(header) > m.previous.value))
            && (step.error.None? ==>
                  && step.next.sequence == HeaderSequence(header) && step.next.revision == HeaderRevision(header)
                  && step.next.length == HEADER_BYTES + HeaderLength(header)
                  && (step.next.stage.Admission? <==> m.offsets.data + count == step.next.length)
                  && (step.next.stage.Payload? <==> m.offsets.data + count < step.next.length))
            && (step.error.Some? ==>
                  && step.next.closed == step.error
                  && step.error == Some(if addressed && !fits then Capacity else Protocol))
  {
    CompletedMachine(m, Data, op, Bytes(count), buffer);
    hide HeaderAddresses, HeaderSequence, HeaderRevision, HeaderLength, FirstLane, Apply, Inv;
    TakesHeader(m, count, buffer);
  }

  lemma TakesHeader(m: State, count: nat, buffer: seq<Byte>)
    requires m.active.data.Some? && ReadsHeader(m, m.active.data.value.op, count, buffer)
    ensures var moved := m.(active := m.active.Set(Data, None), offsets := m.offsets.Set(Data, m.offsets.data + count));
            Complete(m, Data, Bytes(count), buffer) == ParseHeader(moved, buffer[..HEADER_BYTES])
  {
    hide ParseHeader;
  }

  /** An importer waiting for a header asks for as much as its buffer holds, so a frame that
      arrives in one piece, header and payload, is ready for admission at once. */
  lemma WholeFrameAtOnce(m: State, op: OpId, buffer: seq<Byte>)
    requires Inv(m) && m.closed.None? && m.stage.Header? && m.offsets.data == 0 && HEADER_BYTES <= |buffer|
    requires m.active.data.Some? && m.active.data.value.op == op
    requires var header := buffer[..HEADER_BYTES];
             && HeaderAddresses(header, m.contract) && HEADER_BYTES + HeaderLength(header) <= m.capacity
             && (m.previous.Some? ==> InTurn(m.contract.delivery, m.previous.value, HeaderSequence(header)))
    ensures var length := HEADER_BYTES + HeaderLength(buffer[..HEADER_BYTES]);
            var step := Apply(m, Completed(op, Bytes(length), buffer));
            && step.error.None? && step.next.closed.None? && Inv(step.next)
            && EffectOf(step.next, Data)
               == if m.credited then None
                  else Some(Admit(length - HEADER_BYTES, HeaderRevision(buffer[..HEADER_BYTES])))
  {
    var length := HEADER_BYTES + HeaderLength(buffer[..HEADER_BYTES]);
    HeaderTakenExactly(m, op, length, buffer);
    CompletedMachine(m, Data, op, Bytes(length), buffer);
    TakesHeader(m, length, buffer);
    ApplyKeepsInv(m, Completed(op, Bytes(length), buffer));
    hide HeaderAddresses, HeaderSequence, HeaderRevision, HeaderLength, FirstLane, Apply, Complete;
  }

  // --- The Unix importer ---

  /** The sequences of the frames admitted. */
  function SequencesOf(admitted: seq<UnixLink.Verdict>): (sequences: seq<U64>)
    requires forall k :: 0 <= k < |admitted| ==> admitted[k].FrameRead?
    ensures |sequences| == |admitted| && forall k :: 0 <= k < |admitted| ==> sequences[k] == admitted[k].sequence
  {
    seq(|admitted|, k requires 0 <= k < |admitted| => admitted[k].sequence)
  }

  /** The bytes read so far are refused exactly when a whole header names another event or major,
      is longer than the importer accepts, or is neither the first nor in turn; too long a frame
      is a capacity error and every other refusal a protocol error. */
  lemma FrameTakenExactly(contract: Contract, maxPayload: nat, previous: Option<U64>, bytes: seq<Byte>)
    ensures var verdict := UnixLink.UnixReads(contract, maxPayload, previous, bytes);
            && (|bytes| < HEADER_BYTES ==> verdict.Waiting?)
            && (|bytes| >= HEADER_BYTES ==>
                  var header := bytes[..HEADER_BYTES];
                  var (addressed, fits) := (HeaderAddresses(header, contract), HeaderLength(header) <= maxPayload);
                  && (!verdict.Refused? <==>
                        && addressed && fits
                        && (previous.Some? && contract.delivery.Ordered? ==>
                              HeaderSequence(header) == previous.value + 1)
                        && (previous.Some? && contract.delivery.Latest? ==> HeaderSequence(header) > previous.value))
                  && (verdict.Refused? ==> verdict.error == if addressed && !fits then Capacity else Protocol)
                  && (verdict.FrameRead? ==> verdict.sequence == HeaderSequence(header)))
  {
    hide HeaderAddresses, HeaderSequence, HeaderRevision, HeaderLength;
  }

  /** A frame read is in turn after the one before it. */
  lemma ReadsInTurn(contract: Contract, maxPayload: nat, previous: Option<U64>, bytes: seq<Byte>)
    requires UnixLink.UnixReads(contract, maxPayload, previous, bytes).FrameRead? && previous.Some?
    ensures InTurn(contract.delivery, previous.value,
                   UnixLink.UnixReads(contract, maxPayload, previous, bytes).sequence)
  {
    hide HeaderAddresses, HeaderSequence, HeaderRevision, HeaderLength;
  }

  /** Admissions are frames, in turn from one to the next and after what came before. */
  predicate InOrder(delivery: Delivery, previous: Option<U64>, admitted: seq<UnixLink.Verdict>) {
    && (forall k :: 0 <= k < |admitted| ==> admitted[k].FrameRead?)
    && Consecutive(delivery, SequencesOf(admitted))
    && (previous.Some? && admitted != [] ==> InTurn(delivery, previous.value, admitted[0].sequence))
  }

  lemma Prepended(delivery: Delivery, previous: Option<U64>, first: UnixLink.Verdict, rest: seq<UnixLink.Verdict>)
    requires first.FrameRead? && InOrder(delivery, Some(first.sequence), rest)
    requires previous.Some? ==> InTurn(delivery, previous.value, first.sequence)
    ensures InOrder(delivery, previous, [first] + rest)
  {
    var all := SequencesOf([first] + rest);
    assert all[1..] == SequencesOf(rest);
    forall i | 0 <= i < |all| - 1 ensures InTurn(delivery, all[i], all[i + 1]) {
      if i > 0 { assert InTurn(delivery, SequencesOf(rest)[i - 1], SequencesOf(rest)[i - 1 + 1]); }
    }
  }

  lemma {:induction false} StreamInOrder(contract: Contract, maxPayload: nat, previous: Option<U64>, bytes: seq<Byte>)
    ensures InOrder(contract.delivery, previous, UnixLink.UnixStream(contract, maxPayload, previous, bytes).admitted)
    decreases |bytes|
  {
    var verdict := UnixLink.UnixReads(contract, maxPayload, previous, bytes);
    if verdict.FrameRead? {
      UnixLink.StreamOnce(contract, maxPayload, previous, bytes, []);
      if previous.Some? { ReadsInTurn(contract, maxPayload, previous, bytes); }
      var after := bytes[HEADER_BYTES + |verdict.payload|..];
      StreamInOrder(contract, maxPayload, Some(verdict.sequence), after);
      var rest := UnixLink.UnixStream(contract, maxPayload, Some(verdict.sequence), after).admitted;
      hide UnixLink.UnixReads, InOrder;
      Prepended(contract.delivery, previous, verdict, rest);
      assert verdict == UnixLink.FrameRead(verdict.sequence, verdict.revision, verdict.payload);
    }
  }

  /** Whatever bytes a peer sends: on an ordered link the sequences the Unix importer admits are
      consecutive, on a latest-state link they strictly increase. */
  lemma UnixAdmitsInTurn(contract: Contract, maxPayload: nat, bytes: seq<Byte>)
    ensures var admitted := UnixLink.UnixStream(contract, maxPayload, None, bytes).admitted;
            && (forall k :: 0 <= k < |admitted| ==> admitted[k].FrameRead?)
            && (contract.delivery.Ordered? ==>
                  forall i :: 0 <= i < |admitted| - 1 ==>
                    (admitted[i + 1].sequence as int) == (admitted[i].sequence as int) + 1)
            && (contract.delivery.Latest? ==>
                  forall i, j :: 0 <= i < j < |admitted| ==> admitted[i].sequence < admitted[j].sequence)
  {
    StreamInOrder(contract, maxPayload, None, bytes);
    var admitted := UnixLink.UnixStream(contract, maxPayload, None, bytes).admitted;
    hide UnixLink.UnixStream;
    var sequences := SequencesOf(admitted);
    if contract.delivery.Ordered? {
      forall i | 0 <= i < |admitted| - 1
        ensures (admitted[i + 1].sequence as int) == (admitted[i].sequence as int) + 1
      {
        assert InTurn(Ordered, sequences[i], sequences[i + 1]);
      }
    } else {
      Increase(sequences);
    }
  }

  // --- A stream of frames in turn ---

  function Frames(source: Contract, items: seq<Item>): seq<Byte>
    requires forall k :: 0 <= k < |items| ==> |items[k].payload| <= U32_MAX
  {
    if items == [] then [] else FrameOf(source, items[0]) + Frames(source, items[1..])
  }

  function Credits(items: seq<Item>): seq<Byte> {
    if items == [] then [] else CreditFor(items[0].sequence) + Credits(items[1..])
  }

  /** The first is in turn after what was admitted before, and each after the one before it. */
  predicate InSequence(delivery: Delivery, previous: Option<U64>, items: seq<Item>) {
    && (previous.Some? && items != [] ==> InTurn(delivery, previous.value, items[0].sequence))
    && forall k :: 0 <= k < |items| - 1 ==> InTurn(delivery, items[k].sequence, items[k + 1].sequence)
  }

  /** The frame at the front of the bytes is read as the item it was made from. */
  lemma FrontIsRead(source: Contract, item: Item, rest: seq<Byte>, contract: Contract, maxPayload: nat,
                    previous: Option<U64>)
    requires |item.payload| <= U32_MAX && |item.payload| <= maxPayload
    requires contract.event == source.event && contract.major == source.major
    requires previous.Some? ==> InTurn(contract.delivery, previous.value, item.sequence)
    ensures var bytes := FrameOf(source, item) + rest;
            && UnixLink.UnixReads(contract, maxPayload, previous, bytes)
               == UnixLink.FrameRead(item.sequence, source.revision, item.payload)
            && bytes[HEADER_BYTES + |item.payload|..] == rest
  {
    var bytes := FrameOf(source, item) + rest;
    HeaderRoundTrip(source, item.sequence, |item.payload|, contract);
    assert bytes[..HEADER_BYTES] == HeaderOf(source, item.sequence, |item.payload|);
    assert bytes[HEADER_BYTES..HEADER_BYTES + |item.payload|] == item.payload;
    hide HeaderOf, HeaderAddresses, HeaderSequence, HeaderRevision, HeaderLength;
  }

  lemma FirstOfStream(source: Contract, item: Item, rest: seq<Byte>, contract: Contract, maxPayload: nat,
                      previous: Option<U64>)
    requires |item.payload| <= U32_MAX && |item.payload| <= maxPayload
    requires contract.event == source.event && contract.major == source.major
    requires previous.Some? ==> InTurn(contract.delivery, previous.value, item.sequence)
    ensures var later := UnixLink.UnixStream(contract, maxPayload, Some(item.sequence), rest);
            UnixLink.UnixStream(contract, maxPayload, previous, FrameOf(source, item) + rest)
            == UnixLink.Outcome([UnixLink.FrameRead(item.sequence, source.revision, item.payload)] + later.admitted,
                                CreditFor(item.sequence) + later.credits, later.end)
  {
    FrontIsRead(source, item, rest, contract, maxPayload, previous);
    hide FrameOf, UnixLink.UnixReads, InTurn, CreditFor;
  }

  lemma RestInSequence(delivery: Delivery, previous: Option<U64>, items: seq<Item>)
    requires InSequence(delivery, previous, items) && items != []
    ensures InSequence(delivery, Some(items[0].sequence), items[1..])
    ensures previous.Some? ==> InTurn(delivery, previous.value, items[0].sequence)
  {
    hide InTurn;
    var rest := items[1..];
    forall k | 0 <= k < |rest| - 1 ensures InTurn(delivery, rest[k].sequence, rest[k + 1].sequence) {
      assert InTurn(delivery, items[k + 1].sequence, items[k + 1 + 1].sequence);
    }
    if rest != [] { assert InTurn(delivery, items[0].sequence, items[0 + 1].sequence); }
  }

  /** Frames that name the importer's event and major, fit and are in turn are admitted one and all,
      each credited, and the importer waits for more. */
  lemma {:induction false} StreamTakesAll(source: Contract, items: seq<Item>, contract: Contract, maxPayload: nat,
                                          previous: Option<U64>)
    requires contract.event == source.event && contract.major == source.major
    requires forall k :: 0 <= k < |items| ==> |items[k].payload| <= U32_MAX && |items[k].payload| <= maxPayload
    requires InSequence(contract.delivery, previous, items)
    ensures var end := UnixLink.UnixStream(contract, maxPayload, previous, Frames(source, items));
            && end.end.Waiting? && end.credits == Credits(items) && |end.admitted| == |items|
            && forall k :: 0 <= k < |items| ==>
                 end.admitted[k] == UnixLink.FrameRead(items[k].sequence, source.revision, items[k].payload)
    decreases |items|
  {
    if items != [] {
      var (first, rest) := (items[0], items[1..]);
      RestInSequence(contract.delivery, previous, items);
      FirstOfStream(source, first, Frames(source, rest), contract, maxPayload, previous);
      hide FrameOf, UnixLink.UnixStream, InSequence, CreditFor;
      StreamTakesAll(source, rest, contract, maxPayload, Some(first.sequence));
    }
  }
}
