/** The Unix-socket endpoints of the same link, and their agreement with the machine. */
module UnixLink {
  import opened Wire
  import opened Transport
  import opened Machine

  /** What one frame's turn ends in; `revision` and `payload` go to the codec. */
  datatype Verdict = Waiting | Refused(error: Error) | FrameRead(sequence: U64, revision: U32, payload: seq<Byte>)

  /** An import's whole visible behaviour. */
  datatype Outcome = Outcome(admitted: seq<Verdict>, credits: seq<Byte>, end: Verdict)

  // --- The Unix importer ---

  /** Header checks in the order `import_data` makes them, then the payload. */
  function UnixReads(contract: Contract, maxPayload: nat, previous: Option<U64>, bytes: seq<Byte>): Verdict {
    if |bytes| < HEADER_BYTES then Waiting
    else
      var header := bytes[..HEADER_BYTES];
      if !HeaderAddresses(header, contract) then Refused(Protocol)
      else if HeaderLength(header) > maxPayload then Refused(Capacity)
      else if previous.Some? && !Follows(contract.delivery, previous.value, HeaderSequence(header)) then
          Refused(Protocol)
      else if |bytes| < HEADER_BYTES + HeaderLength(header) then Waiting
      else
        FrameRead(HeaderSequence(header), HeaderRevision(header),
                  bytes[HEADER_BYTES..HEADER_BYTES + HeaderLength(header)])
  }

  /** Frame after frame; each admission is credited before the next header is read. */
  function UnixRun(contract: Contract, maxPayload: nat, previous: Option<U64>, turns: seq<seq<Byte>>): Outcome
    decreases |turns|
  {
    if turns == [] then Outcome([], [], Waiting)
    else
      match UnixReads(contract, maxPayload, previous, turns[0])
      case FrameRead(sequence, revision, payload) =>
        var rest := UnixRun(contract, maxPayload, Some(sequence), turns[1..]);
        Outcome([FrameRead(sequence, revision, payload)] + rest.admitted, CreditFor(sequence) + rest.credits, rest.end)
      case end => Outcome([], [], end)
  }

  /** What the importer makes of all the bytes that ever arrive: each frame is cut off the
      front, and what follows it is the start of the next. */
  function UnixStream(contract: Contract, maxPayload: nat, previous: Option<U64>, bytes: seq<Byte>): Outcome
    decreases |bytes|
  {
    match UnixReads(contract, maxPayload, previous, bytes)
    case FrameRead(sequence, revision, payload) =>
      var rest := UnixStream(contract, maxPayload, Some(sequence), bytes[HEADER_BYTES + |payload|..]);
      Outcome([FrameRead(sequence, revision, payload)] + rest.admitted, CreditFor(sequence) + rest.credits, rest.end)
    case end => Outcome([], [], end)
  }

  function Concat(chunks: seq<seq<Byte>>): seq<Byte> {
    if chunks == [] then [] else chunks[0] + Concat(chunks[1..])
  }

  /** The loop of `import_data`, over the chunks the socket hands it: bytes are collected until
      a header or a payload is whole, and what is left over is kept. */
  method ImportData(contract: Contract, maxPayload: nat, chunks: seq<seq<Byte>>) returns (outcome: Outcome)
    ensures outcome == UnixStream(contract, maxPayload, None, Concat(chunks))
  {
    var previous: Option<U64>, admitted: seq<Verdict>, credits: seq<Byte> := None, [], [];
    var inbox: seq<Byte>, k := [], 0;
    ghost var all := UnixStream(contract, maxPayload, None, Concat(chunks));
    assert chunks[0..] == chunks && [] + Concat(chunks) == Concat(chunks);
    hide UnixStream, UnixReads, Concat, CreditFor;
    assert Joined([], [], all) == all;
    while true
      invariant k <= |chunks|
      invariant all
                == Joined(admitted, credits, UnixStream(contract, maxPayload, previous, inbox + Concat(chunks[k..])))
      decreases |chunks| - k, |inbox|
    {
      var verdict := UnixReads(contract, maxPayload, previous, inbox);
      StreamOnce(contract, maxPayload, previous, inbox, Concat(chunks[k..]));
      match verdict {
        case Waiting =>
          if k == |chunks| {
            NoChunks(chunks[k..]);
            assert inbox + [] == inbox;
            EndsHere(contract, maxPayload, previous, inbox, admitted, credits);
            return Outcome(admitted, credits, verdict);
          }
          NextChunk(chunks, k, inbox);
          inbox, k := inbox + chunks[k], k + 1;
        case Refused(_) =>
          EndsHere(contract, maxPayload, previous, inbox + Concat(chunks[k..]), admitted, credits);
          return Outcome(admitted, credits, verdict);
        case FrameRead(sequence, _, payload) =>
          ghost var rest := inbox[HEADER_BYTES + |payload|..] + Concat(chunks[k..]);
          JoinedOne(admitted, credits, verdict, UnixStream(contract, maxPayload, Some(sequence), rest));
          previous := Some(sequence);
          admitted, credits := admitted + [verdict], credits + CreditFor(sequence);
          inbox := inbox[HEADER_BYTES + |payload|..];
      }
    }
  }

  lemma NoChunks(chunks: seq<seq<Byte>>)
    requires chunks == []
    ensures Concat(chunks) == []
  {
  }

  lemma NextChunk(chunks: seq<seq<Byte>>, k: nat, inbox: seq<Byte>)
    requires k < |chunks|
    ensures inbox + Concat(chunks[k..]) == (inbox + chunks[k]) + Concat(chunks[k + 1..])
  {
    assert chunks[k..][1..] == chunks[k + 1..];
    assert inbox + (chunks[k] + Concat(chunks[k + 1..])) == (inbox + chunks[k]) + Concat(chunks[k + 1..]);
  }

  lemma EndsHere(contract: Contract, maxPayload: nat, previous: Option<U64>, bytes: seq<Byte>, admitted: seq<Verdict>,
                 credits: seq<Byte>)
    requires !UnixReads(contract, maxPayload, previous, bytes).FrameRead?
    ensures Joined(admitted, credits, UnixStream(contract, maxPayload, previous, bytes))
            == Outcome(admitted, credits, UnixReads(contract, maxPayload, previous, bytes))
  {
    hide UnixReads;
    assert admitted + [] == admitted && credits + [] == credits;
  }

  /** A verdict once reached stands whatever follows, and the frame is cut off the front. */
  lemma ReadsPrefix(contract: Contract, maxPayload: nat, previous: Option<U64>, bytes: seq<Byte>, more: seq<Byte>)
    requires !UnixReads(contract, maxPayload, previous, bytes).Waiting?
    ensures UnixReads(contract, maxPayload, previous, bytes + more) == UnixReads(contract, maxPayload, previous, bytes)
    ensures var verdict := UnixReads(contract, maxPayload, previous, bytes);
            verdict.FrameRead? ==>
              && HEADER_BYTES + |verdict.payload| <= |bytes|
              && (bytes + more)[HEADER_BYTES + |verdict.payload|..] == bytes[HEADER_BYTES + |verdict.payload|..] + more
  {
    hide HeaderAddresses, HeaderLength, HeaderSequence, HeaderRevision, Follows;
    assert (bytes + more)[..HEADER_BYTES] == bytes[..HEADER_BYTES];
    var length := HeaderLength(bytes[..HEADER_BYTES]);
    if |bytes| >= HEADER_BYTES + length {
      assert (bytes + more)[HEADER_BYTES..HEADER_BYTES + length] == bytes[HEADER_BYTES..HEADER_BYTES + length];
    }
  }

  lemma StreamOnce(contract: Contract, maxPayload: nat, previous: Option<U64>, bytes: seq<Byte>, more: seq<Byte>)
    ensures var verdict := UnixReads(contract, maxPayload, previous, bytes);
            && (verdict.Refused? ==> UnixReads(contract, maxPayload, previous, bytes + more) == verdict)
            && (verdict.FrameRead? ==>
                  && HEADER_BYTES + |verdict.payload| <= |bytes|
                  && var rest := UnixStream(contract, maxPayload, Some(verdict.sequence),
                                            bytes[HEADER_BYTES + |verdict.payload|..] + more);
                     UnixStream(contract, maxPayload, previous, bytes + more)
                     == Outcome([verdict] + rest.admitted, CreditFor(verdict.sequence) + rest.credits, rest.end))
  {
    hide UnixReads, CreditFor;
    if !UnixReads(contract, maxPayload, previous, bytes).Waiting? {
      ReadsPrefix(contract, maxPayload, previous, bytes, more);
    }
  }

  /** The turns the peer's frames arrive in: every one but the last is exactly a frame. */
  predicate FrameByFrame(contract: Contract, maxPayload: nat, previous: Option<U64>, turns: seq<seq<Byte>>)
    decreases |turns|
  {
    |turns| > 1 ==>
      var verdict := UnixReads(contract, maxPayload, previous, turns[0]);
      && verdict.FrameRead? && |turns[0]| == HEADER_BYTES + |verdict.payload|
      && FrameByFrame(contract, maxPayload, Some(verdict.sequence), turns[1..])
  }

  /** When a peer that waits for its credits sends frame by frame, the loop over the stream and
      the run over the turns are one. */
  lemma {:induction false} StreamIsTurns(contract: Contract, maxPayload: nat, previous: Option<U64>,
                                         turns: seq<seq<Byte>>)
    requires FrameByFrame(contract, maxPayload, previous, turns)
    requires turns != [] ==> OneFrame(turns[|turns| - 1])
    ensures UnixStream(contract, maxPayload, previous, Concat(turns)) == UnixRun(contract, maxPayload, previous, turns)
    decreases |turns|
  {
    hide UnixReads, CreditFor, OneFrame;
    if turns == [] {
      NothingRead(contract, maxPayload, previous);
    } else {
      var verdict := UnixReads(contract, maxPayload, previous, turns[0]);
      StreamOnce(contract, maxPayload, previous, turns[0], Concat(turns[1..]));
      if verdict.FrameRead? {
        if |turns| == 1 { WholeFrame(contract, maxPayload, previous, turns[0]); }
        assert turns[0][HEADER_BYTES + |verdict.payload|..] + Concat(turns[1..]) == Concat(turns[1..]);
        StreamIsTurns(contract, maxPayload, Some(verdict.sequence), turns[1..]);
      } else {
        assert |turns| == 1 && Concat(turns[1..]) == [] && turns[0] + [] == turns[0];
      }
    }
  }

  lemma NothingRead(contract: Contract, maxPayload: nat, previous: Option<U64>)
    ensures UnixReads(contract, maxPayload, previous, []) == Waiting
  {
  }

  lemma WholeFrame(contract: Contract, maxPayload: nat, previous: Option<U64>, bytes: seq<Byte>)
    requires UnixReads(contract, maxPayload, previous, bytes).FrameRead? && OneFrame(bytes)
    ensures |bytes| == HEADER_BYTES + |UnixReads(contract, maxPayload, previous, bytes).payload|
  {
    hide HeaderAddresses, HeaderLength, HeaderSequence, HeaderRevision, Follows;
  }

  function Joined(admitted: seq<Verdict>, credits: seq<Byte>, rest: Outcome): Outcome {
    Outcome(admitted + rest.admitted, credits + rest.credits, rest.end)
  }

  lemma JoinedOne(admitted: seq<Verdict>, credits: seq<Byte>, verdict: Verdict, rest: Outcome)
    requires verdict.FrameRead?
    ensures Joined(admitted, credits, Outcome([verdict] + rest.admitted, CreditFor(verdict.sequence) + rest.credits,
                                              rest.end))
            == Joined(admitted + [verdict], credits + CreditFor(verdict.sequence), rest)
  {
    assert admitted + ([verdict] + rest.admitted) == admitted + [verdict] + rest.admitted;
    assert credits + (CreditFor(verdict.sequence) + rest.credits)
           == credits + CreditFor(verdict.sequence) + rest.credits;
  }

  // --- The protocol machine reading the same bytes in fragments ---

  /** An importer between frames or inside one, with nothing in flight on its data lane. */
  predicate Reading(m: State) {
    && Inv(m) && m.direction.Import? && m.closed.None? && m.active.data.None?
    && (m.stage.Header? || m.stage.Payload?)
  }

  function Requests(m: State): nat
    requires Reading(m)
  {
    EffectOf(m, Data).value.length
  }

  /** The machine after `count` more bytes of the frame have arrived. */
  function Took(m: State, count: nat, buffer: seq<Byte>): State
    requires Reading(m)
  {
    Settled(ProgressData(m.(offsets := m.offsets.(data := m.offsets.data + count)), buffer))
  }

  /** Accepting the machine's own receive and completing it short moves it exactly so. */
  lemma ReceiveTakes(m: State, op: OpId, count: nat, buffer: seq<Byte>)
    requires Reading(m) && FirstLane(m.active, op).None? && 0 < count <= Requests(m)
    ensures var accepted := Apply(m, Accepted(Data, op)).next;
            && Inv(accepted) && Apply(accepted, Completed(op, Bytes(count), buffer)).next == Took(m, count, buffer)
    ensures Inv(Took(m, count, buffer)) && Took(m, count, buffer).active == m.active
  {
    AcceptedMachine(m, Data, op);
    ApplyKeepsInv(m, Accepted(Data, op));
    var accepted := Apply(m, Accepted(Data, op)).next;
    CompletedMachine(accepted, Data, op, Bytes(count), buffer);
    ApplyKeepsInv(accepted, Completed(op, Bytes(count), buffer));
    CompleteClearsLane(accepted, Data, Bytes(count), buffer);
    hide Apply, DistinctOps, ParseHeader;
    assert accepted.active.Set(Data, None) == m.active;
    assert accepted.(active := accepted.active.Set(Data, None)) == m;
  }

  /** Fragments of positive size, none longer than what the machine asked for. */
  predicate Cuts(m: State, bytes: seq<Byte>, at: nat, cuts: seq<nat>)
    requires at <= |bytes|
    decreases |cuts|
  {
    if cuts == [] then true
    else
      && Reading(m) && 0 < cuts[0] <= Requests(m) && at + cuts[0] <= |bytes|
      && Cuts(Took(m, cuts[0], bytes[..at + cuts[0]]), bytes, at + cuts[0], cuts[1..])
  }

  function Fed(m: State, bytes: seq<Byte>, at: nat, cuts: seq<nat>): State
    requires at <= |bytes| && Cuts(m, bytes, at, cuts)
    decreases |cuts|
  {
    if cuts == [] then m else Fed(Took(m, cuts[0], bytes[..at + cuts[0]]), bytes, at + cuts[0], cuts[1..])
  }

  function Consumed(cuts: seq<nat>): nat {
    if cuts == [] then 0 else cuts[0] + Consumed(cuts[1..])
  }

  function MachineReads(m: State, bytes: seq<Byte>): Verdict {
    if m.closed.Some? then Refused(m.closed.value)
    else if m.stage.Admission? && HEADER_BYTES <= m.length <= |bytes| then
      FrameRead(m.sequence, m.revision, bytes[HEADER_BYTES..m.length])
    else Waiting
  }

  /** One frame per credit: the peer sends no more than the frame its header announces. */
  predicate OneFrame(bytes: seq<Byte>) {
    |bytes| >= HEADER_BYTES ==> |bytes| <= HEADER_BYTES + HeaderLength(bytes[..HEADER_BYTES])
  }

  /** The machine, having read `at` bytes of the turn, has judged them as the Unix importer would. */
  predicate InStep(m: State, contract: Contract, capacity: nat, previous: Option<U64>, bytes: seq<Byte>, at: nat)
    requires at <= |bytes|
  {
    && Inv(m) && m.direction.Import? && m.contract == contract && m.capacity == capacity && m.previous == previous
    && HEADER_BYTES <= capacity
    && var verdict := UnixReads(contract, capacity - HEADER_BYTES, previous, bytes);
       if m.closed.Some? then verdict == Refused(m.closed.value)
       else
         && m.offsets.data == at
         && (m.stage.Header? ==> at < HEADER_BYTES)
         && (!m.stage.Header? ==>
               && (m.stage.Payload? || m.stage.Admission?) && HEADER_BYTES <= at && !verdict.Refused?
               && var header := bytes[..HEADER_BYTES];
                  m.sequence == HeaderSequence(header) && m.revision == HeaderRevision(header)
                  && m.length == HEADER_BYTES + HeaderLength(header))
  }

  lemma TookStaysInStep(m: State, contract: Contract, capacity: nat, previous: Option<U64>, bytes: seq<Byte>, at: nat,
                        count: nat)
    requires at <= |bytes| && InStep(m, contract, capacity, previous, bytes, at) && OneFrame(bytes)
    requires Reading(m) && 0 < count <= Requests(m) && at + count <= |bytes|
    requires Inv(Took(m, count, bytes[..at + count]))
    ensures InStep(Took(m, count, bytes[..at + count]), contract, capacity, previous, bytes, at + count)
  {
    hide HeaderAddresses, HeaderLength, HeaderSequence, HeaderRevision, Follows;
    var buffer := bytes[..at + count];
    if m.stage.Header? && at + count >= HEADER_BYTES {
      assert buffer[..HEADER_BYTES] == bytes[..HEADER_BYTES];
    }
  }

  /** Some operation id is not in flight. */
  ghost predicate SparesId(m: State) { exists op :: FirstLane(m.active, op).None? }

  lemma SameActive(m: State, next: State)
    requires SparesId(m) && next.active == m.active
    ensures SparesId(next)
  {
  }

  /** However the frame is cut, the machine ends where the Unix importer does. */
  lemma {:induction false} FeedStaysInStep(m: State, contract: Contract, capacity: nat, previous: Option<U64>,
                                           bytes: seq<Byte>,
                                           at: nat, cuts: seq<nat>)
    requires at <= |bytes| && InStep(m, contract, capacity, previous, bytes, at) && OneFrame(bytes)
             && Cuts(m, bytes, at, cuts)
    requires SparesId(m)
    ensures at + Consumed(cuts) <= |bytes|
    ensures InStep(Fed(m, bytes, at, cuts), contract, capacity, previous, bytes, at + Consumed(cuts))
    ensures Fed(m, bytes, at, cuts).active == m.active
    decreases |cuts|
  {
    hide *;
    if cuts == [] {
      NoCuts(m, bytes, at, cuts);
    } else {
      FirstCut(m, bytes, at, cuts);
      var op := SpareId(m);
      var next := Took(m, cuts[0], bytes[..at + cuts[0]]);
      ReceiveTakes(m, op, cuts[0], bytes[..at + cuts[0]]);
      TookStaysInStep(m, contract, capacity, previous, bytes, at, cuts[0]);
      SameActive(m, next);
      FeedStaysInStep(next, contract, capacity, previous, bytes, at + cuts[0], cuts[1..]);
    }
  }

  lemma SpareId(m: State) returns (op: OpId)
    requires SparesId(m)
    ensures FirstLane(m.active, op).None?
  {
    op :| FirstLane(m.active, op).None?;
  }

  lemma NoCuts(m: State, bytes: seq<Byte>, at: nat, cuts: seq<nat>)
    requires at <= |bytes| && cuts == [] && Cuts(m, bytes, at, cuts)
    ensures Fed(m, bytes, at, cuts) == m && Consumed(cuts) == 0
  {
  }

  lemma FirstCut(m: State, bytes: seq<Byte>, at: nat, cuts: seq<nat>)
    requires at <= |bytes| && cuts != [] && Cuts(m, bytes, at, cuts)
    ensures Reading(m) && Inv(m) && 0 < cuts[0] <= Requests(m) && at + cuts[0] <= |bytes|
    ensures Cuts(Took(m, cuts[0], bytes[..at + cuts[0]]), bytes, at + cuts[0], cuts[1..])
    ensures Fed(m, bytes, at, cuts) == Fed(Took(m, cuts[0], bytes[..at + cuts[0]]), bytes, at + cuts[0], cuts[1..])
    ensures Consumed(cuts) == cuts[0] + Consumed(cuts[1..])
  {
    hide Took, Requests;
  }

  /** Everything the turn brought was read, unless the machine refused or has its frame. */
  predicate Exhausted(m: State, bytes: seq<Byte>, cuts: seq<nat>) {
    m.closed.Some? || m.stage.Admission? || Consumed(cuts) == |bytes|
  }

  lemma FrameAgrees(m: State, bytes: seq<Byte>, cuts: seq<nat>)
    requires Reading(m) && m.stage.Header? && m.offsets.data == 0 && OneFrame(bytes) && Cuts(m, bytes, 0, cuts)
    requires SparesId(m)
    requires Exhausted(Fed(m, bytes, 0, cuts), bytes, cuts)
    ensures MachineReads(Fed(m, bytes, 0, cuts), bytes)
            == UnixReads(m.contract, m.capacity - HEADER_BYTES, m.previous, bytes)
    ensures var end := Fed(m, bytes, 0, cuts);
            Inv(end) && end.active == m.active && end.direction.Import? && end.contract == m.contract
              && end.capacity == m.capacity
  {
    FeedStaysInStep(m, m.contract, m.capacity, m.previous, bytes, 0, cuts);
    hide HeaderAddresses, HeaderLength, HeaderSequence, HeaderRevision, Follows;
  }

  // --- Whole runs ---

  /** The machine once its frame is admitted and the credit for it has been sent. */
  function Credited(m: State): State
    requires Inv(m)
  {
    var told := Apply(m, Input.Admitted).next;
    Settled(ProgressSend(told.(offsets := told.offsets.(creditSend := CREDIT_BYTES))))
  }

  lemma CreditedReads(m: State)
    requires Inv(m) && m.direction.Import? && m.closed.None? && m.stage.Admission? && !m.credited && m.active.data.None?
    requires m.active.creditSend.None?
    ensures var next := Credited(m);
            && Reading(next) && next.stage.Header? && next.offsets.data == 0 && !next.credited
            && next.active == m.active
            && next.previous == Some(m.sequence) && next.contract == m.contract && next.capacity == m.capacity
    ensures CreditOf(Apply(m, Input.Admitted).next) == CreditFor(m.sequence)
  {
    ApplyKeepsInv(m, Input.Admitted);
  }

  /** The machine over several turns, each cut into its own fragments. */
  predicate Runs(m: State, turns: seq<seq<Byte>>, cuts: seq<seq<nat>>)
    requires |turns| == |cuts|
    decreases |turns|
  {
    turns != [] ==>
      && OneFrame(turns[0]) && Cuts(m, turns[0], 0, cuts[0])
      && var end := Fed(m, turns[0], 0, cuts[0]);
         && Exhausted(end, turns[0], cuts[0])
         && (Inv(end) && MachineReads(end, turns[0]).FrameRead? ==> Runs(Credited(end), turns[1..], cuts[1..]))
  }

  function MachineRun(m: State, turns: seq<seq<Byte>>, cuts: seq<seq<nat>>): Outcome
    requires |turns| == |cuts| && Runs(m, turns, cuts)
    decreases |turns|
  {
    if turns == [] then Outcome([], [], Waiting)
    else
      var end := Fed(m, turns[0], 0, cuts[0]);
      var verdict := MachineReads(end, turns[0]);
      if verdict.FrameRead? && Inv(end) then
        var rest := MachineRun(Credited(end), turns[1..], cuts[1..]);
        Outcome([verdict] + rest.admitted, CreditOf(Apply(end, Input.Admitted).next) + rest.credits, rest.end)
      else Outcome([], [], verdict)
  }

  /** An importer waiting for a frame's first byte, with its last credit sent. */
  ghost predicate AtFrame(m: State) {
    && Reading(m) && m.stage.Header? && m.offsets.data == 0 && !m.credited && m.active.creditSend.None? && SparesId(m)
  }

  lemma TurnAgrees(m: State, bytes: seq<Byte>, cuts: seq<nat>)
    requires AtFrame(m) && OneFrame(bytes) && Cuts(m, bytes, 0, cuts) && Exhausted(Fed(m, bytes, 0, cuts), bytes, cuts)
    ensures Inv(m) && m.capacity >= HEADER_BYTES && Inv(Fed(m, bytes, 0, cuts))
    ensures var (end, verdict) := (Fed(m, bytes, 0, cuts),
                                   UnixReads(m.contract, m.capacity - HEADER_BYTES, m.previous, bytes));
            && MachineReads(end, bytes) == verdict
            && (verdict.FrameRead? ==>
                  && AtFrame(Credited(end)) && Credited(end).contract == m.contract
                  && Credited(end).capacity == m.capacity
                  && Credited(end).previous == Some(verdict.sequence)
                  && CreditOf(Apply(end, Input.Admitted).next) == CreditFor(verdict.sequence))
  {
    FrameAgrees(m, bytes, cuts);
    FeedNeverCredits(m, bytes, 0, cuts);
    RoomForHeader(m);
    hide Apply, ProgressSend, Cuts, OneFrame, Exhausted, FirstLane, Credited, Fed, CreditOf, CreditFor, UnixReads, Inv;
    var end := Fed(m, bytes, 0, cuts);
    if MachineReads(end, bytes).FrameRead? {
      CreditedReads(end);
      SameActive(m, Credited(end));
    }
  }

  /** Both importers admit the same frames, send the same credit bytes and refuse at the
      same frame with the same error, whatever the peer sends and however it arrives. */
  lemma {:induction false} ImportersAgree(m: State, turns: seq<seq<Byte>>, cuts: seq<seq<nat>>)
    requires AtFrame(m) && m.capacity >= HEADER_BYTES && |turns| == |cuts| && Runs(m, turns, cuts)
    ensures MachineRun(m, turns, cuts) == UnixRun(m.contract, m.capacity - HEADER_BYTES, m.previous, turns)
    decreases |turns|
  {
    hide *;
    if turns == [] {
      NoTurns(m, turns, cuts);
    } else {
      RunsTurn(m, turns, cuts);
      TurnAgrees(m, turns[0], cuts[0]);
      var end := Fed(m, turns[0], 0, cuts[0]);
      var verdict := MachineReads(end, turns[0]);
      UnixTurn(m.contract, m.capacity - HEADER_BYTES, m.previous, turns);
      if verdict.FrameRead? {
        var next := Credited(end);
        ImportersAgree(next, turns[1..], cuts[1..]);
        assert MachineRun(next, turns[1..], cuts[1..])
            == UnixRun(m.contract, m.capacity - HEADER_BYTES, Some(verdict.sequence), turns[1..]);
      }
    }
  }

  lemma NoTurns(m: State, turns: seq<seq<Byte>>, cuts: seq<seq<nat>>)
    requires turns == [] && cuts == [] && Runs(m, turns, cuts) && m.capacity >= HEADER_BYTES
    ensures MachineRun(m, turns, cuts) == UnixRun(m.contract, m.capacity - HEADER_BYTES, m.previous, turns)
  {
  }

  /** One turn of each run. */
  lemma RunsTurn(m: State, turns: seq<seq<Byte>>, cuts: seq<seq<nat>>)
    requires |turns| == |cuts| && turns != [] && Runs(m, turns, cuts)
    ensures OneFrame(turns[0]) && Cuts(m, turns[0], 0, cuts[0])
    ensures var end := Fed(m, turns[0], 0, cuts[0]);
            var verdict := MachineReads(end, turns[0]);
            && Exhausted(end, turns[0], cuts[0])
            && (if Inv(end) && verdict.FrameRead? then
                  && Runs(Credited(end), turns[1..], cuts[1..])
                  && var rest := MachineRun(Credited(end), turns[1..], cuts[1..]);
                     MachineRun(m, turns, cuts)
                     == Outcome([verdict] + rest.admitted, CreditOf(Apply(end, Input.Admitted).next) + rest.credits,
                                rest.end)
                else MachineRun(m, turns, cuts) == Outcome([], [], verdict))
  {
    hide Fed, Credited, MachineReads, Exhausted, OneFrame, Cuts, CreditOf, Apply, Inv;
  }

  lemma UnixTurn(contract: Contract, maxPayload: nat, previous: Option<U64>, turns: seq<seq<Byte>>)
    requires turns != []
    ensures var verdict := UnixReads(contract, maxPayload, previous, turns[0]);
            UnixRun(contract, maxPayload, previous, turns)
            == if verdict.FrameRead? then
                 var rest := UnixRun(contract, maxPayload, Some(verdict.sequence), turns[1..]);
                 Outcome([verdict] + rest.admitted, CreditFor(verdict.sequence) + rest.credits, rest.end)
               else Outcome([], [], verdict)
  {
    hide UnixReads, CreditFor;
  }

  lemma RoomForHeader(m: State)
    requires Inv(m)
    ensures m.capacity >= HEADER_BYTES
  {
  }

  lemma {:induction false} FeedNeverCredits(m: State, bytes: seq<Byte>, at: nat, cuts: seq<nat>)
    requires at <= |bytes| && Cuts(m, bytes, at, cuts) && !m.credited
    ensures !Fed(m, bytes, at, cuts).credited
    decreases |cuts|
  {
    if cuts != [] {
      hide HeaderAddresses, HeaderLength, HeaderSequence, HeaderRevision, Follows;
      FeedNeverCredits(Took(m, cuts[0], bytes[..at + cuts[0]]), bytes, at + cuts[0], cuts[1..]);
    }
  }
}
