/** Every step of the link keeps its invariant, so every run delivers a prefix. */
module LinkSafety {
  import opened Wire
  import opened Transport
  import opened Machine
  import opened Link

  lemma ProvidedMachine(m: State, sequence: U64, length: nat)
    requires Inv(m) && EffectOf(m, Data) == Some(Effect.Provide)
    requires HEADER_BYTES <= length <= m.capacity
    ensures Apply(m, Provided(sequence, length)).next
            == m.(sequence := sequence, length := length, offsets := m.offsets.(data := 0),
                  credited := false, stage := Sending)
    ensures m.active.data.None? && m.closed.None? && m.stage.Source?
  {
  }

  /** An exporter waiting for an item has had every frame credited. */
  lemma SourceIsSettled(l: Link)
    requires LinkInv(l) && l.exporter.machine.closed.None? && l.exporter.machine.stage.Source?
    ensures |l.log.credits| == |l.log.admitted| == |l.log.delivered| == |l.log.provided|
  {
    hide Inv, DataWire, CreditWire, ImporterLane, Histories, FrameOf;
  }

  lemma ProvideHolds(l: Link, item: Item)
    requires LinkInv(l) && Enabled(l, LinkStep.Provide(item))
    ensures LinkInv(NextProvide(l, item))
  {
    hide Inv, FrameOf, Apply, EffectOf, CreditFor;
    var (m, log) := (l.exporter.machine, l.log);
    var frame := FrameOf(m.contract, item);
    var next := NextProvide(l, item);
    ProvidedMachine(m, item.sequence, |frame|);
    HostInputKeepsEndpoint(l.exporter, Provided(item.sequence, |frame|));
    SourceIsSettled(l);
    assert next.log.provided[..|log.provided|] == log.provided;
    assert next.wires.data == frame[0..0];
  }

  lemma DeliverMachine(m: State)
    requires Inv(m) && EffectOf(m, Data).Some? && EffectOf(m, Data).value.Admit?
    ensures m.closed.None? && m.stage.Admission? && !m.credited && m.offsets.data == m.length
    ensures m.active.data.None?
  {
  }

  /** When an item waits for admission nothing of an earlier credit is left. */
  lemma AdmissionIsQuiet(l: Link)
    requires LinkInv(l) && l.importer.machine.closed.None?
    requires l.importer.machine.stage.Admission? && !l.importer.machine.credited
    ensures |l.log.credits| == |l.log.admitted| && |l.log.admitted| + 1 == |l.log.provided|
    ensures l.importer.flights.data.Idle? && l.importer.flights.creditSend.Idle?
    ensures l.wires.dataReceived == |Newest(l.log.provided, l.exporter.machine.contract)| == l.wires.dataSent
    ensures l.wires.data == [] && l.wires.credit == []
  {
    hide FrameOf, EffectOf, CreditFor, ExporterLane, Histories, DistinctOps;
  }

  /** A frame is complete when the machine asks for admission, so what the local
      sender gets is the next item the exporter was given. */
  lemma DeliversNextItem(l: Link)
    requires LinkInv(l) && Enabled(l, Deliver)
    ensures |l.log.delivered| < |l.log.provided|
    ensures Next(l, Deliver).log.delivered == l.log.provided[..|l.log.delivered| + 1]
  {
    hide Inv, EffectOf, CreditWire, ExporterLane, HeaderOf;
    var (m, at) := (l.importer.machine, |l.log.delivered|);
    var (frame, inbox) := (Newest(l.log.provided, l.exporter.machine.contract), l.wires.inbox);
    DeliverMachine(m);
    assert l.importer.flights.data.Idle?;
    assert l.wires.dataReceived == m.length == |frame|;
    assert inbox[..m.length] == frame == FrameOf(l.exporter.machine.contract, l.log.provided[at]);
    assert inbox[HEADER_BYTES..m.length] == inbox[..m.length][HEADER_BYTES..] == l.log.provided[at].payload;
    assert l.log.provided[..at + 1] == l.log.provided[..at] + [l.log.provided[at]];
  }

  lemma DeliverHolds(l: Link)
    requires LinkInv(l) && Enabled(l, Deliver)
    ensures LinkInv(Next(l, Deliver))
  {
    hide Inv, EffectOf, FrameOf, CreditFor, DataWire, CreditWire;
    DeliverMachine(l.importer.machine);
    DeliversNextItem(l);
  }

  lemma AdmittedMachine(m: State)
    requires Inv(m) && m.closed.None? && m.stage.Admission? && !m.credited
    ensures Apply(m, Admitted).error.None?
    ensures Apply(m, Admitted).next
            == m.(previous := Some(m.sequence), credited := true,
                  offsets := m.offsets.(creditSend := 0, data := 0), length := HEADER_BYTES, stage := Header)
  {
  }

  lemma ClosedStays(m: State, input: Input)
    requires Inv(m) && m.closed.Some? && !input.Accepted? && !input.Completed?
    ensures Apply(m, input).next == m
    ensures input.Admitted? ==> Apply(m, input).error.Some?
  {
  }

  lemma AdmitHolds(l: Link)
    requires LinkInv(l) && Enabled(l, LinkStep.Admit)
    ensures LinkInv(NextAdmit(l))
  {
    hide Inv, EffectOf, FrameOf, Apply, CreditFor;
    var (m, log) := (l.importer.machine, l.log);
    HostInputKeepsEndpoint(l.importer, Admitted);
    if m.closed.Some? {
      ClosedStays(m, Admitted);
    } else {
      AdmittedMachine(m);
      AdmissionIsQuiet(l);
      var at := |log.admitted|;
      assert log.delivered[at] == log.provided[at];
      assert log.provided[..at + 1] == log.provided[..at] + [log.provided[at]];
    }
  }

  /** Where a lane's next transfer starts and which stage asks for it. */
  lemma TransferStarts(m: State, lane: Lane)
    requires Inv(m) && EffectOf(m, lane).Some? && EffectOf(m, lane).value.Transfers()
    ensures m.closed.None? && m.active.Get(lane).None?
    ensures var effect := EffectOf(m, lane).value;
            && effect.offset == m.offsets.Get(lane)
            && match lane
               case Data =>
                 if m.direction.Export? then m.stage.Sending? && effect.offset + effect.length == m.length
                 else !m.stage.Admission? && effect.offset + effect.length <= m.capacity
               case CreditSend => m.direction.Import? && m.credited && effect.offset + effect.length == CREDIT_BYTES
               case CreditReceive => m.direction.Export? ==> effect.offset + effect.length == CREDIT_BYTES
  {
  }

  lemma AcceptExporterHolds(l: Link, lane: Lane, op: OpId, room: nat)
    requires LinkInv(l) && Enabled(l, Accept(Exporter, lane, op, room))
    ensures LinkInv(NextAccept(l, Exporter, lane, op, room))
  {
    hide FrameOf, Apply, Inv, EffectOf, DataWire, CreditWire, ImporterLane, Histories, Counts, LastCredit;
    TransferStarts(l.exporter.machine, lane);
    AcceptingKeepsEndpoint(l.exporter, lane, op, room);
    AcceptedMachine(l.exporter.machine, lane, op);
    match lane
    case Data =>
    case CreditSend =>
    case CreditReceive =>
  }

  lemma AcceptImporterHolds(l: Link, lane: Lane, op: OpId, room: nat)
    requires LinkInv(l) && Enabled(l, Accept(Importer, lane, op, room)) && !lane.CreditSend?
    ensures LinkInv(NextAccept(l, Importer, lane, op, room))
  {
    hide FrameOf, Apply, Inv, EffectOf, DataWire, CreditWire, ExporterLane, Histories, Counts, LastCredit;
    TransferStarts(l.importer.machine, lane);
    AcceptingKeepsEndpoint(l.importer, lane, op, room);
    AcceptedMachine(l.importer.machine, lane, op);
    match lane
    case Data =>
    case CreditReceive =>
  }

  /** The credit names the last admitted frame, whatever header has arrived since. */
  lemma AcceptCreditHolds(l: Link, op: OpId, room: nat)
    requires LinkInv(l) && Enabled(l, Accept(Importer, CreditSend, op, room))
    ensures LinkInv(NextAccept(l, Importer, CreditSend, op, room))
    ensures NextAccept(l, Importer, CreditSend, op, room).wires.creditOut == LastCredit(l.log.admitted)
  {
    hide FrameOf, Apply, Inv, EffectOf, DataWire, ExporterLane, Histories, Counts;
    TransferStarts(l.importer.machine, CreditSend);
    AcceptingKeepsEndpoint(l.importer, CreditSend, op, room);
    AcceptedMachine(l.importer.machine, CreditSend, op);
    DataWireFrame(l.wires, l.wires.(creditOut := CreditOf(l.importer.machine)),
                  Newest(l.log.provided, l.exporter.machine.contract), |l.log.admitted| == |l.log.provided|);
  }

  lemma DataWireFrame(w: Wires, v: Wires, frame: seq<Byte>, settled: bool)
    requires DataWire(w, frame, settled)
    requires v.outbox == w.outbox && v.inbox == w.inbox && v.data == w.data
    requires v.dataSent == w.dataSent && v.dataReceived == w.dataReceived
    ensures DataWire(v, frame, settled)
  {
  }

  lemma CreditWireFrame(w: Wires, v: Wires, credit: seq<Byte>, settled: bool)
    requires CreditWire(w, credit, settled)
    requires v.creditOut == w.creditOut && v.creditIn == w.creditIn && v.credit == w.credit
    requires v.creditSent == w.creditSent && v.creditReceived == w.creditReceived
    ensures CreditWire(v, credit, settled)
  {
  }

  lemma Rejoin(bytes: seq<Byte>, i: nat, j: nat, k: nat)
    requires i <= j <= k <= |bytes|
    ensures bytes[i..j] + bytes[j..k] == bytes[i..k]
  {
  }

  lemma Front(bytes: seq<Byte>, i: nat, j: nat, n: nat)
    requires i <= j <= |bytes| && n <= j - i
    ensures bytes[i..j][..n] == bytes[i..i + n]
  {
  }

  lemma Within(bytes: seq<Byte>, n: nat, j: nat, k: nat)
    requires j <= k <= n <= |bytes|
    ensures bytes[j..k] == bytes[..n][j..k]
  {
  }

  lemma MoveDataOutHolds(l: Link, count: nat)
    requires LinkInv(l) && CanMove(l, Exporter, Data, count)
    ensures LinkInv(NextMove(l, Exporter, Data, count))
  {
    hide FrameOf, Inv, CreditFor, CreditWire, Histories;
    MovingKeepsEndpoint(l.exporter, Data, count);
    var (w, next) := (l.wires, NextMove(l, Exporter, Data, count));
    var (frame, at) := (Newest(l.log.provided, l.exporter.machine.contract), w.dataSent);
    CreditWireFrame(w, next.wires, LastCredit(l.log.admitted), |l.log.credits| == |l.log.admitted|);
    Within(w.outbox, |frame|, at, at + count);
    Rejoin(frame, w.dataReceived, at, at + count);
  }

  lemma MoveDataInHolds(l: Link, count: nat)
    requires LinkInv(l) && CanMove(l, Importer, Data, count)
    ensures LinkInv(NextMove(l, Importer, Data, count))
  {
    hide FrameOf, Inv, CreditFor, CreditWire, Histories, ExporterLane;
    MovingKeepsEndpoint(l.importer, Data, count);
    var (w, next) := (l.wires, NextMove(l, Importer, Data, count));
    var (frame, at) := (Newest(l.log.provided, l.exporter.machine.contract), w.dataReceived);
    CreditWireFrame(w, next.wires, LastCredit(l.log.admitted), |l.log.credits| == |l.log.admitted|);
    Front(frame, at, w.dataSent, count);
    assert frame[..at] + frame[at..at + count] == frame[..at + count];
    assert next.wires.inbox[..at + count] == w.inbox[..at] + w.data[..count];
  }

  lemma MoveCreditOutHolds(l: Link, count: nat)
    requires LinkInv(l) && CanMove(l, Importer, CreditSend, count)
    ensures LinkInv(NextMove(l, Importer, CreditSend, count))
  {
    hide FrameOf, Inv, CreditFor, DataWire, Histories, ExporterLane;
    MovingKeepsEndpoint(l.importer, CreditSend, count);
    var (w, next) := (l.wires, NextMove(l, Importer, CreditSend, count));
    DataWireFrame(w, next.wires, Newest(l.log.provided, l.exporter.machine.contract),
                  |l.log.admitted| == |l.log.provided|);
    var (credit, at) := (LastCredit(l.log.admitted), w.creditSent);
    assert w.creditOut[at..at + count] == credit[at..at + count];
    assert credit[w.creditReceived..at] + credit[at..at + count] == credit[w.creditReceived..at + count];
  }

  lemma MoveCreditInHolds(l: Link, count: nat)
    requires LinkInv(l) && CanMove(l, Exporter, CreditReceive, count)
    ensures LinkInv(NextMove(l, Exporter, CreditReceive, count))
  {
    hide FrameOf, Inv, CreditFor, DataWire, Histories;
    MovingKeepsEndpoint(l.exporter, CreditReceive, count);
    var (w, next) := (l.wires, NextMove(l, Exporter, CreditReceive, count));
    DataWireFrame(w, next.wires, Newest(l.log.provided, l.exporter.machine.contract),
                  |l.log.admitted| == |l.log.provided|);
    var (credit, at) := (LastCredit(l.log.admitted), w.creditReceived);
    assert w.credit[..count] == credit[at..at + count];
    assert credit[..at] + credit[at..at + count] == credit[..at + count];
    assert next.wires.creditIn[..at + count] == w.creditIn[..at] + w.credit[..count];
  }

  // --- Completions ---

  function IdleOn(m: State, lane: Lane): State {
    m.(active := m.active.Set(lane, None))
  }

  function MovedOn(m: State, lane: Lane, count: nat): State {
    IdleOn(m, lane).(offsets := m.offsets.Set(lane, m.offsets.Get(lane) + count))
  }

  /** A completion that brings no bytes to an open machine only idles its lane, and
      may close it. */
  lemma EmptyCompletion(m: State, lane: Lane, result: IoResult, buffer: seq<Byte>)
    requires Inv(m) && m.active.Get(lane).Some?
    requires m.closed.Some? || (result.Bytes? ==> result.count == 0)
    ensures var next := Settled(Complete(m, lane, result, buffer));
            next.closed.None? ==> next == IdleOn(m, lane)
    ensures var next := Settled(Complete(m, lane, result, buffer));
            next == IdleOn(m, lane).(closed := next.closed)
  {
  }

  lemma ByteCompletion(m: State, lane: Lane, count: nat, buffer: seq<Byte>)
    requires Inv(m) && m.active.Get(lane).Some? && m.closed.None?
    requires 0 < count <= m.active.Get(lane).value.effect.length
    ensures Settled(Complete(m, lane, Bytes(count), buffer)) == Settled(Progress(MovedOn(m, lane, count), lane, buffer))
    ensures Demand(m, lane) == Some(m.active.Get(lane).value.effect)
  {
    hide Progress;
    assert LaneInv(m, lane);
  }

  /** Idling a lane whose operation moved nothing, or whose machine is closed. */
  lemma EmptyFinishHolds(l: Link, side: Side, lane: Lane, result: IoResult)
    requires LinkInv(l) && Enabled(l, Finish(side, lane, result))
    requires End(l, side).machine.closed.Some? || End(l, side).flights.Get(lane).Queued?
    ensures LinkInv(NextFinish(l, side, lane, result))
  {
    hide FrameOf, Apply, Inv, EffectOf, DataWire, CreditWire, Histories, Counts, LastCredit, Complete;
    var (e, buffer) := (End(l, side), BufferOf(l.wires, side, lane));
    assert FlightInv(e, lane);
    FinishingKeepsEndpoint(e, lane, result, buffer);
    CompletedMachine(e.machine, lane, e.flights.Get(lane).op, result, buffer);
    EmptyCompletion(e.machine, lane, result, buffer);
    if side.Exporter? {
      EmptyExporterLane(e, Finishing(e, lane, result, buffer), lane, l.log, l.wires.dataSent, l.wires.creditReceived);
    } else {
      EmptyImporterLane(e, Finishing(e, lane, result, buffer), lane, l.wires, l.log,
                        Newest(l.log.provided, l.exporter.machine.contract));
    }
  }

  lemma EmptyExporterLane(e: Endpoint, f: Endpoint, lane: Lane, log: Log, sent: nat, received: nat)
    requires ExporterLane(e, log, sent, received)
    requires e.machine.closed.Some? || e.flights.Get(lane).Queued?
    requires f.flights == e.flights.Set(lane, Idle)
    requires f.machine == IdleOn(e.machine, lane).(closed := f.machine.closed)
    requires e.machine.closed.Some? ==> f.machine.closed.Some?
    ensures ExporterLane(f, log, sent, received)
  {
    match lane
    case Data =>
    case CreditSend =>
    case CreditReceive =>
  }

  lemma EmptyImporterLane(e: Endpoint, f: Endpoint, lane: Lane, w: Wires, log: Log, frame: seq<Byte>)
    requires ImporterLane(e, w, log, frame)
    requires e.machine.closed.Some? || e.flights.Get(lane).Queued?
    requires f.flights == e.flights.Set(lane, Idle)
    requires f.machine == IdleOn(e.machine, lane).(closed := f.machine.closed)
    requires e.machine.closed.Some? ==> f.machine.closed.Some?
    ensures ImporterLane(f, w, log, frame)
  {
    match lane
    case Data =>
    case CreditSend =>
    case CreditReceive =>
  }

  lemma InterruptHolds(l: Link, side: Side, input: Input)
    requires LinkInv(l) && Enabled(l, Interrupt(side, input))
    ensures LinkInv(NextInterrupt(l, side, input))
  {
    hide FrameOf, Apply, Inv, EffectOf, DataWire, CreditWire, Histories, Counts, LastCredit;
    HostInputKeepsEndpoint(End(l, side), input);
    InterruptedMachine(End(l, side).machine, input);
  }

  lemma InterruptedMachine(m: State, input: Input)
    requires Inv(m) && (input.Revoke? || input.Close?)
    ensures Apply(m, input).next.closed.Some? && Apply(m, input).next == m.(closed := Apply(m, input).next.closed)
  {
  }

  lemma FinishDataOutHolds(l: Link, count: nat)
    requires LinkInv(l) && Enabled(l, Finish(Exporter, Data, Bytes(count)))
    requires l.exporter.machine.closed.None? && l.exporter.flights.data.Moved?
    ensures LinkInv(NextFinish(l, Exporter, Data, Bytes(count)))
  {
    hide FrameOf, Apply, Inv, DataWire, CreditWire, Histories, LastCredit, Complete, ProgressCredit, ParseHeader;
    var (e, buffer) := (l.exporter, l.wires.outbox);
    FinishingKeepsEndpoint(e, Data, Bytes(count), buffer);
    CompletedMachine(e.machine, Data, e.flights.data.op, Bytes(count), buffer);
    ByteCompletion(e.machine, Data, count, buffer);
    SendingDemand(e.machine);
    DataWireSent(l);
  }

  lemma DataWireSent(l: Link)
    requires LinkInv(l)
    ensures l.wires.dataSent <= |Newest(l.log.provided, l.exporter.machine.contract)|
  {
  }

  lemma SendingDemand(m: State)
    requires Inv(m) && m.direction.Export? && m.closed.None?
    requires Demand(m, Data).Some? && Demand(m, Data).value.Transfers()
    ensures m.stage.Sending? && Demand(m, Data).value.length == m.length - m.offsets.data
  {
  }

  /** Nine bytes of the credit for the frame it sent are what an exporter accepts. */
  lemma CreditAccepted(m: State, buffer: seq<Byte>)
    requires m.direction.Export? && m.closed.None? && !m.credited && (m.stage.Sending? || m.stage.Credit?)
    requires m.offsets.creditReceive == CREDIT_BYTES && buffer == CreditFor(m.sequence)
    ensures Settled(ProgressCredit(m, buffer))
            == m.(credited := true, offsets := m.offsets.(creditReceive := 0),
                  stage := if m.stage.Credit? then Source else m.stage)
  {
    CreditNamesSequence(m.sequence);
    assert buffer[1..CREDIT_BYTES] == buffer[1..];
  }

  /** The exporter's view when the whole credit for its frame has arrived. */
  lemma CreditIsExpected(l: Link)
    requires LinkInv(l) && l.wires.creditReceived == CREDIT_BYTES && l.exporter.machine.closed.None?
    ensures |l.log.credits| < |l.log.admitted| == |l.log.provided|
    ensures var m := l.exporter.machine;
            && !m.credited && (m.stage.Sending? || m.stage.Credit?)
            && l.wires.creditIn == CreditFor(m.sequence) == LastCredit(l.log.admitted)
            && m.sequence == l.log.provided[|l.log.credits|].sequence
            && l.wires.creditSent == CREDIT_BYTES && l.wires.credit == []
  {
    hide FrameOf, DataWire, ImporterLane, CreditFor, FlightInv, LaneInv, DistinctOps;
    var w := l.wires;
    assert w.creditIn[..CREDIT_BYTES] == w.creditIn;
    assert LastCredit(l.log.admitted)[..CREDIT_BYTES] == LastCredit(l.log.admitted);
  }

  lemma FinishCreditInHolds(l: Link, count: nat)
    requires LinkInv(l) && Enabled(l, Finish(Exporter, CreditReceive, Bytes(count)))
    requires l.exporter.machine.closed.None? && l.exporter.flights.creditReceive.Moved?
    ensures LinkInv(NextFinish(l, Exporter, CreditReceive, Bytes(count)))
    ensures NextFinish(l, Exporter, CreditReceive, Bytes(count)).exporter.machine.closed.None?
  {
    hide FrameOf, Apply, Inv, DataWire, CreditFor, Complete, ToLe, FieldU64, ProgressData;
    var (e, w, log) := (l.exporter, l.wires, l.log);
    FinishingKeepsEndpoint(e, CreditReceive, Bytes(count), w.creditIn);
    CompletedMachine(e.machine, CreditReceive, e.flights.creditReceive.op, Bytes(count), w.creditIn);
    ByteCompletion(e.machine, CreditReceive, count, w.creditIn);
    var next := NextFinish(l, Exporter, CreditReceive, Bytes(count));
    if w.creditReceived == CREDIT_BYTES {
      CreditIsExpected(l);
      CreditNamesSequence(e.machine.sequence);
      CreditAccepted(MovedOn(e.machine, CreditReceive, count), w.creditIn);
    }
    DataWireFrame(w, next.wires, Newest(log.provided, e.machine.contract), |log.admitted| == |log.provided|);
  }

  lemma FinishCreditOutHolds(l: Link, count: nat)
    requires LinkInv(l) && Enabled(l, Finish(Importer, CreditSend, Bytes(count)))
    requires l.importer.machine.closed.None? && l.importer.flights.creditSend.Moved?
    ensures LinkInv(NextFinish(l, Importer, CreditSend, Bytes(count)))
    ensures NextFinish(l, Importer, CreditSend, Bytes(count)).importer.machine.closed.None?
  {
    hide FrameOf, Apply, Inv, DataWire, Histories, LastCredit, Complete, ProgressData, ProgressCredit;
    var (e, buffer) := (l.importer, l.wires.creditOut);
    FinishingKeepsEndpoint(e, CreditSend, Bytes(count), buffer);
    CompletedMachine(e.machine, CreditSend, e.flights.creditSend.op, Bytes(count), buffer);
    ByteCompletion(e.machine, CreditSend, count, buffer);
    CreditDemand(e.machine);
  }

  lemma CreditDemand(m: State)
    requires Inv(m) && m.closed.None? && Demand(m, CreditSend).Some?
    ensures m.credited && Demand(m, CreditSend).value.length == CREDIT_BYTES - m.offsets.creditSend
  {
  }

  /** What the importer makes of the bytes of the frame on the wire. */
  lemma FinishDataInHolds(l: Link, count: nat)
    requires LinkInv(l) && Enabled(l, Finish(Importer, Data, Bytes(count)))
    requires l.importer.machine.closed.None? && l.importer.flights.data.Moved?
    ensures LinkInv(NextFinish(l, Importer, Data, Bytes(count)))
  {
    hide FrameOf, Apply, Inv, CreditWire, Histories, LastCredit, Complete, ProgressSend, ProgressCredit, ParseHeader;
    hide ExporterLane;
    var (e, buffer) := (l.importer, l.wires.inbox);
    var frame := Newest(l.log.provided, l.exporter.machine.contract);
    FinishingKeepsEndpoint(e, Data, Bytes(count), buffer);
    CompletedMachine(e.machine, Data, e.flights.data.op, Bytes(count), buffer);
    ByteCompletion(e.machine, Data, count, buffer);
    ReceiveDemand(e.machine);
    var moved := MovedOn(e.machine, Data, count);
    if e.machine.stage.Header? && HEADER_BYTES <= moved.offsets.data {
      HeaderOnWire(l);
      ParsedHeader(moved, buffer[..HEADER_BYTES], l.exporter.machine.contract,
                   l.log.provided[|l.log.provided| - 1].sequence, |frame| - HEADER_BYTES);
    }
  }

  lemma ReceiveDemand(m: State)
    requires Inv(m) && m.direction.Import? && m.closed.None?
    requires Demand(m, Data).Some? && Demand(m, Data).value.Transfers()
    ensures HEADER_BYTES <= m.capacity
    ensures m.stage.Header? || m.stage.Payload?
    ensures m.stage.Payload? ==> Demand(m, Data).value.length == m.length - m.offsets.data
    ensures m.stage.Header? ==> m.offsets.data + Demand(m, Data).value.length == m.capacity
  {
  }

  lemma HeaderOnWire(l: Link)
    requires LinkInv(l) && HEADER_BYTES <= l.wires.dataReceived
    ensures var item := l.log.provided[|l.log.provided| - 1];
            && l.log.provided != [] && |l.log.admitted| < |l.log.provided|
            && |Newest(l.log.provided, l.exporter.machine.contract)| == HEADER_BYTES + |item.payload|
            && |item.payload| <= U32_MAX
            && l.wires.inbox[..HEADER_BYTES] == HeaderOf(l.exporter.machine.contract, item.sequence, |item.payload|)
  {
    hide Inv, HeaderOf, CreditWire, ExporterLane, ImporterLane;
    var (w, frame) := (l.wires, Newest(l.log.provided, l.exporter.machine.contract));
    assert w.inbox[..HEADER_BYTES] == w.inbox[..w.dataReceived][..HEADER_BYTES] == frame[..HEADER_BYTES];
  }

  /** A header from the exporter either closes the importer or fixes what it reads next. */
  lemma ParsedHeader(m: State, header: seq<Byte>, source: Contract, sequence: U64, length: U32)
    requires header == HeaderOf(source, sequence, length)
    requires m.closed.None? && m.offsets.data <= HEADER_BYTES + length
    ensures var step := ParseHeader(m, header);
            if step.error.Some? then
              Settled(step) == step.next.(closed := step.error) && step.next.active == m.active
            else
              step.next == m.(revision := source.revision, sequence := sequence, length := HEADER_BYTES + length,
                              stage := if m.offsets.data == HEADER_BYTES + length then Admission else Payload)
    ensures var step := ParseHeader(m, header);
            SameLink(m, step.next) && step.next.credited == m.credited
    ensures ParseHeader(m, header).error.None? <==>
              && m.contract.event == source.event && m.contract.major == source.major
              && HEADER_BYTES + length <= m.capacity
              && (m.previous.Some? && m.contract.delivery.Ordered? ==> sequence as int == m.previous.value + 1)
              && (m.previous.Some? && m.contract.delivery.Latest? ==> sequence > m.previous.value)
  {
    hide HeaderOf;
    HeaderRoundTrip(source, sequence, length, m.contract);
  }

  // --- Runs ---

  lemma FinishHolds(l: Link, side: Side, lane: Lane, result: IoResult)
    requires LinkInv(l) && Enabled(l, Finish(side, lane, result))
    ensures LinkInv(NextFinish(l, side, lane, result))
  {
    hide Inv, DataWire, CreditWire, Histories, ExporterStage, ImporterStage, Newest, LastCredit;
    if End(l, side).machine.closed.Some? || End(l, side).flights.Get(lane).Queued? {
      EmptyFinishHolds(l, side, lane, result);
    } else {
      match (side, lane) {
        case (Exporter, Data) => FinishDataOutHolds(l, result.count);
        case (Exporter, CreditSend) =>
        case (Exporter, CreditReceive) => FinishCreditInHolds(l, result.count);
        case (Importer, Data) => FinishDataInHolds(l, result.count);
        case (Importer, CreditSend) => FinishCreditOutHolds(l, result.count);
        case (Importer, CreditReceive) =>
      }
    }
  }

  lemma MoveHolds(l: Link, side: Side, lane: Lane, count: nat)
    requires LinkInv(l) && CanMove(l, side, lane, count)
    ensures LinkInv(NextMove(l, side, lane, count))
  {
    hide LinkInv;
    match (side, lane) {
      case (Exporter, Data) => MoveDataOutHolds(l, count);
      case (Exporter, CreditReceive) => MoveCreditInHolds(l, count);
      case (Importer, Data) => MoveDataInHolds(l, count);
      case (Importer, CreditSend) => MoveCreditOutHolds(l, count);
      case (_, _) =>
    }
  }

  lemma AcceptHolds(l: Link, side: Side, lane: Lane, op: OpId, room: nat)
    requires LinkInv(l) && Enabled(l, Accept(side, lane, op, room))
    ensures LinkInv(NextAccept(l, side, lane, op, room))
  {
    hide LinkInv, Enabled;
    if side.Exporter? {
      AcceptExporterHolds(l, lane, op, room);
    } else if lane.CreditSend? {
      AcceptCreditHolds(l, op, room);
    } else {
      AcceptImporterHolds(l, lane, op, room);
    }
  }

  lemma StepHolds(l: Link, step: LinkStep)
    requires LinkInv(l) && Enabled(l, step)
    ensures LinkInv(Next(l, step))
  {
    hide LinkInv, NextProvide, NextAdmit, NextAccept, NextMove, NextFinish, NextInterrupt, EndpointInv, CanAccept;
    hide CanFinish;
    match step {
      case Provide(item) => ProvideHolds(l, item);
      case Deliver => DeliverHolds(l);
      case Admit => AdmitHolds(l);
      case Accept(side, lane, op, room) => AcceptHolds(l, side, lane, op, room);
      case Move(side, lane, count) => MoveHolds(l, side, lane, count);
      case Finish(side, lane, result) => FinishHolds(l, side, lane, result);
      case Interrupt(side, input) => InterruptHolds(l, side, input);
    }
  }

  /** Every step of the run is enabled where it is taken. */
  predicate Run(l: Link, steps: seq<LinkStep>)
    decreases |steps|
  {
    |steps| > 0 ==> Enabled(l, steps[0]) && Run(Next(l, steps[0]), steps[1..])
  }

  function Reached(l: Link, steps: seq<LinkStep>): Link
    requires Run(l, steps)
    decreases |steps|
  {
    if |steps| == 0 then l else Reached(Next(l, steps[0]), steps[1..])
  }

  lemma {:induction false} RunHolds(l: Link, steps: seq<LinkStep>)
    requires LinkInv(l) && Run(l, steps)
    ensures LinkInv(Reached(l, steps))
    decreases |steps|
  {
    hide LinkInv, Enabled, Next;
    if |steps| > 0 {
      StepHolds(l, steps[0]);
      RunHolds(Next(l, steps[0]), steps[1..]);
    }
  }

  /** Link safety: in every run, whatever was fragmented, retried, reordered between
      lanes, failed or closed, what the importer handed on and admitted is a prefix of
      what the exporter was given, at most one frame behind, and the exporter has
      accepted exactly the credits of a prefix of the admitted frames. */
  lemma {:induction false} LinkSafety(source: Contract, destination: Contract, exportCapacity: nat, importCapacity: nat,
                                      steps: seq<LinkStep>)
    requires ValidCapacity(exportCapacity) && ValidCapacity(importCapacity)
    requires Run(Start(source, destination, exportCapacity, importCapacity), steps)
    ensures var log := Reached(Start(source, destination, exportCapacity, importCapacity), steps).log;
            && log.admitted <= log.delivered <= log.provided
            && |log.credits| <= |log.admitted| && |log.provided| <= |log.credits| + 1
            && forall i :: 0 <= i < |log.credits| ==> log.credits[i] == log.admitted[i].sequence
  {
    hide Enabled, Next;
    StartHolds(source, destination, exportCapacity, importCapacity);
    RunHolds(Start(source, destination, exportCapacity, importCapacity), steps);
  }
}
