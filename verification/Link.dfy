/** An exporter and an importer joined by two FIFO byte streams, with the kernel's
    accepted operations between each machine and the wire. */
module Link {
  import opened Wire
  import opened Transport
  import opened Machine

  /** An accepted transfer: waiting, or done with its bytes but not yet reported. */
  datatype Flight =
    | Idle
    | Queued(op: OpId, offset: nat, room: nat)
    | Moved(op: OpId, count: nat)
  {
    function Count(): nat { if Moved? then count else 0 }
  }

  datatype Endpoint = Endpoint(machine: State, flights: PerLane<Flight>)

  datatype Side = Exporter | Importer

  /** The four buffers and the two byte streams. `dataSent` and `dataReceived` count
      bytes of the newest frame and of the next frame to admit; `creditSent` and
      `creditReceived` do the same for credits. */
  datatype Wires = Wires(
    outbox: seq<Byte>,
    inbox: seq<Byte>,
    creditOut: seq<Byte>,
    creditIn: seq<Byte>,
    data: seq<Byte>,
    credit: seq<Byte>,
    dataSent: nat,
    dataReceived: nat,
    creditSent: nat,
    creditReceived: nat)

  /** Everything provided, handed to the local sender, admitted, and credited so far. */
  datatype Log = Log(provided: seq<Item>, delivered: seq<Item>, admitted: seq<Item>, credits: seq<U64>)

  datatype Link = Link(exporter: Endpoint, importer: Endpoint, wires: Wires, log: Log)

  datatype LinkStep =
    /** The exporter's codec fills a frame for the next source item. */
    | Provide(item: Item)
    /** The importer's loop hands the decoded payload to its local sender, then says so. */
    | Deliver
    | Admit
    /** The driver submits a lane's effect, shortened to `room` bytes. */
    | Accept(side: Side, lane: Lane, op: OpId, room: nat)
    /** The kernel transfers `count` of the requested bytes. */
    | Move(side: Side, lane: Lane, count: nat)
    /** The completion reaches the machine. */
    | Finish(side: Side, lane: Lane, result: IoResult)
    /** The host revokes or closes one end. */
    | Interrupt(side: Side, input: Input)

  const NO_FLIGHTS: PerLane<Flight> := PerLane(Idle, Idle, Idle)

  function Zeros(n: nat): (zeros: seq<Byte>)
    ensures |zeros| == n
  {
    seq(n, _ => 0)
  }

  function Start(source: Contract, destination: Contract, exportCapacity: nat, importCapacity: nat): Link
    requires ValidCapacity(exportCapacity) && ValidCapacity(importCapacity)
  {
    Link(Endpoint(Fresh(source, Export, exportCapacity), NO_FLIGHTS),
         Endpoint(Fresh(destination, Import, importCapacity), NO_FLIGHTS),
         Wires(Zeros(exportCapacity), Zeros(importCapacity), Zeros(CREDIT_BYTES), Zeros(CREDIT_BYTES),
               [], [], 0, 0, 0, 0),
         Log([], [], [], []))
  }

  // --- Endpoints: a machine and the kernel agree on what is in flight ---

  predicate FlightInv(e: Endpoint, lane: Lane) {
    var active := e.machine.active.Get(lane);
    match e.flights.Get(lane)
    case Idle => active.None?
    case Queued(op, offset, room) =>
      && active.Some? && active.value.op == op && active.value.effect.Transfers()
      && active.value.effect.offset == offset
      && 0 < room <= active.value.effect.length
    case Moved(op, count) =>
      && active.Some? && active.value.op == op && active.value.effect.Transfers()
      && 0 < count <= active.value.effect.length
  }

  predicate EndpointInv(e: Endpoint) {
    && Inv(e.machine)
    && FlightInv(e, Data) && FlightInv(e, CreditSend) && FlightInv(e, CreditReceive)
  }

  /** A lane with a transfer to submit and an unused operation id. */
  predicate CanAccept(e: Endpoint, lane: Lane, op: OpId, room: nat)
    requires Inv(e.machine)
  {
    var effect := EffectOf(e.machine, lane);
    && effect.Some? && effect.value.Transfers()
    && 0 < room <= effect.value.length
    && FirstLane(e.machine.active, op).None?
  }

  function Accepting(e: Endpoint, lane: Lane, op: OpId, room: nat): Endpoint
    requires Inv(e.machine) && CanAccept(e, lane, op, room)
  {
    Endpoint(Apply(e.machine, Accepted(lane, op)).next,
             e.flights.Set(lane, Queued(op, EffectOf(e.machine, lane).value.offset, room)))
  }

  /** What the kernel may report: what it moved, or a queued request's failure. */
  predicate CanFinish(flight: Flight, result: IoResult) {
    match flight
    case Idle => false
    case Queued(_, _, _) => result.Bytes? ==> result.count == 0
    case Moved(_, count) => result == Bytes(count)
  }

  function Finishing(e: Endpoint, lane: Lane, result: IoResult, buffer: seq<Byte>): Endpoint
    requires Inv(e.machine) && !e.flights.Get(lane).Idle?
  {
    Endpoint(Apply(e.machine, Completed(e.flights.Get(lane).op, result, buffer)).next,
             e.flights.Set(lane, Idle))
  }

  // --- Steps ---

  predicate Enabled(l: Link, step: LinkStep) {
    EndpointInv(l.exporter) && EndpointInv(l.importer) &&
    match step
    case Provide(item) =>
      && EffectOf(l.exporter.machine, Data) == Some(Effect.Provide)
      && Fits(item, l.exporter.machine.capacity)
      && |l.wires.outbox| == l.exporter.machine.capacity
    case Deliver =>
      && |l.log.delivered| == |l.log.admitted|
      && (var effect := EffectOf(l.importer.machine, Data); effect.Some? && effect.value.Admit?)
      && |l.wires.inbox| == l.importer.machine.capacity
    case Admit => |l.log.delivered| == |l.log.admitted| + 1
    case Accept(side, lane, op, room) => CanAccept(End(l, side), lane, op, room)
    case Move(side, lane, count) => CanMove(l, side, lane, count)
    case Finish(side, lane, result) => CanFinish(End(l, side).flights.Get(lane), result)
    case Interrupt(_, input) => input.Revoke? || input.Close?
  }

  function End(l: Link, side: Side): Endpoint {
    if side.Exporter? then l.exporter else l.importer
  }

  predicate Fits(item: Item, capacity: nat) {
    |item.payload| <= U32_MAX && HEADER_BYTES + |item.payload| <= capacity
  }

  /** A queued request the kernel can serve: bytes to send in its buffer, or bytes
      waiting on its wire with space for them. No wire carries bytes to the
      importer's control lane. */
  predicate CanMove(l: Link, side: Side, lane: Lane, count: nat) {
    var flight := End(l, side).flights.Get(lane);
    && flight.Queued? && 0 < count <= flight.room
    && match (side, lane)
       case (Exporter, Data) => flight.offset + flight.room <= |l.wires.outbox|
       case (Exporter, CreditReceive) =>
         count <= |l.wires.credit| && flight.offset + flight.room <= |l.wires.creditIn|
       case (Importer, Data) => count <= |l.wires.data| && flight.offset + flight.room <= |l.wires.inbox|
       case (Importer, CreditSend) => flight.offset + flight.room <= |l.wires.creditOut|
       case (_, _) => false
  }

  function Write(buffer: seq<Byte>, at: nat, bytes: seq<Byte>): (written: seq<Byte>)
    requires at + |bytes| <= |buffer|
    ensures |written| == |buffer|
    ensures written[..at] == buffer[..at] && written[at..at + |bytes|] == bytes
  {
    buffer[..at] + bytes + buffer[at + |bytes|..]
  }

  function Moving(e: Endpoint, lane: Lane, count: nat): Endpoint
    requires e.flights.Get(lane).Queued?
  {
    e.(flights := e.flights.Set(lane, Moved(e.flights.Get(lane).op, count)))
  }

  function Next(l: Link, step: LinkStep): Link
    requires Enabled(l, step)
  {
    match step
    case Provide(item) => NextProvide(l, item)
    case Deliver =>
      var m := l.importer.machine;
      l.(log := l.log.(delivered := l.log.delivered + [Item(m.sequence, l.wires.inbox[HEADER_BYTES..m.length])]))
    case Admit => NextAdmit(l)
    case Accept(side, lane, op, room) => NextAccept(l, side, lane, op, room)
    case Move(side, lane, count) => NextMove(l, side, lane, count)
    case Finish(side, lane, result) => NextFinish(l, side, lane, result)
    case Interrupt(side, input) => NextInterrupt(l, side, input)
  }

  function NextProvide(l: Link, item: Item): Link
    requires Enabled(l, LinkStep.Provide(item))
  {
    var m := l.exporter.machine;
    var frame := FrameOf(m.contract, item);
    Link(l.exporter.(machine := Apply(m, Provided(item.sequence, |frame|)).next), l.importer,
         l.wires.(outbox := Write(l.wires.outbox, 0, frame), dataSent := 0),
         l.log.(provided := l.log.provided + [item]))
  }

  /** The sender has taken the payload; the machine may have closed in between. */
  function NextAdmit(l: Link): Link
    requires Enabled(l, LinkStep.Admit)
  {
    var step := Apply(l.importer.machine, Admitted);
    var told := l.(importer := l.importer.(machine := step.next));
    if step.error.Some? then told
    else
      told.(wires := l.wires.(dataReceived := 0, creditSent := 0),
            log := l.log.(admitted := l.log.admitted + [l.log.delivered[|l.log.admitted|]]))
  }

  /** A credit is written into its buffer when its first byte is submitted. */
  function NextAccept(l: Link, side: Side, lane: Lane, op: OpId, room: nat): Link
    requires Enabled(l, Accept(side, lane, op, room))
  {
    match side
    case Exporter => l.(exporter := Accepting(l.exporter, lane, op, room))
    case Importer =>
      var accepted := l.(importer := Accepting(l.importer, lane, op, room));
      if lane.CreditSend? && EffectOf(l.importer.machine, lane).value.offset == 0 then
        accepted.(wires := l.wires.(creditOut := CreditOf(l.importer.machine)))
      else accepted
  }

  function NextMove(l: Link, side: Side, lane: Lane, count: nat): Link
    requires CanMove(l, side, lane, count)
  {
    var w := l.wires;
    var at := End(l, side).flights.Get(lane).offset;
    if side.Exporter? && lane.Data? then
      l.(exporter := Moving(l.exporter, lane, count),
         wires := w.(data := w.data + w.outbox[at..at + count], dataSent := w.dataSent + count))
    else if side.Exporter? then
      l.(exporter := Moving(l.exporter, lane, count),
         wires := w.(creditIn := Write(w.creditIn, at, w.credit[..count]), credit := w.credit[count..],
                     creditReceived := w.creditReceived + count))
    else if lane.Data? then
      l.(importer := Moving(l.importer, lane, count),
         wires := w.(inbox := Write(w.inbox, at, w.data[..count]), data := w.data[count..],
                     dataReceived := w.dataReceived + count))
    else
      l.(importer := Moving(l.importer, lane, count),
         wires := w.(credit := w.credit + w.creditOut[at..at + count], creditSent := w.creditSent + count))
  }

  function BufferOf(w: Wires, side: Side, lane: Lane): seq<Byte> {
    match (side, lane)
    case (Exporter, Data) => w.outbox
    case (Importer, Data) => w.inbox
    case (Exporter, _) => w.creditIn
    case (Importer, _) => w.creditOut
  }

  /** An exporter whose credit flag rises has accepted the credit in its buffer. */
  function NextFinish(l: Link, side: Side, lane: Lane, result: IoResult): Link
    requires Enabled(l, Finish(side, lane, result))
  {
    var e := Finishing(End(l, side), lane, result, BufferOf(l.wires, side, lane));
    match side
    case Importer => l.(importer := e)
    case Exporter =>
      if e.machine.credited && !l.exporter.machine.credited && |l.wires.creditIn| == CREDIT_BYTES then
        Link(e, l.importer, l.wires.(creditReceived := 0),
             l.log.(credits := l.log.credits + [FieldU64(l.wires.creditIn[1..])]))
      else l.(exporter := e)
  }

  function NextInterrupt(l: Link, side: Side, input: Input): Link
    requires EndpointInv(l.exporter) && EndpointInv(l.importer)
  {
    match side
    case Exporter => l.(exporter := l.exporter.(machine := Apply(l.exporter.machine, input).next))
    case Importer => l.(importer := l.importer.(machine := Apply(l.importer.machine, input).next))
  }

  // --- The invariant ---

  predicate Counts(log: Log) {
    |log.credits| <= |log.admitted| <= |log.delivered| <= |log.provided| <= |log.credits| + 1
  }

  predicate Histories(log: Log, capacity: nat)
    requires Counts(log)
  {
    && (forall i :: 0 <= i < |log.provided| ==> Fits(log.provided[i], capacity))
    && log.delivered == log.provided[..|log.delivered|]
    && log.admitted == log.provided[..|log.admitted|]
    && forall i :: 0 <= i < |log.credits| ==> log.credits[i] == log.provided[i].sequence
  }

  /** The newest frame, if any was provided. */
  function Newest(provided: seq<Item>, contract: Contract): seq<Byte> {
    if provided == [] || |provided[|provided| - 1].payload| > U32_MAX then []
    else FrameOf(contract, provided[|provided| - 1])
  }

  /** The bytes of the newest frame are in the exporter's buffer; those sent but not
      received are on the wire; those received are in the importer's buffer. */
  predicate DataWire(w: Wires, frame: seq<Byte>, settled: bool) {
    && |frame| <= |w.outbox| && w.outbox[..|frame|] == frame
    && w.dataReceived <= w.dataSent <= |frame|
    && w.dataReceived <= |w.inbox|
    && if settled then w.dataSent == |frame| && w.dataReceived == 0 && w.data == []
       else w.data == frame[w.dataReceived..w.dataSent] && w.inbox[..w.dataReceived] == frame[..w.dataReceived]
  }

  /** The credit for the last admitted frame. */
  function LastCredit(admitted: seq<Item>): seq<Byte> {
    if admitted == [] then [] else CreditFor(admitted[|admitted| - 1].sequence)
  }

  predicate CreditWire(w: Wires, credit: seq<Byte>, settled: bool) {
    && |w.creditOut| == CREDIT_BYTES && |w.creditIn| == CREDIT_BYTES
    && w.creditReceived <= w.creditSent <= |credit| <= CREDIT_BYTES
    && if settled then w.creditSent == |credit| && w.creditReceived == 0 && w.credit == []
       else w.credit == credit[w.creditReceived..w.creditSent]
            && w.creditIn[..w.creditReceived] == credit[..w.creditReceived]
  }

  predicate ExporterLane(e: Endpoint, log: Log, sent: nat, received: nat) {
    var (m, flights) := (e.machine, e.flights);
    && m.direction.Export? && flights.creditSend.Idle?
    && (flights.data.Queued? ==>
          flights.data.offset == sent && flights.data.offset + flights.data.room <= |Newest(log.provided, m.contract)|)
    && (flights.creditReceive.Queued? ==>
          && flights.creditReceive.offset == received
          && flights.creditReceive.offset + flights.creditReceive.room <= CREDIT_BYTES)
    && (m.closed.None? ==> ExporterStage(e, log, sent, received))
  }

  predicate ExporterStage(e: Endpoint, log: Log, sent: nat, received: nat) {
    var (m, flights) := (e.machine, e.flights);
    && received == m.offsets.creditReceive + flights.creditReceive.Count()
    && if m.stage.Source? then |log.credits| == |log.provided|
       else
         && log.provided != [] && m.length == |Newest(log.provided, m.contract)|
         && m.sequence == log.provided[|log.provided| - 1].sequence
         && (m.stage.Sending? ==>
               && sent == m.offsets.data + flights.data.Count()
               && (m.credited <==> |log.credits| == |log.provided|))
         && (!m.stage.Sending? ==> sent == m.length && |log.credits| < |log.provided|)
  }

  predicate ImporterLane(e: Endpoint, w: Wires, log: Log, frame: seq<Byte>) {
    var (m, flights) := (e.machine, e.flights);
    && m.direction.Import? && !flights.creditReceive.Moved?
    && (flights.data.Queued? ==>
          flights.data.offset == w.dataReceived && flights.data.offset + flights.data.room <= |w.inbox|)
    && (flights.creditSend.Queued? ==>
          && flights.creditSend.offset == w.creditSent
          && flights.creditSend.offset + flights.creditSend.room <= CREDIT_BYTES
          && w.creditOut == LastCredit(log.admitted))
    && (m.closed.None? ==> ImporterStage(e, w, log, frame))
  }

  predicate ImporterStage(e: Endpoint, w: Wires, log: Log, frame: seq<Byte>) {
    var (m, flights) := (e.machine, e.flights);
    && w.dataReceived == m.offsets.data + flights.data.Count()
    && m.previous == (if log.admitted == [] then None else Some(log.admitted[|log.admitted| - 1].sequence))
    && (m.credited ==>
          && log.admitted != []
          && w.creditSent == m.offsets.creditSend + flights.creditSend.Count()
          && (0 < w.creditSent ==> w.creditOut == LastCredit(log.admitted)))
    && (!m.credited && log.admitted != [] ==> w.creditSent == CREDIT_BYTES)
    && (!m.stage.Header? ==>
          && |log.admitted| < |log.provided| && m.length == |frame|
          && m.sequence == log.provided[|log.provided| - 1].sequence)
    && (|log.delivered| > |log.admitted| ==> m.stage.Admission? && !m.credited)
  }

  predicate LinkInv(l: Link) {
    var frame := Newest(l.log.provided, l.exporter.machine.contract);
    && EndpointInv(l.exporter) && EndpointInv(l.importer)
    && |l.wires.outbox| == l.exporter.machine.capacity && |l.wires.inbox| == l.importer.machine.capacity
    && Counts(l.log) && Histories(l.log, l.exporter.machine.capacity)
    && DataWire(l.wires, frame, |l.log.admitted| == |l.log.provided|)
    && CreditWire(l.wires, LastCredit(l.log.admitted), |l.log.credits| == |l.log.admitted|)
    && ExporterLane(l.exporter, l.log, l.wires.dataSent, l.wires.creditReceived)
    && ImporterLane(l.importer, l.wires, l.log, frame)
  }

  lemma StartHolds(source: Contract, destination: Contract, exportCapacity: nat, importCapacity: nat)
    requires ValidCapacity(exportCapacity) && ValidCapacity(importCapacity)
    ensures LinkInv(Start(source, destination, exportCapacity, importCapacity))
  {
  }

  // --- Endpoints keep their invariant ---

  lemma AcceptingKeepsEndpoint(e: Endpoint, lane: Lane, op: OpId, room: nat)
    requires EndpointInv(e) && CanAccept(e, lane, op, room)
    ensures EndpointInv(Accepting(e, lane, op, room))
  {
    hide Inv, Apply, EffectOf;
    ApplyKeepsInv(e.machine, Accepted(lane, op));
    AcceptedMachine(e.machine, lane, op);
    match lane
    case Data =>
    case CreditSend =>
    case CreditReceive =>
  }

  lemma FinishingKeepsEndpoint(e: Endpoint, lane: Lane, result: IoResult, buffer: seq<Byte>)
    requires EndpointInv(e) && !e.flights.Get(lane).Idle?
    ensures EndpointInv(Finishing(e, lane, result, buffer))
  {
    hide Inv, Apply, Complete;
    assert FlightInv(e, lane);
    var op := e.flights.Get(lane).op;
    ApplyKeepsInv(e.machine, Completed(op, result, buffer));
    CompletedMachine(e.machine, lane, op, result, buffer);
    CompleteClearsLane(e.machine, lane, result, buffer);
    match lane
    case Data =>
    case CreditSend =>
    case CreditReceive =>
  }

  /** Inputs from the host and the loops leave the accepted operations alone. */
  lemma HostInputKeepsEndpoint(e: Endpoint, input: Input)
    requires EndpointInv(e) && !input.Accepted? && !input.Completed?
    ensures EndpointInv(Endpoint(Apply(e.machine, input).next, e.flights))
    ensures Apply(e.machine, input).next.active == e.machine.active
  {
    hide Demand, Bounds, DistinctOps;
    ApplyKeepsInv(e.machine, input);
  }

  lemma MovingKeepsEndpoint(e: Endpoint, lane: Lane, count: nat)
    requires EndpointInv(e) && e.flights.Get(lane).Queued? && 0 < count <= e.flights.Get(lane).room
    ensures EndpointInv(Moving(e, lane, count))
  {
    hide Inv;
    assert FlightInv(e, lane);
    match lane
    case Data =>
    case CreditSend =>
    case CreditReceive =>
  }
}
