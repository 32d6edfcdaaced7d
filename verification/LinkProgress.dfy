/** Two matching ends never close themselves, and every provided frame is admitted
    and credited within a bounded number of steps. */
module LinkProgress {
  import opened Wire
  import opened Transport
  import opened Machine
  import opened Link
  import opened LinkSafety

  predicate Successor(delivery: Delivery, provided: seq<Item>, item: Item) {
    provided != [] ==> Follows(delivery, provided[|provided| - 1].sequence, item.sequence)
  }

  predicate SequencesFollow(delivery: Delivery, provided: seq<Item>) {
    forall i :: 0 < i < |provided| ==> Follows(delivery, provided[i - 1].sequence, provided[i].sequence)
  }

  /** Both ends open and provisioned alike; every frame fits and follows. */
  predicate Matched(l: Link) {
    var (source, destination) := (l.exporter.machine, l.importer.machine);
    && source.closed.None? && destination.closed.None?
    && source.contract.event == destination.contract.event
    && source.contract.major == destination.contract.major
    && (forall i :: 0 <= i < |l.log.provided| ==> Fits(l.log.provided[i], destination.capacity))
    && SequencesFollow(destination.contract.delivery, l.log.provided)
  }

  /** A step without an I/O failure, an end of stream or a host closure. */
  predicate Healthy(l: Link, step: LinkStep) {
    match step
    case Provide(item) =>
      && Fits(item, l.importer.machine.capacity)
      && Successor(l.importer.machine.contract.delivery, l.log.provided, item)
    case Finish(_, _, result) => !result.Failed? && result != Bytes(0)
    case Interrupt(_, _) => false
    case _ => true
  }

  lemma RetryStaysOpen(m: State, lane: Lane, buffer: seq<Byte>)
    requires Inv(m) && m.closed.None? && m.active.Get(lane).Some?
    ensures Settled(Complete(m, lane, Retry, buffer)) == IdleOn(m, lane)
  {
  }

  lemma FinishDataOutStaysOpen(l: Link, count: nat)
    requires LinkInv(l) && Enabled(l, Finish(Exporter, Data, Bytes(count))) && 0 < count
    requires l.exporter.machine.closed.None?
    ensures NextFinish(l, Exporter, Data, Bytes(count)).exporter.machine.closed.None?
  {
    hide FrameOf, Apply, Inv, DataWire, CreditWire, Histories, Complete, ParseHeader, Newest;
    var (e, buffer) := (l.exporter, l.wires.outbox);
    CompletedMachine(e.machine, Data, e.flights.data.op, Bytes(count), buffer);
    ByteCompletion(e.machine, Data, count, buffer);
    SendingDemand(e.machine);
  }

  lemma FinishDataInStaysOpen(l: Link, count: nat)
    requires LinkInv(l) && Matched(l) && Enabled(l, Finish(Importer, Data, Bytes(count))) && 0 < count
    ensures NextFinish(l, Importer, Data, Bytes(count)).importer.machine.closed.None?
  {
    hide FrameOf, Apply, Inv, DataWire, CreditWire, Complete, ParseHeader, Newest, ExporterLane;
    var (e, buffer) := (l.importer, l.wires.inbox);
    CompletedMachine(e.machine, Data, e.flights.data.op, Bytes(count), buffer);
    ByteCompletion(e.machine, Data, count, buffer);
    ReceiveDemand(e.machine);
    var moved := MovedOn(e.machine, Data, count);
    if e.machine.stage.Header? && HEADER_BYTES <= moved.offsets.data {
      HeaderOnWire(l);
      ReceivedFits(l);
      var n := |l.log.provided|;
      var item := l.log.provided[n - 1];
      ParsedHeader(moved, buffer[..HEADER_BYTES], l.exporter.machine.contract, item.sequence, |item.payload|);
    }
  }

  lemma ReceivedFits(l: Link)
    requires LinkInv(l)
    ensures l.wires.dataReceived <= |Newest(l.log.provided, l.exporter.machine.contract)|
  {
    hide Inv, CreditWire, ExporterLane, ImporterLane, FrameOf;
  }

  lemma FinishStaysOpen(l: Link, side: Side, lane: Lane, result: IoResult)
    requires LinkInv(l) && Matched(l) && Enabled(l, Finish(side, lane, result))
             && Healthy(l, Finish(side, lane, result))
    ensures NextFinish(l, side, lane, result).exporter.machine.closed.None?
    ensures NextFinish(l, side, lane, result).importer.machine.closed.None?
  {
    hide Inv, Apply, Complete, DataWire, CreditWire, Histories, ExporterStage, ImporterStage, Newest, LastCredit;
    var e := End(l, side);
    if result.Retry? {
      assert FlightInv(e, lane);
      CompletedMachine(e.machine, lane, e.flights.Get(lane).op, result, BufferOf(l.wires, side, lane));
      RetryStaysOpen(e.machine, lane, BufferOf(l.wires, side, lane));
    } else {
      match (side, lane) {
        case (Exporter, Data) => FinishDataOutStaysOpen(l, result.count);
        case (Exporter, CreditSend) =>
        case (Exporter, CreditReceive) => FinishCreditInHolds(l, result.count);
        case (Importer, Data) => FinishDataInStaysOpen(l, result.count);
        case (Importer, CreditSend) => FinishCreditOutHolds(l, result.count);
        case (Importer, CreditReceive) =>
      }
    }
  }

  lemma StepKeepsLinks(l: Link, step: LinkStep)
    requires LinkInv(l) && Enabled(l, step)
    ensures SameLink(l.exporter.machine, Next(l, step).exporter.machine)
    ensures SameLink(l.importer.machine, Next(l, step).importer.machine)
  {
    hide Inv, Apply, DataWire, CreditWire, Histories, ExporterLane, ImporterLane, Newest, LastCredit, FrameOf;
    match step {
      case Provide(item) =>
        ApplyKeepsContract(l.exporter.machine, Provided(item.sequence, |FrameOf(l.exporter.machine.contract, item)|));
      case Deliver =>
      case Admit => ApplyKeepsContract(l.importer.machine, Admitted);
      case Accept(side, lane, op, room) => ApplyKeepsContract(End(l, side).machine, Accepted(lane, op));
      case Move(side, lane, count) =>
      case Finish(side, lane, result) =>
        var e := End(l, side);
        ApplyKeepsContract(e.machine, Completed(e.flights.Get(lane).op, result, BufferOf(l.wires, side, lane)));
      case Interrupt(side, input) => ApplyKeepsContract(End(l, side).machine, input);
    }
  }

  /** Neither machine closes itself. */
  lemma StepStaysMatched(l: Link, step: LinkStep)
    requires LinkInv(l) && Matched(l) && Enabled(l, step) && Healthy(l, step)
    ensures Matched(Next(l, step))
  {
    hide Inv, Apply, DataWire, CreditWire, Histories, EffectOf, Newest, LastCredit, FrameOf;
    StepKeepsLinks(l, step);
    match step {
      case Provide(item) =>
        ProvidedMachine(l.exporter.machine, item.sequence, |FrameOf(l.exporter.machine.contract, item)|);
      case Deliver =>
      case Admit => AdmittedMachine(l.importer.machine);
      case Accept(side, lane, op, room) => AcceptedMachine(End(l, side).machine, lane, op);
      case Move(side, lane, count) =>
      case Finish(side, lane, result) => FinishStaysOpen(l, side, lane, result);
    }
  }

  predicate HealthyRun(l: Link, steps: seq<LinkStep>)
    decreases |steps|
  {
    |steps| > 0 ==>
      Enabled(l, steps[0]) && Healthy(l, steps[0]) && HealthyRun(Next(l, steps[0]), steps[1..])
  }

  lemma {:induction false} HealthyRunIsRun(l: Link, steps: seq<LinkStep>)
    requires HealthyRun(l, steps)
    ensures Run(l, steps)
    decreases |steps|
  {
    hide Enabled, Next, Healthy;
    if |steps| > 0 { HealthyRunIsRun(Next(l, steps[0]), steps[1..]); }
  }

  /** Over any healthy run from a matched link, neither end ever closes. */
  lemma {:induction false} NeverCloses(l: Link, steps: seq<LinkStep>)
    requires LinkInv(l) && Matched(l) && HealthyRun(l, steps)
    ensures Run(l, steps) && LinkInv(Reached(l, steps)) && Matched(Reached(l, steps))
    decreases |steps|
  {
    hide LinkInv, Matched, Enabled, Next, Healthy;
    HealthyRunIsRun(l, steps);
    if |steps| > 0 {
      StepHolds(l, steps[0]);
      StepStaysMatched(l, steps[0]);
      NeverCloses(Next(l, steps[0]), steps[1..]);
    }
  }

  // --- A measure of the work left ---

  function Weight(flight: Flight): nat {
    match flight
    case Idle => 2
    case Queued(_, _, _) => 1
    case Moved(_, _) => 0
  }

  function Lanes(flights: PerLane<Flight>): nat {
    Weight(flights.data) + Weight(flights.creditSend) + Weight(flights.creditReceive)
  }

  /** Bytes of the newest frame the exporter has not seen sent. */
  function ToSend(m: State): int {
    if m.stage.Sending? then m.length - m.offsets.data else 0
  }

  function ToReceive(m: State, log: Log, frame: seq<Byte>): int {
    if |log.admitted| < |log.provided| then |frame| - m.offsets.data else 0
  }

  function ToCredit(m: State, log: Log): int {
    CREDIT_BYTES * (|log.provided| - |log.admitted|)
    + if m.credited then CREDIT_BYTES - m.offsets.creditSend else 0
  }

  function ToCollect(m: State, log: Log): int {
    CREDIT_BYTES * (|log.provided| - |log.credits|) - m.offsets.creditReceive
  }

  /** Unsent, unread, uncredited and uncollected bytes, items to hand on and admit,
      and how far each lane is from reporting a transfer. */
  function Measure(l: Link): int {
    var (exporter, importer, log) := (l.exporter.machine, l.importer.machine, l.log);
    3 * (ToSend(exporter) + ToReceive(importer, log, Newest(log.provided, exporter.contract))
         + ToCredit(importer, log) + ToCollect(exporter, log))
    + (|log.provided| - |log.delivered|) + (|log.provided| - |log.admitted|)
    + Lanes(l.exporter.flights) + Lanes(l.importer.flights)
  }

  lemma MeasureIsNatural(l: Link)
    requires LinkInv(l) && Matched(l)
    ensures 0 <= Measure(l)
  {
    hide FrameOf, CreditFor, LaneInv, DistinctOps, EffectOf, Histories;
    assert Bounds(l.exporter.machine) && Bounds(l.importer.machine);
  }

  /** The most a step can add to the measure. */
  function Cost(l: Link, step: LinkStep): nat {
    match step
    case Provide(item) => 6 * (HEADER_BYTES + |item.payload|) + 6 * CREDIT_BYTES + 2
    case Finish(_, _, result) => if result.Retry? then 1 else 0
    case _ => 0
  }

  predicate Productive(step: LinkStep) {
    match step
    case Provide(_) => false
    case Finish(_, _, result) => result.Bytes?
    case _ => true
  }

  lemma ProgressDataOffsets(m: State, buffer: seq<Byte>)
    ensures var next := ProgressData(m, buffer).next;
            next.offsets == m.offsets && next.credited == m.credited
    ensures m.direction.Export? && m.stage.Sending? ==>
              var next := ProgressData(m, buffer).next;
              next.length == m.length && (next.stage.Sending? <==> m.offsets.data != m.length)
  {
    hide HeaderAddresses, HeaderSequence, HeaderRevision, HeaderLength, Follows;
  }

  lemma DataOutWorks(l: Link, count: nat)
    requires LinkInv(l) && Matched(l) && Enabled(l, Finish(Exporter, Data, Bytes(count))) && 0 < count
    ensures Measure(NextFinish(l, Exporter, Data, Bytes(count))) < Measure(l)
  {
    hide FrameOf, Apply, Inv, DataWire, CreditWire, Histories, Complete, ProgressData, Newest, ImporterLane;
    var (e, buffer) := (l.exporter, l.wires.outbox);
    CompletedMachine(e.machine, Data, e.flights.data.op, Bytes(count), buffer);
    ByteCompletion(e.machine, Data, count, buffer);
    SendingDemand(e.machine);
    ProgressDataOffsets(MovedOn(e.machine, Data, count), buffer);
    StepKeepsLinks(l, Finish(Exporter, Data, Bytes(count)));
  }

  lemma DataInWorks(l: Link, count: nat)
    requires LinkInv(l) && Matched(l) && Enabled(l, Finish(Importer, Data, Bytes(count))) && 0 < count
    ensures Measure(NextFinish(l, Importer, Data, Bytes(count))) < Measure(l)
  {
    hide FrameOf, Apply, Inv, CreditWire, Histories, Complete, ProgressData, ExporterLane;
    var (e, buffer) := (l.importer, l.wires.inbox);
    CompletedMachine(e.machine, Data, e.flights.data.op, Bytes(count), buffer);
    ByteCompletion(e.machine, Data, count, buffer);
    ProgressDataOffsets(MovedOn(e.machine, Data, count), buffer);
  }

  lemma CreditOutWorks(l: Link, count: nat)
    requires LinkInv(l) && Matched(l) && Enabled(l, Finish(Importer, CreditSend, Bytes(count))) && 0 < count
    ensures Measure(NextFinish(l, Importer, CreditSend, Bytes(count))) < Measure(l)
  {
    hide FrameOf, Apply, Inv, DataWire, CreditWire, Histories, Complete, ExporterLane, Newest;
    var (e, buffer) := (l.importer, l.wires.creditOut);
    CompletedMachine(e.machine, CreditSend, e.flights.creditSend.op, Bytes(count), buffer);
    ByteCompletion(e.machine, CreditSend, count, buffer);
    CreditDemand(e.machine);
  }

  lemma CreditInWorks(l: Link, count: nat)
    requires LinkInv(l) && Matched(l) && Enabled(l, Finish(Exporter, CreditReceive, Bytes(count))) && 0 < count
    ensures Measure(NextFinish(l, Exporter, CreditReceive, Bytes(count))) < Measure(l)
  {
    hide FrameOf, Apply, Inv, DataWire, CreditFor, Complete, ToLe, FieldU64, ProgressData, ImporterLane, Newest;
    var (e, w) := (l.exporter, l.wires);
    CompletedMachine(e.machine, CreditReceive, e.flights.creditReceive.op, Bytes(count), w.creditIn);
    ByteCompletion(e.machine, CreditReceive, count, w.creditIn);
    StepKeepsLinks(l, Finish(Exporter, CreditReceive, Bytes(count)));
    if w.creditReceived == CREDIT_BYTES {
      CreditIsExpected(l);
      CreditAccepted(MovedOn(e.machine, CreditReceive, count), w.creditIn);
    }
  }

  lemma FinishWorks(l: Link, side: Side, lane: Lane, result: IoResult)
    requires LinkInv(l) && Matched(l) && Enabled(l, Finish(side, lane, result))
             && Healthy(l, Finish(side, lane, result))
    ensures Measure(NextFinish(l, side, lane, result)) <= Measure(l) + (if result.Retry? then 1 else -1)
  {
    hide Inv, Apply, Complete, DataWire, CreditWire, Histories, ExporterStage, ImporterStage, Newest, LastCredit;
    var e := End(l, side);
    if result.Retry? {
      assert FlightInv(e, lane);
      CompletedMachine(e.machine, lane, e.flights.Get(lane).op, result, BufferOf(l.wires, side, lane));
      RetryStaysOpen(e.machine, lane, BufferOf(l.wires, side, lane));
    } else {
      match (side, lane) {
        case (Exporter, Data) => DataOutWorks(l, result.count);
        case (Exporter, CreditSend) =>
        case (Exporter, CreditReceive) => CreditInWorks(l, result.count);
        case (Importer, Data) => DataInWorks(l, result.count);
        case (Importer, CreditSend) => CreditOutWorks(l, result.count);
        case (Importer, CreditReceive) =>
      }
    }
  }

  lemma ProvideCosts(l: Link, item: Item)
    requires LinkInv(l) && Matched(l) && Enabled(l, LinkStep.Provide(item))
    ensures Measure(NextProvide(l, item)) <= Measure(l) + Cost(l, LinkStep.Provide(item))
  {
    hide Inv, Apply, DataWire, CreditWire, Histories, EffectOf, FrameOf, LastCredit;
    var m := l.exporter.machine;
    ProvidedMachine(m, item.sequence, |FrameOf(m.contract, item)|);
    SourceIsSettled(l);
  }

  /** Every productive step lowers the measure; a retry or a new frame raises it by a fixed cost. */
  lemma StepWorks(l: Link, step: LinkStep)
    requires LinkInv(l) && Matched(l) && Enabled(l, step) && Healthy(l, step)
    ensures Measure(Next(l, step)) <= Measure(l) + Cost(l, step) - (if Productive(step) then 1 else 0)
  {
    hide Inv, Apply, DataWire, CreditWire, Histories, EffectOf, Newest, LastCredit, FrameOf;
    match step {
      case Provide(item) => ProvideCosts(l, item);
      case Deliver =>
      case Admit =>
        AdmittedMachine(l.importer.machine);
        AdmitWorks(l);
      case Accept(side, lane, op, room) => AcceptWorks(l, side, lane, op, room);
      case Move(side, lane, count) => MoveWorks(l, side, lane, count);
      case Finish(side, lane, result) => FinishWorks(l, side, lane, result);
    }
  }

  lemma AdmitWorks(l: Link)
    requires LinkInv(l) && Matched(l) && Enabled(l, LinkStep.Admit)
    ensures Measure(NextAdmit(l)) < Measure(l)
  {
    hide Inv, Apply, DataWire, CreditWire, Histories, EffectOf, LastCredit, FrameOf, ExporterLane;
    AdmittedMachine(l.importer.machine);
    AdmissionIsQuiet(l);
  }

  lemma AcceptMovesNothing(i: State, j: State, e: State, f: State, log: Log, frame: seq<Byte>)
    requires j == i.(active := j.active) && f == e.(active := f.active)
    ensures ToSend(f) == ToSend(e) && ToCollect(f, log) == ToCollect(e, log)
    ensures ToReceive(j, log, frame) == ToReceive(i, log, frame) && ToCredit(j, log) == ToCredit(i, log)
  {
  }

  lemma AcceptWorks(l: Link, side: Side, lane: Lane, op: OpId, room: nat)
    requires LinkInv(l) && Enabled(l, Accept(side, lane, op, room))
    ensures Measure(NextAccept(l, side, lane, op, room)) < Measure(l)
  {
    hide Inv, Apply, DataWire, CreditWire, Histories, EffectOf, LastCredit, FrameOf, ExporterLane, ImporterLane;
    hide Newest, ToReceive, ToCredit, ToCollect;
    AcceptedMachine(End(l, side).machine, lane, op);
    assert FlightInv(End(l, side), lane);
    var next := NextAccept(l, side, lane, op, room);
    assert Lanes(End(next, side).flights) == Lanes(End(l, side).flights) - 1;
    AcceptMovesNothing(l.importer.machine, next.importer.machine, l.exporter.machine, next.exporter.machine, l.log,
                       Newest(l.log.provided, l.exporter.machine.contract));
  }

  lemma MoveWorks(l: Link, side: Side, lane: Lane, count: nat)
    requires LinkInv(l) && CanMove(l, side, lane, count)
    ensures Measure(NextMove(l, side, lane, count)) < Measure(l)
  {
    hide Inv, DataWire, CreditWire, Histories, EffectOf, LastCredit, FrameOf, ExporterLane, ImporterLane;
    match lane
    case Data =>
    case CreditSend =>
    case CreditReceive =>
  }

  function ProductiveSteps(steps: seq<LinkStep>): nat
    decreases |steps|
  {
    if |steps| == 0 then 0 else (if Productive(steps[0]) then 1 else 0) + ProductiveSteps(steps[1..])
  }

  function TotalCost(l: Link, steps: seq<LinkStep>): nat
    requires Run(l, steps)
    decreases |steps|
  {
    if |steps| == 0 then 0 else Cost(l, steps[0]) + TotalCost(Next(l, steps[0]), steps[1..])
  }

  /** A healthy run makes no more productive steps than its frames and retries pay for. */
  lemma {:induction false} WorkIsBounded(l: Link, steps: seq<LinkStep>)
    requires LinkInv(l) && Matched(l) && HealthyRun(l, steps)
    ensures Run(l, steps)
    ensures Measure(Reached(l, steps)) + ProductiveSteps(steps) <= Measure(l) + TotalCost(l, steps)
    decreases |steps|
  {
    hide LinkInv, Matched, Enabled, Next, Healthy, Measure, Cost;
    HealthyRunIsRun(l, steps);
    if |steps| > 0 {
      StepHolds(l, steps[0]);
      StepStaysMatched(l, steps[0]);
      StepWorks(l, steps[0]);
      WorkIsBounded(Next(l, steps[0]), steps[1..]);
    }
  }

  // --- There is always something to do until everything is credited ---

  /** Every provided frame was admitted and its credit accepted; the exporter waits
      for an item and the importer for a header. */
  predicate Quiet(l: Link) {
    && l.exporter.machine.stage.Source? && !l.importer.machine.credited
    && l.log.admitted == l.log.delivered == l.log.provided
    && |l.log.credits| == |l.log.provided|
  }

  function UnusedOp(active: PerLane<Option<Active>>): (op: OpId)
    ensures FirstLane(active, op).None?
  {
    if FirstLane(active, OpId(0, 0)).None? then OpId(0, 0)
    else if FirstLane(active, OpId(1, 0)).None? then OpId(1, 0)
    else if FirstLane(active, OpId(2, 0)).None? then OpId(2, 0)
    else OpId(3, 0)
  }

  predicate CanWork(l: Link, step: LinkStep) {
    Enabled(l, step) && Healthy(l, step) && Productive(step)
  }

  /** Submit the lane's transfer, or serve one byte of it. */
  function Push(l: Link, side: Side, lane: Lane): LinkStep {
    match End(l, side).flights.Get(lane)
    case Idle => Accept(side, lane, UnusedOp(End(l, side).machine.active), 1)
    case Queued(_, _, _) => Move(side, lane, 1)
    case Moved(_, count) => Finish(side, lane, Bytes(count))
  }

  /** The next step of an unfinished exchange: report what has moved, send what is
      ready, read what has arrived, then deliver and admit. */
  function Choose(l: Link): LinkStep {
    var (exporter, importer) := (l.exporter.machine, l.importer.machine);
    if l.exporter.flights.data.Moved? then Push(l, Exporter, Data)
    else if l.importer.flights.creditSend.Moved? then Push(l, Importer, CreditSend)
    else if l.exporter.flights.creditReceive.Moved? then Push(l, Exporter, CreditReceive)
    else if l.importer.flights.data.Moved? then Push(l, Importer, Data)
    else if exporter.stage.Sending? && |l.log.credits| < |l.log.provided| && l.wires.dataSent < exporter.length then
      Push(l, Exporter, Data)
    else if |l.log.admitted| < |l.log.provided| then
      if !importer.stage.Admission? then Push(l, Importer, Data)
      else if |l.log.delivered| == |l.log.admitted| then Deliver
      else LinkStep.Admit
    else if importer.credited then Push(l, Importer, CreditSend)
    else Push(l, Exporter, CreditReceive)
  }

  lemma IdlePush(l: Link, side: Side, lane: Lane)
    requires LinkInv(l) && End(l, side).machine.closed.None? && End(l, side).flights.Get(lane).Idle?
    requires Demand(End(l, side).machine, lane).Some? && Demand(End(l, side).machine, lane).value.Transfers()
    ensures CanWork(l, Push(l, side, lane))
  {
    hide Demand, DataWire, CreditWire, Histories, ExporterLane, ImporterLane, FrameOf;
    var m := End(l, side).machine;
    assert FlightInv(End(l, side), lane);
    EffectFitsBuffer(m, lane);
  }

  lemma MovedPush(l: Link, side: Side, lane: Lane)
    requires LinkInv(l) && End(l, side).flights.Get(lane).Moved?
    ensures CanWork(l, Push(l, side, lane))
  {
    hide DataWire, CreditWire, Histories, ExporterLane, ImporterLane, FrameOf, Inv;
    assert FlightInv(End(l, side), lane);
  }

  lemma QueuedPush(l: Link, side: Side, lane: Lane)
    requires LinkInv(l) && End(l, side).flights.Get(lane).Queued?
    requires (side.Exporter? && lane.Data?) || (side.Importer? && lane.CreditSend?)
             || (side.Exporter? && lane.CreditReceive? && l.wires.credit != [])
             || (side.Importer? && lane.Data? && l.wires.data != [])
    ensures CanWork(l, Push(l, side, lane))
  {
    hide Histories, FrameOf, Inv, CreditFor, ExporterStage, ImporterStage;
    assert FlightInv(End(l, side), lane);
  }

  predicate NothingMoved(l: Link) {
    && !l.exporter.flights.data.Moved? && !l.exporter.flights.creditReceive.Moved?
    && !l.importer.flights.data.Moved? && !l.importer.flights.creditSend.Moved?
  }

  lemma SendingWorks(l: Link)
    requires LinkInv(l) && Matched(l) && !l.exporter.flights.data.Moved?
    requires l.exporter.machine.stage.Sending?
    ensures CanWork(l, Push(l, Exporter, Data))
  {
    hide Histories, FrameOf, CreditFor, DataWire, CreditWire, ImporterLane, Enabled, DistinctOps;
    if l.exporter.flights.data.Queued? { QueuedPush(l, Exporter, Data); } else { IdlePush(l, Exporter, Data); }
  }

  /** The whole frame is on the wire or read, and not admitted. */
  lemma ReceivingWorks(l: Link)
    requires LinkInv(l) && Matched(l) && NothingMoved(l) && !l.exporter.machine.stage.Sending?
    requires |l.log.admitted| < |l.log.provided|
    ensures !l.importer.machine.stage.Admission? ==> CanWork(l, Push(l, Importer, Data))
    ensures l.importer.machine.stage.Admission? ==> !l.importer.machine.credited
  {
    hide Histories, FrameOf, CreditFor, Enabled, DistinctOps;
    assert Bounds(l.importer.machine);
    if l.importer.machine.stage.Admission? {
    } else if l.importer.flights.data.Queued? {
      QueuedPush(l, Importer, Data);
    } else {
      IdlePush(l, Importer, Data);
    }
  }

  lemma CreditingWorks(l: Link)
    requires LinkInv(l) && Matched(l) && NothingMoved(l) && l.importer.machine.credited
    ensures CanWork(l, Push(l, Importer, CreditSend))
  {
    hide Histories, FrameOf, CreditFor, DataWire, CreditWire, ExporterLane, Enabled, DistinctOps;
    if l.importer.flights.creditSend.Queued? {
      QueuedPush(l, Importer, CreditSend);
    } else {
      IdlePush(l, Importer, CreditSend);
    }
  }

  lemma CollectingWorks(l: Link)
    requires LinkInv(l) && Matched(l) && NothingMoved(l) && !l.importer.machine.credited
    requires |l.log.credits| < |l.log.admitted|
    ensures CanWork(l, Push(l, Exporter, CreditReceive))
  {
    hide Histories, FrameOf, CreditFor, DataWire, Enabled, DistinctOps;
    if l.exporter.flights.creditReceive.Queued? {
      QueuedPush(l, Exporter, CreditReceive);
    } else {
      IdlePush(l, Exporter, CreditReceive);
    }
  }

  lemma AdmissionWorks(l: Link)
    requires LinkInv(l) && Matched(l) && |l.log.admitted| < |l.log.provided|
    requires l.importer.machine.stage.Admission? && !l.importer.machine.credited
    ensures CanWork(l, if |l.log.delivered| == |l.log.admitted| then Deliver else LinkStep.Admit)
  {
    hide Histories, FrameOf, CreditFor, DataWire, CreditWire, ExporterLane, DistinctOps;
    AdmissionIsQuiet(l);
  }

  /** A matched link that is not quiet always has a productive step. */
  lemma NeverStuck(l: Link)
    requires LinkInv(l) && Matched(l) && !Quiet(l)
    ensures CanWork(l, Choose(l))
  {
    hide CanWork, Push, FrameOf, CreditFor, Inv;
    if l.exporter.flights.data.Moved? {
      MovedPush(l, Exporter, Data);
    } else if l.importer.flights.creditSend.Moved? {
      MovedPush(l, Importer, CreditSend);
    } else if l.exporter.flights.creditReceive.Moved? {
      MovedPush(l, Exporter, CreditReceive);
    } else if l.importer.flights.data.Moved? {
      MovedPush(l, Importer, Data);
    } else if l.exporter.machine.stage.Sending? {
      SendingUnfinished(l);
      SendingWorks(l);
    } else if |l.log.admitted| < |l.log.provided| {
      ReceivingWorks(l);
      if l.importer.machine.stage.Admission? { AdmissionWorks(l); }
    } else if l.importer.machine.credited {
      CreditingWorks(l);
    } else {
      NotQuietNotCredited(l);
      CollectingWorks(l);
    }
  }

  /** A frame credited while its last completion is due has that completion moved. */
  lemma SendingUnfinished(l: Link)
    requires LinkInv(l) && Matched(l) && l.exporter.machine.stage.Sending? && !l.exporter.flights.data.Moved?
    ensures |l.log.credits| < |l.log.provided| && l.wires.dataSent < l.exporter.machine.length
  {
    hide Histories, FrameOf, CreditFor, CreditWire, ImporterLane, DistinctOps;
    assert Bounds(l.exporter.machine);
  }

  lemma NotQuietNotCredited(l: Link)
    requires LinkInv(l) && Matched(l) && !Quiet(l) && |l.log.admitted| == |l.log.provided|
    requires !l.importer.machine.credited && !l.exporter.machine.stage.Sending?
    ensures |l.log.credits| < |l.log.admitted|
  {
    hide FrameOf, CreditFor, CreditWire, DataWire, ImporterLane, Inv;
  }

  /** Link progress: from any reachable point of a matched link the exchange can be
      finished, in no more steps than the measure, without providing anything new. */
  lemma {:induction false} Drains(l: Link) returns (steps: seq<LinkStep>)
    requires LinkInv(l) && Matched(l)
    ensures HealthyRun(l, steps) && Run(l, steps) && ProductiveSteps(steps) == |steps| <= Measure(l)
    ensures Quiet(Reached(l, steps)) && Reached(l, steps).log.admitted == l.log.provided
    decreases Measure(l)
  {
    hide LinkInv, Matched, Enabled, Next, Healthy, Measure, Quiet, Choose;
    MeasureIsNatural(l);
    if Quiet(l) {
      QuietIsAdmitted(l);
      steps := [];
    } else {
      NeverStuck(l);
      var step := Choose(l);
      StepHolds(l, step);
      StepStaysMatched(l, step);
      StepWorks(l, step);
      ProductiveIsFree(l, step);
      MeasureIsNatural(Next(l, step));
      var rest := Drains(Next(l, step));
      steps := [step] + rest;
      assert steps[1..] == rest;
    }
  }

  lemma QuietIsAdmitted(l: Link)
    requires Quiet(l)
    ensures l.log.admitted == l.log.provided
  {
  }

  lemma ProductiveIsFree(l: Link, step: LinkStep)
    requires Enabled(l, step) && Productive(step)
    ensures Cost(l, step) == 0
    ensures Next(l, step).log.provided == l.log.provided
  {
    hide EndpointInv, EffectOf, Apply;
  }
}
