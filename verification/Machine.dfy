/** The HWY1 state machine as a value: what each input does to it.
    The class in Protocol.dfy updates its fields in place and is proved equal to this. */
module Machine {
  import opened Wire
  import opened Transport

  datatype Lane = Data | CreditSend | CreditReceive

  datatype PerLane<T> = PerLane(data: T, creditSend: T, creditReceive: T) {
    function Get(lane: Lane): T {
      match lane
      case Data => data
      case CreditSend => creditSend
      case CreditReceive => creditReceive
    }

    function Set(lane: Lane, value: T): PerLane<T> {
      match lane
      case Data => this.(data := value)
      case CreditSend => this.(creditSend := value)
      case CreditReceive => this.(creditReceive := value)
    }
  }

  datatype OpId = OpId(slot: U32, generation: U32)

  datatype Effect =
    | Receive(offset: nat, length: nat)
    | Transmit(offset: nat, length: nat)
    | Provide
    | Admit(length: nat, revision: U32)
    | Cancel(target: OpId)
  {
    predicate Transfers() { Receive? || Transmit? }
  }

  datatype IoResult = Bytes(count: nat) | Retry | Failed(code: int)

  datatype Input =
    | Accepted(lane: Lane, op: OpId)
    | Completed(op: OpId, result: IoResult, buffer: seq<Byte>)
    | Provided(sequence: U64, length: nat)
    | Admitted
    | Revoke
    | Close(error: Error)

  datatype Stage = Source | Sending | Credit | Header | Payload | Admission

  datatype Active = Active(op: OpId, effect: Effect)

  datatype State = State(
    contract: Contract,
    direction: Direction,
    capacity: nat,
    stage: Stage,
    active: PerLane<Option<Active>>,
    offsets: PerLane<nat>,
    length: nat,
    sequence: U64,
    previous: Option<U64>,
    revision: U32,
    credited: bool,
    closed: Option<Error>)

  /** What a transition tells the connection's accountability history. */
  datatype Note =
    | Observe(sequence: U64)
    | NoteAdmitted
    | NoteCompleted(sequence: U64)
    | NoteRejected(error: Error)
    | NoteCancelled

  datatype Step = Step(next: State, error: Option<Error>, notes: seq<Note>)

  predicate ValidCapacity(capacity: nat) {
    HEADER_BYTES <= capacity && capacity - HEADER_BYTES <= U32_MAX
  }

  function Fresh(contract: Contract, direction: Direction, capacity: nat): (m: State)
    requires ValidCapacity(capacity)
    ensures Inv(m)
  {
    State(contract, direction, capacity, if direction.Import? then Header else Source,
          PerLane(None, None, None), PerLane(0, 0, 0), HEADER_BYTES, 0, None, contract.revision, false, None)
  }

  /** Offsets and lengths of an open machine: every subtraction in an effect is
      of a smaller from a larger value, and every transfer asks for at least a byte. */
  predicate Bounds(m: State) {
    && HEADER_BYTES <= m.length <= m.capacity
    && match m.direction
       case Export =>
         && (m.stage.Source? || m.stage.Sending? || m.stage.Credit?)
         && (m.stage.Sending? ==> m.offsets.data < m.length)
         && (m.stage.Credit? ==> !m.credited)
         && m.offsets.creditReceive < CREDIT_BYTES
       case Import =>
         && (m.stage.Header? || m.stage.Payload? || m.stage.Admission?)
         && (m.stage.Header? ==> m.offsets.data < HEADER_BYTES == m.length)
         && (m.stage.Payload? ==> HEADER_BYTES <= m.offsets.data < m.length)
         && (m.stage.Admission? ==> m.offsets.data == m.length)
         && (m.credited ==> m.offsets.creditSend < CREDIT_BYTES && m.previous.Some?)
         && m.offsets.creditReceive == 0
  }

  predicate Unlike(a: Option<Active>, b: Option<Active>) {
    a.Some? && b.Some? ==> a.value.op != b.value.op
  }

  predicate DistinctOps(active: PerLane<Option<Active>>) {
    && Unlike(active.data, active.creditSend)
    && Unlike(active.data, active.creditReceive)
    && Unlike(active.creditSend, active.creditReceive)
  }

  /** While a machine is open, an accepted operation's effect is still the one
      its lane would ask for now. */
  predicate LaneInv(m: State, lane: Lane)
    requires m.closed.None? ==> Bounds(m)
  {
    m.active.Get(lane).Some? ==>
      && m.active.Get(lane).value.effect.Transfers()
      && 0 < m.active.Get(lane).value.effect.length
      && (m.closed.None? ==> Some(m.active.Get(lane).value.effect) == Demand(m, lane))
  }

  /** Holds of a fresh machine and is kept by every input. */
  predicate Inv(m: State) {
    && ValidCapacity(m.capacity)
    && (m.closed.None? ==> Bounds(m))
    && DistinctOps(m.active)
    && LaneInv(m, Data) && LaneInv(m, CreditSend) && LaneInv(m, CreditReceive)
  }

  /** What an open machine wants next on a lane with no accepted operation. */
  function Demand(m: State, lane: Lane): Option<Effect>
    requires Bounds(m)
  {
    match lane
    case Data =>
      (match m.stage
       case Source => Some(Provide)
       case Sending => Some(Transmit(m.offsets.data, m.length - m.offsets.data))
       case Header => Some(Effect.Receive(m.offsets.data, m.capacity - m.offsets.data))
       case Payload => Some(Effect.Receive(m.offsets.data, m.length - m.offsets.data))
       case Admission => if m.credited then None else Some(Admit(m.length - HEADER_BYTES, m.revision))
       case Credit => None)
    case CreditSend =>
      if m.direction.Import? && m.credited then
        Some(Transmit(m.offsets.creditSend, CREDIT_BYTES - m.offsets.creditSend))
      else None
    case CreditReceive =>
      Some(Effect.Receive(m.offsets.creditReceive,
                   if m.direction.Export? then CREDIT_BYTES - m.offsets.creditReceive else 1))
  }

  function EffectOf(m: State, lane: Lane): (effect: Option<Effect>)
    requires Inv(m)
  {
    match m.active.Get(lane)
    case Some(active) => if m.closed.Some? then Some(Cancel(active.op)) else None
    case None => if m.closed.Some? then None else Demand(m, lane)
  }

  /** The nine bytes the credit lane transmits. */
  function CreditOf(m: State): seq<Byte> {
    CreditFor(if m.previous.Some? then m.previous.value else m.sequence)
  }

  function FirstLane(active: PerLane<Option<Active>>, op: OpId): (lane: Option<Lane>)
    ensures lane.Some? ==> active.Get(lane.value).Some? && active.Get(lane.value).value.op == op
    ensures lane.None? ==> forall l: Lane :: active.Get(l).Some? ==> active.Get(l).value.op != op
  {
    if active.data.Some? && active.data.value.op == op then Some(Data)
    else if active.creditSend.Some? && active.creditSend.value.op == op then Some(CreditSend)
    else if active.creditReceive.Some? && active.creditReceive.value.op == op then Some(CreditReceive)
    else None
  }

  function Closing(m: State, error: Error): State {
    if m.closed.None? then m.(closed := Some(error)) else m
  }

  function Stay(m: State): Step { Step(m, None, []) }
  function Fail(m: State, error: Error): Step { Step(m, Some(error), []) }

  function Transition(m: State, input: Input): Step
    requires Inv(m)
  {
    match input
    case Revoke => Stay(Closing(m, Error.Revoked))
    case Close(error) => Stay(Closing(m, error))
    case Accepted(lane, op) =>
      var effect := EffectOf(m, lane);
      if effect.None? || !effect.value.Transfers() then Fail(m, Protocol)
      else if FirstLane(m.active, op).Some? then Fail(m, Protocol)
      else Stay(m.(active := m.active.Set(lane, Some(Active(op, effect.value)))))
    case Completed(op, result, buffer) =>
      (match FirstLane(m.active, op)
       case None => Stay(m)
       case Some(lane) => Complete(m, lane, result, buffer))
    case Provided(sequence, length) =>
      if m.closed.Some? then Fail(m, m.closed.value)
      else if m.stage != Source || length < HEADER_BYTES || length > m.capacity then Fail(m, Protocol)
      else
        Step(m.(sequence := sequence, length := length, offsets := m.offsets.Set(Data, 0),
                credited := false, stage := Sending),
             None, [Observe(sequence), NoteAdmitted])
    case Admitted =>
      if m.closed.Some? then Fail(m, m.closed.value)
      else if m.stage != Admission || m.credited then Fail(m, Protocol)
      else
        Step(m.(previous := Some(m.sequence), credited := true,
                offsets := m.offsets.Set(CreditSend, 0).Set(Data, 0),
                length := HEADER_BYTES, stage := Header),
             None, [NoteAdmitted])
  }

  function Requested(effect: Effect): nat
    requires effect.Transfers()
  {
    effect.length
  }

  /** One terminal completion of the operation accepted on `lane`. */
  function Complete(m: State, lane: Lane, result: IoResult, buffer: seq<Byte>): Step
    requires Inv(m) && m.active.Get(lane).Some?
  {
    var requested := Requested(m.active.Get(lane).value.effect);
    var idle := m.(active := m.active.Set(lane, None));
    if m.closed.Some? then Stay(idle)
    else
      match result
      case Retry => Stay(idle)
      case Failed(code) => Fail(idle, Io(code))
      case Bytes(count) =>
        if count == 0 then Fail(idle, Closed)
        else if count > requested then Fail(idle, Protocol)
        else Progress(idle.(offsets := idle.offsets.Set(lane, idle.offsets.Get(lane) + count)), lane, buffer)
  }

  function Progress(m: State, lane: Lane, buffer: seq<Byte>): Step {
    match lane
    case Data => ProgressData(m, buffer)
    case CreditSend => ProgressSend(m)
    case CreditReceive => ProgressCredit(m, buffer)
  }

  function ProgressSend(m: State): Step {
    if m.offsets.creditSend != CREDIT_BYTES then Stay(m)
    else Step(m.(credited := false), None, if m.previous.Some? then [NoteCompleted(m.previous.value)] else [])
  }

  function ProgressData(m: State, buffer: seq<Byte>): Step {
    match m.stage
    case Sending =>
      if m.offsets.data != m.length then Stay(m)
      else if m.credited then Step(m.(stage := Source), None, [NoteCompleted(m.sequence)])
      else Stay(m.(stage := Credit))
    case Header =>
      if m.offsets.data < HEADER_BYTES then Stay(m)
      else if |buffer| < HEADER_BYTES then Fail(m, Protocol)
      else ParseHeader(m, buffer[..HEADER_BYTES])
    case Payload => Stay(if m.offsets.data == m.length then m.(stage := Admission) else m)
    case _ => Fail(m, Protocol)
  }

  function ParseHeader(m: State, header: seq<Byte>): Step
    requires |header| == HEADER_BYTES
  {
    var seen := [Observe(HeaderSequence(header))];
    if !HeaderAddresses(header, m.contract) then Step(m, Some(Protocol), seen)
    else
      var read := m.(revision := HeaderRevision(header), sequence := HeaderSequence(header),
                     length := HEADER_BYTES + HeaderLength(header));
      if read.length > read.capacity then Step(read, Some(Capacity), seen)
      else if read.offsets.data > read.length then Step(read, Some(Protocol), seen)
      else if read.previous.Some? && !Follows(read.contract.delivery, read.previous.value, read.sequence) then
        Step(read, Some(Protocol), seen)
      else Step(read.(stage := if read.offsets.data == read.length then Admission else Payload), None, seen)
  }

  function ProgressCredit(m: State, buffer: seq<Byte>): Step {
    if m.direction.Import? then Fail(m, Protocol)
    else if m.offsets.creditReceive != CREDIT_BYTES then Stay(m)
    else if |buffer| < CREDIT_BYTES then Fail(m, Protocol)
    else if buffer[0] != 1 || buffer[1..CREDIT_BYTES] != ToLe(m.sequence, 8) || m.credited
            || !(m.stage.Sending? || m.stage.Credit?) then Fail(m, Protocol)
    else
      var credited := m.(credited := true, offsets := m.offsets.Set(CreditReceive, 0));
      if m.stage.Credit? then Step(credited.(stage := Source), None, [NoteCompleted(m.sequence)])
      else Stay(credited)
  }

  /** Closure by the host is a cancellation; any other closure is a rejection. */
  predicate HostClosure(input: Input) {
    input.Revoke? || (input.Close? && (input.error == Closed || input.error == Error.Revoked))
  }

  /** An error closes the machine that reported it. */
  function Settled(step: Step): State {
    if step.error.Some? then Closing(step.next, step.error.value) else step.next
  }

  /** One input: an error closes the machine, and a closed machine's history ends. */
  function Apply(m: State, input: Input): (step: Step)
    requires Inv(m)
  {
    var taken := Transition(m, input);
    var next := Settled(taken);
    var end := if next.closed.None? then []
               else if HostClosure(input) then [NoteCancelled]
               else [NoteRejected(next.closed.value)];
    Step(next, taken.error, taken.notes + end)
  }

  lemma IdleKeepsInv(m: State, lane: Lane)
    requires Inv(m)
    ensures Inv(m.(active := m.active.Set(lane, None)))
  {
    match lane
    case Data => assert LaneInv(m, CreditSend) && LaneInv(m, CreditReceive);
    case CreditSend => assert LaneInv(m, Data) && LaneInv(m, CreditReceive);
    case CreditReceive => assert LaneInv(m, CreditSend) && LaneInv(m, Data);
  }

  /** A machine with an idle lane that wants to move at least `count` more bytes on it. */
  predicate Ready(m: State, lane: Lane, count: nat) {
    && Inv(m) && m.closed.None? && m.active.Get(lane).None?
    && Demand(m, lane).Some? && Demand(m, lane).value.Transfers()
    && 0 < count <= Demand(m, lane).value.length
  }

  lemma HeaderKeepsInv(m: State, count: nat, buffer: seq<Byte>)
    requires Ready(m, Data, count) && m.stage.Header?
    ensures Inv(Settled(ProgressData(m.(offsets := m.offsets.(data := m.offsets.data + count)), buffer)))
  {
    hide HeaderAddresses, HeaderSequence, HeaderRevision, HeaderLength, Follows;
  }

  lemma PayloadKeepsInv(m: State, count: nat, buffer: seq<Byte>)
    requires Ready(m, Data, count) && !m.stage.Header?
    ensures Inv(Settled(ProgressData(m.(offsets := m.offsets.(data := m.offsets.data + count)), buffer)))
  {
    hide HeaderAddresses, HeaderSequence, HeaderRevision, HeaderLength, Follows;
  }

  lemma CreditSendKeepsInv(m: State, count: nat)
    requires Ready(m, CreditSend, count)
    ensures Inv(Settled(ProgressSend(m.(offsets := m.offsets.(creditSend := m.offsets.creditSend + count)))))
  {
  }

  lemma CreditReceiveKeepsInv(m: State, count: nat, buffer: seq<Byte>)
    requires Ready(m, CreditReceive, count)
    ensures Inv(Settled(ProgressCredit(m.(offsets := m.offsets.(creditReceive := m.offsets.creditReceive + count)),
                                       buffer)))
  {
  }

  lemma ProgressKeepsInv(m: State, lane: Lane, count: nat, buffer: seq<Byte>)
    requires Ready(m, lane, count)
    ensures var moved := m.(offsets := m.offsets.Set(lane, m.offsets.Get(lane) + count));
            Inv(Settled(Progress(moved, lane, buffer)))
  {
    hide ProgressData, ProgressCredit, ProgressSend, Inv, Settled;
    match lane
    case Data =>
      if m.stage.Header? { HeaderKeepsInv(m, count, buffer); } else { PayloadKeepsInv(m, count, buffer); }
    case CreditSend => CreditSendKeepsInv(m, count);
    case CreditReceive => CreditReceiveKeepsInv(m, count, buffer);
  }

  lemma CompleteKeepsInv(m: State, lane: Lane, result: IoResult, buffer: seq<Byte>)
    requires Inv(m) && m.active.Get(lane).Some?
    ensures Inv(Settled(Complete(m, lane, result, buffer)))
  {
    hide Progress;
    assert LaneInv(m, lane);
    IdleKeepsInv(m, lane);
    if m.closed.None? && result.Bytes? && 0 < result.count <= m.active.Get(lane).value.effect.length {
      ProgressKeepsInv(m.(active := m.active.Set(lane, None)), lane, result.count, buffer);
    }
  }

  /** Every effect a machine ever asks for lies inside its fixed buffers: after any
      input the invariant holds again, so no offset passes its length. */
  lemma ApplyKeepsInv(m: State, input: Input)
    requires Inv(m)
    ensures Inv(Apply(m, input).next)
  {
    match input {
      case Completed(op, result, buffer) =>
        if FirstLane(m.active, op).Some? {
          CompleteKeepsInv(m, FirstLane(m.active, op).value, result, buffer);
        }
      case Accepted(lane, op) => AcceptKeepsInv(m, lane, op);
      case _ =>
    }
  }

  lemma AcceptKeepsInv(m: State, lane: Lane, op: OpId)
    requires Inv(m)
    ensures Inv(Apply(m, Accepted(lane, op)).next)
  {
    EffectFitsBuffer(m, lane);
  }

  predicate SameLink(m: State, next: State) {
    next.contract == m.contract && next.direction == m.direction && next.capacity == m.capacity
  }

  /** A credit is only ever sent for a frame that was admitted. */
  lemma SentCreditHasFrame(m: State, lane: Lane)
    requires Inv(m) && m.closed.None? && m.active.Get(lane).Some?
    ensures lane.CreditSend? ==> m.previous.Some?
  {
  }

  lemma ProgressKeepsContract(m: State, lane: Lane, buffer: seq<Byte>)
    ensures SameLink(m, Progress(m, lane, buffer).next)
  {
    hide HeaderAddresses, HeaderSequence, HeaderRevision, HeaderLength, Follows, ToLe;
  }

  lemma ApplyKeepsContract(m: State, input: Input)
    requires Inv(m)
    ensures SameLink(m, Apply(m, input).next)
  {
    hide Progress, Demand, Bounds;
    match input {
      case Completed(op, result, buffer) =>
        var found := FirstLane(m.active, op);
        if found.Some? && result.Bytes? {
          var idle := m.(active := m.active.Set(found.value, None));
          var moved := idle.offsets.Get(found.value) + result.count;
          ProgressKeepsContract(idle.(offsets := idle.offsets.Set(found.value, moved)),
                                found.value, buffer);
        }
      case _ =>
    }
  }

  /** A transfer always moves at least one byte and stays inside the lane's buffer. */
  lemma EffectFitsBuffer(m: State, lane: Lane)
    requires Inv(m)
    ensures var effect := EffectOf(m, lane);
            effect.Some? && effect.value.Transfers() ==>
              && 0 < effect.value.length
              && effect.value.offset + effect.value.length <= (if lane.Data? then m.capacity else CREDIT_BYTES)
  {
  }

  /** Closure is final and keeps its first error. */
  lemma ClosureIsFinal(m: State, input: Input)
    requires Inv(m) && m.closed.Some?
    ensures Apply(m, input).next.closed == m.closed
    ensures forall lane: Lane :: Apply(m, input).next.active.Get(lane) == m.active.Get(lane)
              || (Apply(m, input).next.active.Get(lane).None? && input.Completed?)
  {
  }

  lemma AcceptedMachine(m: State, lane: Lane, op: OpId)
    requires Inv(m) && EffectOf(m, lane).Some? && EffectOf(m, lane).value.Transfers()
    requires FirstLane(m.active, op).None?
    ensures Apply(m, Accepted(lane, op)).next
            == m.(active := m.active.Set(lane, Some(Active(op, EffectOf(m, lane).value))))
    ensures m.active.Get(lane).None? && m.closed.None?
  {
  }

  lemma CompletedMachine(m: State, lane: Lane, op: OpId, result: IoResult, buffer: seq<Byte>)
    requires Inv(m) && m.active.Get(lane).Some? && m.active.Get(lane).value.op == op
    ensures Apply(m, Completed(op, result, buffer)).next == Settled(Complete(m, lane, result, buffer))
    ensures Apply(m, Completed(op, result, buffer)).error == Complete(m, lane, result, buffer).error
  {
    hide Complete, Demand, Bounds;
    assert FirstLane(m.active, op) == Some(lane);
  }

  lemma ProgressLeavesActive(m: State, lane: Lane, buffer: seq<Byte>)
    ensures Progress(m, lane, buffer).next.active == m.active
  {
    hide HeaderAddresses, HeaderSequence, HeaderRevision, HeaderLength, Follows, ToLe;
  }

  lemma CompleteClearsLane(m: State, lane: Lane, result: IoResult, buffer: seq<Byte>)
    requires Inv(m) && m.active.Get(lane).Some?
    ensures Settled(Complete(m, lane, result, buffer)).active == m.active.Set(lane, None)
  {
    hide Progress, Demand, Bounds, DistinctOps;
    if result.Bytes? {
      var idle := m.(active := m.active.Set(lane, None));
      ProgressLeavesActive(idle.(offsets := idle.offsets.Set(lane, idle.offsets.Get(lane) + result.count)), lane,
                           buffer);
    }
  }
}
