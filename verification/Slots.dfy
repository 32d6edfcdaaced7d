/** One link's record in the driver, and what each driver call does to it. */
module Slots {
  import opened Wire
  import opened Transport
  import opened Machine
  import opened Operations

  datatype Work = Work(wake: bool, reclaim: bool, notify: bool) {
    predicate IsEmpty() { !wake && !reclaim && !notify }
  }

  const NO_WORK: Work := Work(false, false, false)

  /** `resources` are the two sockets and the reservation, held and released together. */
  datatype Slot = Slot(
    generation: U64,
    protocol: Option<State>,
    resources: bool,
    operations: PerLane<Op>,
    hints: PerLane<bool>,
    alive: bool,
    waker: bool,
    work: Work,
    nextLane: Lane,
    contended: bool)

  function LaneNumber(lane: Lane): (n: nat)
    ensures n < 3
  {
    match lane
    case Data => 0
    case CreditSend => 1
    case CreditReceive => 2
  }

  function LaneAt(n: nat): Lane {
    if n % 3 == 0 then Data else if n % 3 == 1 then CreditSend else CreditReceive
  }

  function OpSlot(index: nat, lane: Lane): nat { 3 * index + LaneNumber(lane) }

  predicate IsClosed(slot: Slot) {
    slot.protocol.Some? && slot.protocol.value.closed.Some?
  }

  predicate IsOpen(slot: Slot) {
    slot.protocol.Some? && slot.protocol.value.closed.None?
  }

  // --- Invariant ---

  /** The stable shapes: an ended operation is reclaimed at once unless its
      cancellation is still with the kernel. */
  predicate OpShape(op: Op) {
    match op.phase
    case Available => op.cancellation.NoCancel?
    case Prepared => op.cancellation.NoCancel?
    case Submitted => true
    case Done => op.cancellation.CancelSubmitted?
  }

  /** The protocol's accepted operation on a lane is the one the kernel holds. */
  predicate LaneAgrees(slot: Slot, lane: Lane) {
    var op := slot.operations.Get(lane);
    match slot.protocol
    case None => op.phase.Available?
    case Some(m) =>
      (match m.active.Get(lane)
       case Some(active) => op.phase.Submitted? && active.op == op.id
       case None => !op.phase.Submitted?)
  }

  predicate LaneShape(slot: Slot, index: nat, lane: Lane) {
    var op := slot.operations.Get(lane);
    && op.id.slot == OpSlot(index, lane)
    && OpShape(op)
    && LaneAgrees(slot, lane)
    && (!op.phase.Available? ==> slot.resources)
    && (!op.cancellation.NoCancel? ==> IsClosed(slot))
  }

  predicate SlotInv(slot: Slot, index: nat) {
    && (slot.protocol.Some? ==> Inv(slot.protocol.value))
    && LaneShape(slot, index, Data) && LaneShape(slot, index, CreditSend) && LaneShape(slot, index, CreditReceive)
    && (slot.protocol.None? ==> !slot.resources && !slot.alive) && (slot.waker ==> slot.alive)
    && (IsOpen(slot) ==> slot.resources && slot.alive)
    && (slot.work.reclaim ==> IsClosed(slot) && AllAvailable(slot) && (slot.resources || !slot.alive))
  }

  predicate AllAvailable(slot: Slot) {
    && slot.operations.data.phase.Available?
    && slot.operations.creditSend.phase.Available?
    && slot.operations.creditReceive.phase.Available?
  }

  // --- Pending work on a slot ---

  /** A cancellation to submit, or a transfer the protocol asks for on a free lane. */
  predicate LanePending(slot: Slot, lane: Lane) {
    var op := slot.operations.Get(lane);
    slot.protocol.Some? && Inv(slot.protocol.value) &&
    (op.cancellation.Requested?
     || ((op.phase.Available? || op.phase.Prepared?)
         && var effect := EffectOf(slot.protocol.value, lane);
            effect.Some? && effect.value.Transfers()))
  }

  /** The first pending lane at or after the slot's turn marker. */
  function PendingLane(slot: Slot): (lane: Option<Lane>)
    ensures lane.Some? ==> LanePending(slot, lane.value)
    ensures lane.None? ==> forall l: Lane :: !LanePending(slot, l)
  {
    var first := slot.nextLane;
    var second := LaneAt(LaneNumber(first) + 1);
    var third := LaneAt(LaneNumber(first) + 2);
    if LanePending(slot, first) then Some(first)
    else if LanePending(slot, second) then Some(second)
    else if LanePending(slot, third) then Some(third)
    else None
  }

  /** A closed link's operation nobody has asked to cancel yet. */
  predicate Uncancelled(slot: Slot, lane: Lane) {
    var op := slot.operations.Get(lane);
    op.phase.Prepared? || (op.phase.Submitted? && op.cancellation.NoCancel?)
  }

  predicate Reclaimable(slot: Slot) {
    IsClosed(slot) && AllAvailable(slot) && (slot.resources || !slot.alive)
  }

  /** What an I/O pass could still do for a slot. */
  predicate NeedsPass(slot: Slot) {
    || PendingLane(slot).Some?
    || (IsClosed(slot) && (Uncancelled(slot, Data) || Uncancelled(slot, CreditSend)
       || Uncancelled(slot, CreditReceive)))
    || (Reclaimable(slot) && !slot.work.reclaim)
  }

  /** What the machine asks of its owner: the next frame, or an admission. */
  function OwnerEffect(slot: Slot): (effect: Option<Effect>) {
    if slot.protocol.Some? && Inv(slot.protocol.value) then
      var effect := EffectOf(slot.protocol.value, Data);
      if effect.Some? && (effect.value.Provide? || effect.value.Admit?) then effect else None
    else None
  }

  /** The link has closed, or has come to ask its owner for something it did not ask before. */
  predicate Newly(was: Slot, now: Slot) {
    (IsOpen(was) && IsClosed(now)) || (OwnerEffect(now).Some? && OwnerEffect(now) != OwnerEffect(was))
  }

  /** The registered waker stays, no wake record is lost, and what newly concerns a waiting
      future is on record. */
  predicate Wakes(was: Slot, now: Slot) {
    && now.waker == was.waker && (was.work.wake ==> now.work.wake) && (was.protocol.Some? ==> now.protocol.Some?)
    && (was.waker && Newly(was, now) ==> now.work.wake)
  }

  /** Nor is a note for the authority lost. */
  predicate LosesNothing(was: Slot, now: Slot) { Wakes(was, now) && (was.work.notify ==> now.work.notify) }

  // --- Calls ---

  function FreshSlot(index: nat): Slot
    requires 3 * index + 2 <= U32_MAX
  {
    Slot(0, None, false,
         PerLane(Unused(OpSlot(index, Data)), Unused(OpSlot(index, CreditSend)), Unused(OpSlot(index, CreditReceive))),
         PerLane(false, false, false), false, false, NO_WORK, Data, false)
  }

  function Swept(op: Op): Op { ReclaimOp(CancelOp(op)).0 }

  /** Cancels and reclaims on a closed link, and flags what it no longer needs. */
  function Refresh(slot: Slot): Slot {
    if !IsClosed(slot) then slot
    else
      var ops := slot.operations;
      var swept := slot.(operations := PerLane(Swept(ops.data), Swept(ops.creditSend), Swept(ops.creditReceive)));
      swept.(work := swept.work.(reclaim := swept.work.reclaim
                                            || (AllAvailable(swept) && (swept.resources || !swept.alive))))
  }

  function WithInput(slot: Slot, input: Input): Slot
    requires slot.protocol.Some? && Inv(slot.protocol.value)
  {
    slot.(protocol := Some(Apply(slot.protocol.value, input).next))
  }

  function SetWake(slot: Slot, wake: bool): Slot {
    slot.(work := slot.work.(wake := slot.work.wake || wake))
  }

  /** The owner or the authority closes the link. */
  function Shut(slot: Slot, input: Input): Slot
    requires slot.protocol.Some? && Inv(slot.protocol.value)
  {
    SetWake(WithInput(slot, input), slot.protocol.value.closed.None?)
  }

  /** The negative codes the driver retries: a rejected receive hint, EINTR and EAGAIN. */
  function ResultOf(result: int, hint: bool): IoResult {
    if result == -22 && hint then Retry
    else if result == -4 || result == -11 then Retry
    else if result < 0 then Failed(-result)
    else Bytes(result)
  }

  /** The future must look again: the link closed, or its data lane wants the owner. */
  predicate WantsOwner(before: State, after: State)
    requires Inv(before) && Inv(after)
  {
    || after.closed != before.closed
    || (var effect := EffectOf(after, Data);
        effect.Some? && (effect.value.Provide? || effect.value.Admit?) && effect != EffectOf(before, Data))
  }

  /** A terminal completion of the original operation. */
  function OpCompleted(slot: Slot, lane: Lane, id: OpId, result: int, buffer: seq<Byte>): Slot
    requires slot.protocol.Some? ==> Inv(slot.protocol.value)
  {
    var (op, taken) := Finish(slot.operations.Get(lane), id);
    var done := slot.(operations := slot.operations.Set(lane, ReclaimOp(op).0));
    if !taken || slot.protocol.None? then done
    else
      var m := slot.protocol.value;
      var hint := slot.hints.Get(lane);
      var input := Input.Completed(id, ResultOf(result, hint), buffer);
      ApplyKeepsInv(m, input);
      var next := Apply(m, input).next;
      var unhinted := if result == -22 then done.(hints := done.hints.Set(lane, false)) else done;
      SetWake(unhinted.(protocol := Some(next)), WantsOwner(m, next))
  }

  /** A terminal completion of its cancellation. */
  function CancelCompleted(slot: Slot, lane: Lane, id: OpId): Slot {
    slot.(operations := slot.operations.Set(lane, ReclaimOp(CancelFinish(slot.operations.Get(lane), id).0).0))
  }

  function CancelSent(slot: Slot, lane: Lane): Slot {
    slot.(operations := slot.operations.Set(lane,
                                            CancelAccept(slot.operations.Get(lane), slot.operations.Get(lane).id).0))
  }

  /** A fresh id unless an earlier preparation is still waiting for queue space. */
  function PreparedOp(op: Op): Op {
    if op.phase.Available? then PrepareOp(op).0 else op
  }

  /** The submission queue took the transfer. */
  function Sent(slot: Slot, lane: Lane, hint: bool): Slot
    requires slot.protocol.Some? && Inv(slot.protocol.value)
  {
    var op := PreparedOp(slot.operations.Get(lane));
    WithInput(slot.(operations := slot.operations.Set(lane, Accept(op, op.id).0), hints := slot.hints.Set(lane, hint)),
              Accepted(lane, op.id))
  }

  /** One dispatch of the recorded work: wake, release, retire. */
  function Dispatched(slot: Slot, work: Work): Slot {
    var cleared := slot.(work := Work(slot.work.wake && !work.wake, slot.work.reclaim && !work.reclaim,
                                      slot.work.notify && !work.notify),
                         waker := slot.waker && !work.wake);
    if work.reclaim && AllAvailable(slot) && IsClosed(slot) then
      cleared.(resources := false, protocol := if slot.alive then slot.protocol else None)
    else cleared
  }

  function Attached(slot: Slot, contract: Contract, direction: Direction, capacity: nat): Slot
    requires ValidCapacity(capacity) && slot.generation < U64_MAX
  {
    slot.(generation := slot.generation + 1, protocol := Some(Fresh(contract, direction, capacity)),
          resources := true, alive := true, nextLane := Data, contended := false)
  }

  function Dropped(slot: Slot): Slot
    requires slot.protocol.Some? && Inv(slot.protocol.value)
  {
    Shut(slot, Close(Error.Closed)).(alive := false, waker := false, contended := false)
  }

  // --- Every call keeps the invariant ---

  lemma FreshHolds(index: nat)
    requires 3 * index + 2 <= U32_MAX
    ensures SlotInv(FreshSlot(index), index) && !NeedsPass(FreshSlot(index))
  {
  }

  /** After a refresh only a pending lane can need the next pass. */
  lemma RefreshHolds(slot: Slot, index: nat)
    requires SlotInv(slot, index)
    ensures SlotInv(Refresh(slot), index)
    ensures NeedsPass(Refresh(slot)) ==> PendingLane(Refresh(slot)).Some?
  {
    hide Inv, PendingLane;
  }

  lemma InputKeepsLanes(m: State, input: Input)
    requires Inv(m) && !input.Accepted? && !input.Completed?
    ensures Inv(Apply(m, input).next) && Apply(m, input).next.active == m.active
    ensures m.closed.Some? || input.Revoke? || input.Close? ==> Apply(m, input).next.closed.Some?
  {
    hide Demand, Bounds, DistinctOps;
    ApplyKeepsInv(m, input);
  }

  lemma ShutHolds(slot: Slot, index: nat, input: Input)
    requires SlotInv(slot, index) && slot.protocol.Some? && (input.Revoke? || input.Close?)
    ensures SlotInv(Shut(slot, input), index) && IsClosed(Shut(slot, input))
  {
    hide Inv, Apply;
    InputKeepsLanes(slot.protocol.value, input);
  }

  lemma LaneUntouched(slot: Slot, next: Slot, index: nat, lane: Lane)
    requires LaneShape(slot, index, lane) && slot.protocol.Some? && next.protocol.Some?
    requires next.operations.Get(lane) == slot.operations.Get(lane) && next.resources == slot.resources
    requires next.protocol.value.active.Get(lane) == slot.protocol.value.active.Get(lane)
    requires IsClosed(slot) ==> IsClosed(next)
    ensures LaneShape(next, index, lane)
  {
  }

  lemma LaneFreed(slot: Slot, next: Slot, index: nat, lane: Lane)
    requires LaneShape(slot, index, lane) && slot.operations.Get(lane).phase.Submitted? && next.protocol.Some?
    requires next.operations.Get(lane) == ReclaimOp(Finish(slot.operations.Get(lane), slot.operations.Get(lane).id).0).0
    requires next.protocol.value.active.Get(lane).None? && next.resources == slot.resources
    requires IsClosed(slot) ==> IsClosed(next)
    ensures LaneShape(next, index, lane)
  {
  }

  lemma CompletedHolds(slot: Slot, index: nat, lane: Lane, result: int, buffer: seq<Byte>)
    requires SlotInv(slot, index) && slot.operations.Get(lane).phase.Submitted?
    ensures SlotInv(OpCompleted(slot, lane, slot.operations.Get(lane).id, result, buffer), index)
  {
    hide Inv, Apply, Complete, WantsOwner, EffectOf, LaneShape, Finish, ReclaimOp, ResultOf;
    SubmittedHasProtocol(slot, index, lane);
    var (m, id) := (slot.protocol.value, slot.operations.Get(lane).id);
    var io := ResultOf(result, slot.hints.Get(lane));
    ApplyKeepsInv(m, Input.Completed(id, io, buffer));
    CompletedMachine(m, lane, id, io, buffer);
    CompleteClearsLane(m, lane, io, buffer);
    CompleteKeepsClosed(m, lane, io, buffer);
    var next := OpCompleted(slot, lane, id, result, buffer);
    LaneFreed(slot, next, index, lane);
    match lane {
      case Data => LaneUntouched(slot, next, index, CreditSend); LaneUntouched(slot, next, index, CreditReceive);
      case CreditSend => LaneUntouched(slot, next, index, Data); LaneUntouched(slot, next, index, CreditReceive);
      case CreditReceive => LaneUntouched(slot, next, index, Data); LaneUntouched(slot, next, index, CreditSend);
    }
  }

  lemma SubmittedHasProtocol(slot: Slot, index: nat, lane: Lane)
    requires SlotInv(slot, index) && slot.operations.Get(lane).phase.Submitted?
    ensures slot.protocol.Some? && slot.protocol.value.active.Get(lane).Some? && Inv(slot.protocol.value)
    ensures slot.protocol.value.active.Get(lane).value.op == slot.operations.Get(lane).id
    ensures !AllAvailable(slot) && !slot.work.reclaim && LaneShape(slot, index, lane)
    ensures Finish(slot.operations.Get(lane), slot.operations.Get(lane).id).1
  {
    hide Inv;
    match lane
    case Data =>
    case CreditSend =>
    case CreditReceive =>
  }

  lemma CompleteKeepsClosed(m: State, lane: Lane, result: IoResult, buffer: seq<Byte>)
    requires Inv(m) && m.active.Get(lane).Some?
    ensures m.closed.Some? ==> Settled(Complete(m, lane, result, buffer)).closed == m.closed
  {
    hide Progress;
  }

  lemma CancelCompletedHolds(slot: Slot, index: nat, lane: Lane)
    requires SlotInv(slot, index) && slot.operations.Get(lane).cancellation.CancelSubmitted?
    ensures SlotInv(CancelCompleted(slot, lane, slot.operations.Get(lane).id), index)
  {
    hide Inv;
    match lane
    case Data =>
    case CreditSend =>
    case CreditReceive =>
  }

  lemma CancelSentHolds(slot: Slot, index: nat, lane: Lane)
    requires SlotInv(slot, index) && slot.operations.Get(lane).cancellation.Requested?
    ensures SlotInv(CancelSent(slot, lane), index)
  {
    hide Inv;
    match lane
    case Data =>
    case CreditSend =>
    case CreditReceive =>
  }

  /** A transfer is only ever submitted for an open link that asks for it. */
  predicate Submittable(slot: Slot, lane: Lane)
    requires slot.protocol.Some? ==> Inv(slot.protocol.value)
  {
    && slot.protocol.Some?
    && (slot.operations.Get(lane).phase.Available? || slot.operations.Get(lane).phase.Prepared?)
    && EffectOf(slot.protocol.value, lane).Some?
    && EffectOf(slot.protocol.value, lane).value.Transfers()
  }

  lemma SentHolds(slot: Slot, index: nat, lane: Lane, hint: bool)
    requires SlotInv(slot, index) && Submittable(slot, lane)
    ensures SlotInv(Sent(slot, lane, hint), index) && IsOpen(slot)
  {
    hide Inv, Apply, EffectOf;
    var (m, op) := (slot.protocol.value, PreparedOp(slot.operations.Get(lane)));
    UnusedId(slot, index, lane);
    AcceptedMachine(m, lane, op.id);
    ApplyKeepsInv(m, Accepted(lane, op.id));
    match lane
    case Data =>
    case CreditSend =>
    case CreditReceive =>
  }

  /** Ids of different lanes differ in their slot word, and a free lane holds none. */
  lemma UnusedId(slot: Slot, index: nat, lane: Lane)
    requires SlotInv(slot, index) && Submittable(slot, lane)
    ensures FirstLane(slot.protocol.value.active, PreparedOp(slot.operations.Get(lane)).id).None?
  {
    hide Inv, EffectOf;
    match lane
    case Data =>
    case CreditSend =>
    case CreditReceive =>
  }

  lemma DispatchedHolds(slot: Slot, index: nat, work: Work)
    requires SlotInv(slot, index) && (work.reclaim ==> slot.work.reclaim)
    ensures SlotInv(Dispatched(slot, work), index)
    ensures NeedsPass(Dispatched(slot, work)) ==> NeedsPass(slot)
  {
    hide Inv;
  }

  lemma AttachedHolds(slot: Slot, index: nat, contract: Contract, direction: Direction, capacity: nat)
    requires SlotInv(slot, index) && slot.protocol.None? && slot.generation < U64_MAX && ValidCapacity(capacity)
    ensures SlotInv(Attached(slot, contract, direction, capacity), index)
    ensures AllAvailable(slot) && !slot.resources
  {
  }

  lemma DroppedHolds(slot: Slot, index: nat)
    requires SlotInv(slot, index) && slot.protocol.Some?
    ensures SlotInv(Dropped(slot), index)
  {
    hide Inv, Apply;
    ShutHolds(slot, index, Close(Error.Closed));
  }

  /** The identity of the connection and the lane it asks for first are as they were. */
  predicate SameMarks(a: Slot, b: Slot) { a.generation == b.generation && a.nextLane == b.nextLane }

  predicate Steady(was: seq<Slot>, now: seq<Slot>) {
    |was| == |now| && forall x :: 0 <= x < |was| ==> SameMarks(was[x], now[x])
  }

  lemma SteadyOn(a: seq<Slot>, b: seq<Slot>, c: seq<Slot>)
    requires Steady(a, b) && Steady(b, c)
    ensures Steady(a, c)
  {
  }

  // --- What the pass order promises ---

  /** No lane waits, no request of a closed link is uncancelled, and once its record is
      dispatched a closed idle link holds nothing. */
  predicate AtRest(slot: Slot) {
    && (forall lane: Lane :: !LanePending(slot, lane) && !(IsClosed(slot) && Uncancelled(slot, lane)))
    && (IsClosed(slot) && AllAvailable(slot) && !slot.work.reclaim ==> !slot.resources && slot.alive)
  }

  lemma NothingLeft(slot: Slot)
    ensures NeedsPass(slot) <==> !AtRest(slot)
  {
    hide Inv, LanePending;
    forall lane: Lane | !NeedsPass(slot) ensures !(IsClosed(slot) && Uncancelled(slot, lane)) {
      match lane case Data => case CreditSend => case CreditReceive =>
    }
    if AtRest(slot) {
      assert !(IsClosed(slot) && Uncancelled(slot, Data)) && !(IsClosed(slot) && Uncancelled(slot, CreditSend));
      assert !(IsClosed(slot) && Uncancelled(slot, CreditReceive));
    }
  }

  /** How many lanes the turn marker passes before it reaches this one. */
  function LanesAway(slot: Slot, lane: Lane): nat { (3 + LaneNumber(lane) - LaneNumber(slot.nextLane)) % 3 }

  lemma FirstPending(slot: Slot, lane: Lane)
    requires LanePending(slot, lane)
    ensures PendingLane(slot).Some? && LanesAway(slot, PendingLane(slot).value) <= LanesAway(slot, lane)
  {
    hide LanePending;
    match lane case Data => case CreditSend => case CreditReceive =>
  }
}
