/** Two drivers at the two ends of a link: what their calls do to the two slots are steps of the
    link, so what every run of the link keeps holds of the drivers. */
module Wired {
  import opened Wire
  import opened Transport
  import opened Machine
  import opened Operations
  import opened Slots
  import opened Kernel
  import opened Shutdown
  import opened Completions
  import opened Passes
  import opened Calls
  import L = Link
  import S = LinkSafety

  // --- Runs of link steps by one end ---

  function Other(side: L.Side): L.Side { if side.Exporter? then L.Importer else L.Exporter }

  /** The slot's machine is this end of the link. */
  predicate Carries(l: L.Link, side: L.Side, slot: Slot) {
    HasMachine(slot) && L.End(l, side).machine == slot.protocol.value
  }

  /** Steps of one end lead from one sound link to another and leave the other end alone. */
  predicate Drives(l: L.Link, side: L.Side, steps: seq<L.LinkStep>, now: L.Link) {
    && L.LinkInv(l) && S.Run(l, steps) && S.Reached(l, steps) == now && L.LinkInv(now)
    && L.End(now, Other(side)) == L.End(l, Other(side))
  }

  /** Nothing was provided, delivered or admitted. */
  predicate Silent(l: L.Link, now: L.Link) { now.log == l.log.(credits := now.log.credits) }

  lemma Still(l: L.Link, side: L.Side)
    requires L.LinkInv(l)
    ensures Drives(l, side, [], l)
  {
  }

  lemma {:induction false} RunJoins(l: L.Link, first: seq<L.LinkStep>, later: seq<L.LinkStep>)
    requires S.Run(l, first) && S.Run(S.Reached(l, first), later)
    ensures S.Run(l, first + later) && S.Reached(l, first + later) == S.Reached(S.Reached(l, first), later)
    decreases |first|
  {
    hide L.Next, L.Enabled;
    if first == [] {
      assert first + later == later;
    } else {
      assert (first + later)[1..] == first[1..] + later;
      RunJoins(L.Next(l, first[0]), first[1..], later);
    }
  }

  lemma DrivesOn(l: L.Link, side: L.Side, first: seq<L.LinkStep>, mid: L.Link, later: seq<L.LinkStep>, now: L.Link)
    requires Drives(l, side, first, mid) && Drives(mid, side, later, now)
    ensures Drives(l, side, first + later, now)
  {
    hide L.LinkInv;
    RunJoins(l, first, later);
  }

  /** The end a step belongs to. */
  predicate Of(step: L.LinkStep, side: L.Side) {
    match step
    case Provide(_) => side.Exporter?
    case Deliver => side.Importer?
    case Admit => side.Importer?
    case Accept(s, _, _, _) => s == side
    case Move(s, _, _) => s == side
    case Finish(s, _, _) => s == side
    case Interrupt(s, _) => s == side
  }

  lemma OneStep(l: L.Link, side: L.Side, step: L.LinkStep)
    requires L.LinkInv(l) && L.Enabled(l, step) && Of(step, side)
    ensures Drives(l, side, [step], L.Next(l, step))
  {
    S.StepHolds(l, step);
    StepLeavesOther(l, side, step);
    hide L.LinkInv, L.Next, L.Enabled;
    assert [step][1..] == [] && S.Run(L.Next(l, step), []) && S.Reached(L.Next(l, step), []) == L.Next(l, step);
  }

  lemma StepLeavesOther(l: L.Link, side: L.Side, step: L.LinkStep)
    requires L.Enabled(l, step) && Of(step, side)
    ensures L.End(L.Next(l, step), Other(side)) == L.End(l, Other(side))
  {
    hide Apply, L.EndpointInv;
  }

  function WithMachine(l: L.Link, side: L.Side, m: State): L.Link {
    match side
    case Exporter => l.(exporter := l.exporter.(machine := m))
    case Importer => l.(importer := l.importer.(machine := m))
  }

  /** The host closes the end, or nothing happens to its machine. */
  lemma Interrupted(l: L.Link, side: L.Side, slot: Slot, input: Input, now: State) returns (steps: seq<L.LinkStep>)
    requires L.LinkInv(l) && Carries(l, side, slot) && (input.Revoke? || input.Close?)
    requires now == slot.protocol.value || now == Apply(slot.protocol.value, input).next
    ensures Drives(l, side, steps, WithMachine(l, side, now)) && Silent(l, WithMachine(l, side, now))
  {
    hide L.LinkInv, Apply, Inv;
    if now == slot.protocol.value {
      steps := [];
      assert WithMachine(l, side, now) == l;
      Still(l, side);
    } else {
      var step := L.Interrupt(side, input);
      SoundEnds(l);
      steps := [step];
      OneStep(l, side, step);
      assert L.Next(l, step) == WithMachine(l, side, now);
    }
  }

  lemma SoundEnds(l: L.Link)
    requires L.LinkInv(l)
    ensures L.EndpointInv(l.exporter) && L.EndpointInv(l.importer)
    ensures |l.wires.outbox| == l.exporter.machine.capacity && |l.wires.inbox| == l.importer.machine.capacity
  {
  }

  // --- Completions ---

  /** What the kernel may report for the lane: what it moved, or why a waiting request ended. */
  predicate HonestOne(l: L.Link, side: L.Side, x: nat, slots: seq<Slot>, cqe: Cqe) {
    x < |slots| && TokenSlot(cqe.token) / 3 == x && !TokenCancels(cqe.token) ==>
      var lane := LaneAt(TokenSlot(cqe.token) % 3);
      && L.CanFinish(L.End(l, side).flights.Get(lane), ResultOf(cqe.result, slots[x].hints.Get(lane)))
      && cqe.buffer == L.BufferOf(l.wires, side, lane)
  }

  function LinkEndOne(l: L.Link, side: L.Side, x: nat, slots: seq<Slot>, cqe: Cqe): L.Link {
    if x < |slots| && TokenSlot(cqe.token) / 3 == x && !TokenCancels(cqe.token) then
      var lane := LaneAt(TokenSlot(cqe.token) % 3);
      var step := L.Finish(side, lane, ResultOf(cqe.result, slots[x].hints.Get(lane)));
      if L.Enabled(l, step) then L.Next(l, step) else l
    else l
  }

  function LinkEnds(l: L.Link, side: L.Side, x: nat, slots: seq<Slot>, cqes: seq<Cqe>): L.Link {
    if cqes == [] then l
    else
      var rest := cqes[..|cqes| - 1];
      LinkEndOne(LinkEnds(l, side, x, slots, rest), side, x, Ends(slots, rest), cqes[|cqes| - 1])
  }

  predicate Honest(l: L.Link, side: L.Side, x: nat, slots: seq<Slot>, cqes: seq<Cqe>) {
    cqes != [] ==>
      var rest := cqes[..|cqes| - 1];
      && Honest(l, side, x, slots, rest)
      && HonestOne(LinkEnds(l, side, x, slots, rest), side, x, Ends(slots, rest), cqes[|cqes| - 1])
  }

  /** A terminal completion of a transfer finishes the link's flight with it. */
  lemma FinishDrives(l: L.Link, side: L.Side, slot: Slot, index: nat, lane: Lane, result: int, buffer: seq<Byte>)
    requires L.LinkInv(l) && Carries(l, side, slot) && SlotInv(slot, index)
             && slot.operations.Get(lane).phase.Submitted?
    requires L.CanFinish(L.End(l, side).flights.Get(lane), ResultOf(result, slot.hints.Get(lane)))
    requires buffer == L.BufferOf(l.wires, side, lane)
    ensures var step := L.Finish(side, lane, ResultOf(result, slot.hints.Get(lane)));
            && L.Enabled(l, step) && Drives(l, side, [step], L.Next(l, step)) && Silent(l, L.Next(l, step))
            && Carries(L.Next(l, step), side, OpCompleted(slot, lane, slot.operations.Get(lane).id, result, buffer))
  {
    SoundEnds(l);
    SubmittedHasProtocol(slot, index, lane);
    FlightNamed(l, side, lane);
    CompletedHolds(slot, index, lane, result, buffer);
    CompletedProtocol(slot, lane, result, buffer);
    var step := L.Finish(side, lane, ResultOf(result, slot.hints.Get(lane)));
    FinishNext(l, side, lane, step.result);
    hide L.LinkInv, L.EndpointInv, Apply, Inv, SlotInv, LaneShape, OpCompleted, ResultOf, Finish, L.Next, L.Enabled;
    hide L.CanFinish;
    hide Drives, Silent, L.BufferOf;
    OneStep(l, side, step);
    SlotMachineOf(OpCompleted(slot, lane, slot.operations.Get(lane).id, result, buffer), index);
  }

  lemma CompletedProtocol(slot: Slot, lane: Lane, result: int, buffer: seq<Byte>)
    requires HasMachine(slot) && slot.operations.Get(lane).phase.Submitted?
    ensures var id := slot.operations.Get(lane).id;
            OpCompleted(slot, lane, id, result, buffer).protocol
            == Some(Apply(slot.protocol.value,
                          Input.Completed(id, ResultOf(result, slot.hints.Get(lane)), buffer)).next)
  {
    hide Apply, Inv, WantsOwner, ResultOf, ReclaimOp;
  }

  lemma FinishNext(l: L.Link, side: L.Side, lane: Lane, result: IoResult)
    requires L.EndpointInv(l.exporter) && L.EndpointInv(l.importer)
    requires L.CanFinish(L.End(l, side).flights.Get(lane), result)
    ensures var step := L.Finish(side, lane, result);
            && L.Enabled(l, step) && Silent(l, L.Next(l, step)) && !L.End(l, side).flights.Get(lane).Idle?
            && Inv(L.End(l, side).machine)
            && L.End(L.Next(l, step), side).machine
               == Apply(L.End(l, side).machine,
                        Input.Completed(L.End(l, side).flights.Get(lane).op, result,
                                        L.BufferOf(l.wires, side, lane))).next
  {
    hide Apply, Inv;
  }

  lemma FlightNamed(l: L.Link, side: L.Side, lane: Lane)
    requires L.EndpointInv(L.End(l, side)) && !L.End(l, side).flights.Get(lane).Idle?
    ensures L.End(l, side).machine.active.Get(lane).Some?
    ensures L.End(l, side).machine.active.Get(lane).value.op == L.End(l, side).flights.Get(lane).op
  {
    match lane case Data => case CreditSend => case CreditReceive =>
  }

  lemma SlotMachineOf(slot: Slot, index: nat)
    requires SlotInv(slot, index)
    ensures SlotMachineInv(slot)
  {
  }

  lemma CompletionDrives(l: L.Link, side: L.Side, x: nat, slots: seq<Slot>, kernel: set<U64>, cqe: Cqe)
    returns (steps: seq<L.LinkStep>)
    requires AllSlots(slots) && KernelInv(slots, kernel) && cqe.token in kernel && x < |slots|
    requires L.LinkInv(l) && Carries(l, side, slots[x]) && HonestOne(l, side, x, slots, cqe)
    ensures var now := LinkEndOne(l, side, x, slots, cqe);
            Drives(l, side, steps, now) && Silent(l, now) && Carries(now, side, EndOne(slots, cqe)[x])
  {
    var (index, lane) := (TokenSlot(cqe.token) / 3, LaneAt(TokenSlot(cqe.token) % 3));
    KernelMember(slots, kernel, cqe.token);
    OwedIsCurrent(slots, cqe.token);
    assert SlotInv(slots[x], x);
    hide L.LinkInv, L.Next, L.Enabled, L.CanFinish, KernelInv, SlotInv, OpCompleted, Inv, Drives, Silent, L.End;
    SilentStill(l);
    steps := [];
    Still(l, side);
    if index == x && !TokenCancels(cqe.token) {
      FinishDrives(l, side, slots[x], x, lane, cqe.result, cqe.buffer);
      steps := [L.Finish(side, lane, ResultOf(cqe.result, slots[x].hints.Get(lane)))];
    }
  }

  lemma EndOneHolds(slots: seq<Slot>, kernel: set<U64>, cqe: Cqe)
    requires AllSlots(slots) && KernelInv(slots, kernel) && cqe.token in kernel
    ensures AllSlots(EndOne(slots, cqe)) && KernelInv(EndOne(slots, cqe), kernel - {cqe.token})
  {
    hide KernelInv, SlotInv, Ended;
    EndedHolds(slots, kernel, cqe.token, cqe.result, cqe.buffer);
  }

  /** What the kernel reports of the link's transfers finishes them, one by one. */
  lemma {:induction false} CompletionsDrive(l: L.Link, side: L.Side, x: nat, slots: seq<Slot>, kernel: set<U64>,
                                            cqes: seq<Cqe>)
    returns (steps: seq<L.LinkStep>)
    requires AllSlots(slots) && KernelInv(slots, kernel) && Delivered(kernel, cqes) && x < |slots|
    requires L.LinkInv(l) && Carries(l, side, slots[x]) && Honest(l, side, x, slots, cqes)
    ensures var (now, ended) := (LinkEnds(l, side, x, slots, cqes), Ends(slots, cqes));
            && Drives(l, side, steps, now) && Silent(l, now) && Carries(now, side, ended[x])
            && AllSlots(ended) && KernelInv(ended, Unreaped(kernel, cqes, |cqes|))
    decreases |cqes|
  {
    hide L.LinkInv, KernelInv, AllSlots, EndOne, HonestOne, Carries, Silent, LinkEndOne, Drives;
    if cqes == [] {
      steps := [];
      Still(l, side);
      SilentStill(l);
      assert cqes[..0] == [] && Unreaped(kernel, cqes, 0) == kernel;
    } else {
      var (rest, last) := (cqes[..|cqes| - 1], cqes[|cqes| - 1]);
      DeliveredBefore(kernel, cqes);
      var first := CompletionsDrive(l, side, x, slots, kernel, rest);
      NextToken(kernel, cqes, |cqes| - 1);
      UnreapedBefore(kernel, cqes);
      var (mid, ended) := (LinkEnds(l, side, x, slots, rest), Ends(slots, rest));
      DrivesSound(l, side, first, mid);
      var more := CompletionDrives(mid, side, x, ended, Unreaped(kernel, rest, |rest|), last);
      EndOneHolds(ended, Unreaped(kernel, rest, |rest|), last);
      assert cqes[..|cqes|] == cqes;
      hide Unreaped, LinkEnds, Ends, Honest, Delivered;
      steps := first + more;
      var now := LinkEndOne(mid, side, x, ended, last);
      DrivesOn(l, side, first, mid, more, now);
      SilentOn(l, mid, now);
    }
  }

  lemma DeliveredBefore(kernel: set<U64>, cqes: seq<Cqe>)
    requires Delivered(kernel, cqes) && cqes != []
    ensures Delivered(kernel, cqes[..|cqes| - 1])
  {
  }

  lemma UnreapedBefore(kernel: set<U64>, cqes: seq<Cqe>)
    requires cqes != []
    ensures var rest := cqes[..|cqes| - 1];
            Unreaped(kernel, rest, |rest|) == Unreaped(kernel, cqes, |cqes| - 1)
  {
    assert cqes[..|cqes| - 1][..|cqes| - 1] == cqes[..|cqes| - 1];
  }

  lemma SilentStill(l: L.Link)
    ensures Silent(l, l)
  {
  }

  lemma SilentOn(a: L.Link, b: L.Link, c: L.Link)
    requires Silent(a, b) && Silent(b, c)
    ensures Silent(a, c)
  {
  }

  lemma DrivesSound(l: L.Link, side: L.Side, steps: seq<L.LinkStep>, now: L.Link)
    requires Drives(l, side, steps, now)
    ensures L.LinkInv(now)
  {
  }

  // --- Visits ---

  /** A visit that enters a transfer is the link's acceptance of it; any other either leaves
      the machine alone or closes it. */
  function EventLink(l: L.Link, side: L.Side, e: Event): L.Link {
    var was := Refresh(e.before);
    if Transfers(e) then
      var lane := PendingLane(was).value;
      var step := L.Accept(side, lane, PreparedOp(was.operations.Get(lane)).id, e.attempt.length);
      if L.Enabled(l, step) then L.Next(l, step) else l
    else if e.after.protocol.Some? then WithMachine(l, side, e.after.protocol.value) else l
  }

  /** The visit entered a transfer and not a cancellation. */
  predicate Transfers(e: Event) {
    var was := Refresh(e.before);
    e.attempt.Took? && PendingLane(was).Some? && !Cancelling(was, PendingLane(was).value)
  }

  function TraceLink(l: L.Link, side: L.Side, x: nat, trace: seq<Event>): L.Link {
    if trace == [] then l
    else
      var (mid, last) := (TraceLink(l, side, x, trace[..|trace| - 1]), trace[|trace| - 1]);
      if last.index == x then EventLink(mid, side, last) else mid
  }

  lemma RefreshSame(slot: Slot, index: nat)
    requires SlotInv(slot, index)
    ensures SlotInv(Refresh(slot), index) && Refresh(slot).protocol == slot.protocol
  {
    hide Inv, PendingLane;
    RefreshHolds(slot, index);
  }

  lemma TransferDrives(l: L.Link, side: L.Side, e: Event, index: nat, deferred: bool, hints: bool)
    requires L.LinkInv(l) && Carries(l, side, e.before) && SlotInv(e.before, index)
    requires Genuine(e, deferred, hints) && Transfers(e)
    ensures var was := Refresh(e.before);
            var step := L.Accept(side, PendingLane(was).value,
                                 PreparedOp(was.operations.Get(PendingLane(was).value)).id,
                                 e.attempt.length);
            && L.Enabled(l, step) && EventLink(l, side, e) == L.Next(l, step)
            && Drives(l, side, [step], L.Next(l, step))
            && Silent(l, L.Next(l, step)) && Carries(L.Next(l, step), side, e.after) && SlotInv(e.after, index)
  {
    TransferSlot(e, index, deferred, hints);
    SoundEnds(l);
    hide *;
    hide L.LinkInv, Inv, Refresh, PendingLane, PreparedOp, Apply, EffectOf, Drives, Silent, L.Next, L.Enabled;
    hide Submittable;
    var was := Refresh(e.before);
    var lane := PendingLane(was).value;
    var step := L.Accept(side, lane, PreparedOp(was.operations.Get(lane)).id, e.attempt.length);
    AcceptReady(l, side, was, lane, step.op, step.room);
    AcceptNext(l, side, lane, step.op, step.room);
    OneStep(l, side, step);
    AcceptCarries(l, side, e, step);
  }

  lemma AcceptReady(l: L.Link, side: L.Side, slot: Slot, lane: Lane, op: OpId, room: nat)
    requires HasMachine(slot) && L.End(l, side).machine == slot.protocol.value && Submittable(slot, lane)
    requires 0 < room <= EffectOf(slot.protocol.value, lane).value.length
    requires FirstLane(slot.protocol.value.active, op).None?
    ensures Inv(L.End(l, side).machine) && L.CanAccept(L.End(l, side), lane, op, room)
  {
    hide Inv, EffectOf;
  }

  lemma AcceptCarries(l: L.Link, side: L.Side, e: Event, step: L.LinkStep)
    requires step.Accept? && step.side == side && L.Enabled(l, step) && Transfers(e) && HasMachine(e.after)
    requires L.End(L.Next(l, step), side).machine == e.after.protocol.value
    requires var was := Refresh(e.before);
             var lane := PendingLane(was).value;
             step == L.Accept(side, lane, PreparedOp(was.operations.Get(lane)).id, e.attempt.length)
    ensures EventLink(l, side, e) == L.Next(l, step) && Carries(L.Next(l, step), side, e.after)
  {
    hide L.Next, L.Enabled, Refresh, PendingLane, PreparedOp, Inv;
  }

  /** The slots around a visit that enters a transfer, and the transfer. */
  lemma TransferSlot(e: Event, index: nat, deferred: bool, hints: bool)
    requires SlotInv(e.before, index) && Genuine(e, deferred, hints) && Transfers(e)
    ensures var was := Refresh(e.before);
            var lane := PendingLane(was).value;
            var op := PreparedOp(was.operations.Get(lane)).id;
            && was.protocol == e.before.protocol && HasMachine(was) && HasMachine(e.after) && SlotInv(e.after, index)
            && Submittable(was, lane) && 0 < e.attempt.length <= EffectOf(was.protocol.value, lane).value.length
            && FirstLane(was.protocol.value.active, op).None?
            && e.after.protocol.value == Apply(was.protocol.value, Accepted(lane, op)).next
  {
    RefreshSame(e.before, index);
    var was := Refresh(e.before);
    var lane := PendingLane(was).value;
    var next :| TookFirst(was, next, deferred, hints) && e.after == Refresh(next);
    SubmittedSlot(was, lane, next, index, deferred, hints);
    RefreshSame(next, index);
    UnusedId(was, index, lane);
    SlotMachineOf(e.after, index);
    hide SlotInv, Inv, Refresh, PendingLane, TookFirst, PreparedOp, Apply, EffectOf, FirstLane;
  }

  /** The slot after its transfer was entered. */
  lemma SubmittedSlot(was: Slot, lane: Lane, next: Slot, index: nat, deferred: bool, hints: bool)
    requires SlotInv(was, index) && TookFirst(was, next, deferred, hints) && PendingLane(was) == Some(lane)
    requires !Cancelling(was, lane)
    ensures SlotInv(next, index) && HasMachine(was) && Submittable(was, lane)
    ensures next.protocol == Some(Apply(was.protocol.value,
                                        Accepted(lane, PreparedOp(was.operations.Get(lane)).id)).next)
  {
    hide PendingLane, Inv, Apply, EffectOf, SlotInv, SameOwed;
    GrantedHolds(was, index, lane, deferred, hints, Entered);
    var marked := Marked(was, deferred);
    MarkedHolds(was, marked, index);
    SentHolds(marked, index, lane, Hint(marked, lane, hints));
    MarkedHolds(Sent(marked, lane, Hint(marked, lane, hints)), next, index);
  }

  lemma AcceptNext(l: L.Link, side: L.Side, lane: Lane, op: OpId, room: nat)
    requires L.EndpointInv(l.exporter) && L.EndpointInv(l.importer) && Inv(L.End(l, side).machine)
    requires L.CanAccept(L.End(l, side), lane, op, room)
    ensures var step := L.Accept(side, lane, op, room);
            && L.Enabled(l, step) && Silent(l, L.Next(l, step))
            && L.End(L.Next(l, step), side).machine == Apply(L.End(l, side).machine, Accepted(lane, op)).next
  {
    hide Apply, Inv, EffectOf;
  }

  /** A visit that enters no transfer closes the machine or leaves it alone. */
  lemma OtherVisit(e: Event, index: nat, deferred: bool, hints: bool) returns (input: Input)
    requires SlotInv(e.before, index) && HasMachine(e.before) && Genuine(e, deferred, hints) && !Transfers(e)
    ensures SlotInv(e.after, index) && HasMachine(e.after) && (input.Revoke? || input.Close?)
    ensures Closes(e.before, e.after, input)
  {
    RefreshSame(e.before, index);
    var was := Refresh(e.before);
    input := Revoke;
    match e.attempt {
      case Blocked =>
      case Took(_) =>
        var next :| TookFirst(was, next, deferred, hints) && e.after == Refresh(next);
        CancelledSlot(was, next, index, deferred, hints);
        RefreshSame(next, index);
      case Passed =>
        if !Unasked(was) {
          var access :| TurnedAway(was, access) && e.after == Refresh(Repelled(was, access, deferred, hints));
          input := RepelledSlot(was, access, index, deferred, hints);
          RefreshSame(Repelled(was, access, deferred, hints), index);
        }
    }
    hide Refresh, PendingLane, SlotInv, Inv, Apply;
  }

  /** The machine is the same or was closed by this input. */
  predicate Closes(was: Slot, now: Slot, input: Input)
    requires HasMachine(was) && HasMachine(now)
  {
    now.protocol.value == was.protocol.value || now.protocol.value == Apply(was.protocol.value, input).next
  }

  lemma CancelledSlot(was: Slot, next: Slot, index: nat, deferred: bool, hints: bool)
    requires SlotInv(was, index) && TookFirst(was, next, deferred, hints) && Cancelling(was, PendingLane(was).value)
    ensures SlotInv(next, index) && next.protocol == was.protocol
  {
    hide PendingLane, Inv, SlotInv;
    var lane := PendingLane(was).value;
    CancelSentHolds(was, index, lane);
    MarkedHolds(CancelSent(was, lane), next, index);
  }

  lemma RepelledSlot(was: Slot, access: Access, index: nat, deferred: bool, hints: bool) returns (input: Input)
    requires SlotInv(was, index) && TurnedAway(was, access)
    ensures SlotInv(Repelled(was, access, deferred, hints), index) && (input.Revoke? || input.Close?)
    ensures HasMachine(Repelled(was, access, deferred, hints))
            && Closes(was, Repelled(was, access, deferred, hints), input)
  {
    hide PendingLane, Inv, Apply, EffectOf, SlotInv, SameOwed;
    GrantedHolds(was, index, PendingLane(was).value, deferred, hints, access);
    input := if access.Refused? && access.error != Error.Revoked then Close(access.error) else Revoke;
    SlotMachineOf(Repelled(was, access, deferred, hints), index);
  }

  lemma EventDrives(l: L.Link, side: L.Side, e: Event, index: nat, deferred: bool, hints: bool)
    returns (steps: seq<L.LinkStep>)
    requires L.LinkInv(l) && Carries(l, side, e.before) && SlotInv(e.before, index) && Genuine(e, deferred, hints)
    ensures var now := EventLink(l, side, e);
            Drives(l, side, steps, now) && Silent(l, now) && Carries(now, side, e.after) && SlotInv(e.after, index)
  {
    hide L.LinkInv, L.Next, L.Enabled, SlotInv, Inv, Refresh, PendingLane, Genuine, Apply, PreparedOp, Drives, L.End;
    if Transfers(e) {
      TransferDrives(l, side, e, index, deferred, hints);
      var was := Refresh(e.before);
      steps := [L.Accept(side, PendingLane(was).value, PreparedOp(was.operations.Get(PendingLane(was).value)).id,
                         e.attempt.length)];
    } else {
      var input := OtherVisit(e, index, deferred, hints);
      steps := Interrupted(l, side, e.before, input, e.after.protocol.value);
      MachineSet(l, side, e.after.protocol.value);
    }
  }

  lemma MachineSet(l: L.Link, side: L.Side, m: State)
    ensures L.End(WithMachine(l, side, m), side).machine == m
  {
  }

  /** The visits of a pass drive the link from the link's slot before them to its slot after. */
  lemma {:induction false} TraceDrives(l: L.Link, side: L.Side, x: nat, trace: seq<Event>, from: Slot, to: Slot,
                                       deferred: bool,
                                       hints: bool) returns (steps: seq<L.LinkStep>)
    requires SlotRun(trace, x, from, to) && forall e :: e in trace ==> Genuine(e, deferred, hints)
    requires L.LinkInv(l) && Carries(l, side, from) && SlotInv(from, x)
    ensures var now := TraceLink(l, side, x, trace);
            Drives(l, side, steps, now) && Silent(l, now) && Carries(now, side, to) && SlotInv(to, x)
    decreases |trace|
  {
    hide L.LinkInv, SlotInv, Genuine, EventLink, Carries, Silent, Drives;
    if trace == [] {
      steps := [];
      Still(l, side);
      SilentStill(l);
    } else {
      var (rest, last) := (trace[..|trace| - 1], trace[|trace| - 1]);
      assert (forall e :: e in rest ==> e in trace) && last in trace;
      steps := TraceDrives(l, side, x, rest, from, if last.index == x then last.before else to, deferred, hints);
      if last.index == x {
        var mid := TraceLink(l, side, x, rest);
        DrivesSound(l, side, steps, mid);
        var more := EventDrives(mid, side, last, x, deferred, hints);
        DrivesOn(l, side, steps, mid, more, EventLink(mid, side, last));
        SilentOn(l, mid, EventLink(mid, side, last));
        steps := steps + more;
      }
    }
  }

  // --- A pass ---

  /** The link after a pass: its completions, the authority scan, its visits. */
  function PassLink(l: L.Link, side: L.Side, x: nat, t: Turnover): L.Link {
    var ended := LinkEnds(l, side, x, t.was, t.cqes);
    var scanned :=
      if x < |t.scanned| && t.scanned[x].protocol.Some? then WithMachine(ended, side, t.scanned[x].protocol.value)
      else ended;
    TraceLink(scanned, side, x, t.trace)
  }

  lemma ScanCloses(slot: Slot, index: nat, revoked: bool)
    requires SlotInv(slot, index) && HasMachine(slot)
    ensures SlotInv(Scanned(slot, revoked), index) && HasMachine(Scanned(slot, revoked))
    ensures Closes(slot, Scanned(slot, revoked), Revoke)
  {
    hide Inv, Apply, SlotInv, SameOwed;
    var free := slot.(contended := false);
    MarkedHolds(slot, free, index);
    if revoked && IsOpen(free) {
      ShutHolds(free, index, Revoke);
      SlotMachineOf(Shut(free, Revoke), index);
    }
  }

  lemma PassDrives(l: L.Link, side: L.Side, x: nat, a: View, budget: Budget, deferred: bool, cqes: seq<Cqe>,
                   t: Turnover, b: View)
    returns (steps: seq<L.LinkStep>)
    requires Sound(a) && PassOf(a, budget, deferred, Answers(a.slots, cqes), t, b)
    requires L.LinkInv(l) && x < |a.slots| && Carries(l, side, a.slots[x]) && Honest(l, side, x, t.was, t.cqes)
    ensures var now := PassLink(l, side, x, t);
            Drives(l, side, steps, now) && Silent(l, now) && x < |b.slots| && Carries(now, side, b.slots[x])
  {
    AnswersDelivered(a.slots, a.kernel, cqes);
    DeliveredSome(a.kernel, Answers(a.slots, cqes), |t.cqes|);
    TurnoverTrace(t, |a.slots|);
    hide L.LinkInv, KernelInv, Delivered, Honest, SlotInv, Carries, Silent, Drives, SlotRun, Genuine, Ends, Scanned;
    hide TurnoverInv;
    hide WindsAll, Attended, Entries, Reached, Answers, LinkEnds, TraceLink;
    var first := CompletionsDrive(l, side, x, a.slots, a.kernel, t.cqes);
    var ended := LinkEnds(l, side, x, t.was, t.cqes);
    var slot := Ends(a.slots, t.cqes)[x];
    DrivesSound(l, side, first, ended);
    CarriesMachine(ended, side, slot);
    assert SlotInv(slot, x);
    ScanCloses(slot, x, x in t.revoked);
    var scanned := t.scanned[x];
    var mid := WithMachine(ended, side, scanned.protocol.value);
    var second := Interrupted(ended, side, slot, Revoke, scanned.protocol.value);
    CarriesSet(ended, side, scanned);
    DrivesSound(ended, side, second, mid);
    var third := TraceDrives(mid, side, x, t.trace, scanned, t.now[x], t.deferred, t.hints);
    var now := TraceLink(mid, side, x, t.trace);
    DrivesOn(l, side, first, ended, second, mid);
    DrivesOn(l, side, first + second, mid, third, now);
    SilentOn(l, ended, mid);
    SilentOn(l, mid, now);
    steps := first + second + third;
  }

  lemma CarriesMachine(l: L.Link, side: L.Side, slot: Slot)
    requires Carries(l, side, slot)
    ensures HasMachine(slot)
  {
  }

  lemma CarriesSet(l: L.Link, side: L.Side, slot: Slot)
    requires HasMachine(slot)
    ensures Carries(WithMachine(l, side, slot.protocol.value), side, slot)
  {
  }

  lemma DeliveredSome(kernel: set<U64>, cqes: seq<Cqe>, n: nat)
    requires Delivered(kernel, cqes) && n <= |cqes|
    ensures Delivered(kernel, cqes[..n])
  {
  }

  lemma TurnoverTrace(t: Turnover, links: nat)
    requires TurnoverInv(t, links)
    ensures |t.was| == |t.scanned| == |t.now| == links == |Ends(t.was, t.cqes)|
    ensures forall i :: 0 <= i < links ==>
              && SlotMachineInv(Ends(t.was, t.cqes)[i])
              && t.scanned[i] == Scanned(Ends(t.was, t.cqes)[i], i in t.revoked)
              && SlotRun(t.trace, i, t.scanned[i], t.now[i])
    ensures forall e :: e in t.trace ==> Genuine(e, t.deferred, t.hints)
  {
    hide Attended, SlotRun, Genuine, Scanned, Ends;
  }
}
