/** What a stopped driver still has to do, as a measure every remaining step lowers. */
module Shutdown {
  import opened Wire
  import opened Transport
  import opened Machine
  import opened Operations
  import opened Slots
  import opened Kernel

  /** No link is open: empty, or closed and waiting to be released. */
  predicate ShutSlot(slot: Slot) { slot.protocol.Some? ==> IsClosed(slot) }

  predicate AllShut(slots: seq<Slot>) { forall i :: 0 <= i < |slots| ==> ShutSlot(slots[i]) }

  /** Steps an operation still owes: ask for its cancellation, and each terminal end. */
  function OpDebt(op: Op): nat {
    match op.phase
    case Available => 0
    case Prepared => 1
    case Submitted =>
      (match op.cancellation
       case NoCancel => 3
       case Requested => 3
       case CancelSubmitted => 2
       case CancelDone => 1)
    case Done => if op.cancellation.CancelSubmitted? then 1 else 0
  }

  function SlotDebt(slot: Slot): nat {
    OpDebt(slot.operations.data) + OpDebt(slot.operations.creditSend) + OpDebt(slot.operations.creditReceive)
    + (if slot.resources then 2 else 0)
    + (if slot.protocol.Some? && !slot.alive then 2 else 0)
    + (if slot.work.wake then 1 else 0)
    + (if slot.work.notify then 1 else 0)
  }

  function Debt(slots: seq<Slot>): nat {
    if |slots| == 0 then 0 else SlotDebt(slots[0]) + Debt(slots[1..])
  }

  /** One slot's share of `shutdown_complete`. */
  predicate SlotDone(slot: Slot) {
    AllAvailable(slot) && !slot.resources && slot.work.IsEmpty() && ShutSlot(slot)
  }

  /** A link whose future is gone still has a protocol to retire. */
  predicate Abandoned(slot: Slot) { slot.protocol.Some? && !slot.alive }

  lemma {:induction false} DebtAt(slots: seq<Slot>, index: nat, slot: Slot)
    requires index < |slots|
    ensures Debt(slots[index := slot]) == Debt(slots) - SlotDebt(slots[index]) + SlotDebt(slot)
    ensures SlotDebt(slots[index]) <= Debt(slots)
    decreases |slots|
  {
    hide SlotDebt;
    if index == 0 {
      assert slots[index := slot][1..] == slots[1..];
    } else {
      DebtAt(slots[1..], index - 1, slot);
      assert slots[index := slot][1..] == slots[1..][index - 1 := slot];
    }
  }

  /** A slot owes nothing exactly when it is done and not abandoned. */
  lemma NoSlotDebt(slot: Slot, index: nat)
    requires SlotInv(slot, index) && ShutSlot(slot)
    ensures SlotDebt(slot) == 0 <==> SlotDone(slot) && !Abandoned(slot)
  {
    hide Inv;
  }

  /** No debt is left exactly when shutdown is complete and no link was abandoned. */
  lemma {:induction false} NoDebt(slots: seq<Slot>, first: nat)
    requires forall i :: 0 <= i < |slots| ==> SlotInv(slots[i], first + i)
    requires AllShut(slots)
    ensures Debt(slots) == 0 <==> forall i :: 0 <= i < |slots| ==> SlotDone(slots[i]) && !Abandoned(slots[i])
    decreases |slots|
  {
    hide SlotDebt, SlotDone, SlotInv, Abandoned;
    if |slots| > 0 {
      assert SlotInv(slots[0], first + 0);
      NoSlotDebt(slots[0], first);
      forall i | 0 <= i < |slots[1..]| ensures SlotInv(slots[1..][i], first + 1 + i) {
        assert SlotInv(slots[i + 1], first + (i + 1));
      }
      NoDebt(slots[1..], first + 1);
      assert slots == [slots[0]] + slots[1..];
      forall i | 0 < i < |slots| ensures slots[i] == slots[1..][i - 1] {
      }
    }
  }

  /** A step on a slot that is shut: it stays shut, owes `steps` fewer, and starts no transfer. */
  predicate Winds(was: Slot, now: Slot, steps: nat) {
    ShutSlot(was) ==>
      && ShutSlot(now) && SlotDebt(now) + steps <= SlotDebt(was)
      && (now.work.notify ==> was.work.notify)
      && forall lane: Lane :: now.operations.Get(lane).phase.Submitted? ==>
           was.operations.Get(lane).phase.Submitted? && was.operations.Get(lane).id == now.operations.Get(lane).id
  }

  lemma WindsOn(a: Slot, b: Slot, c: Slot, m: nat, n: nat)
    requires Winds(a, b, m) && Winds(b, c, n)
    ensures Winds(a, c, m + n)
  {
    hide SlotDebt, ShutSlot;
  }

  lemma SweptDebt(op: Op)
    ensures OpDebt(Swept(op)) <= OpDebt(op)
            && (Swept(op).phase.Submitted? ==> op.phase.Submitted? && Swept(op).id == op.id)
  {
  }

  lemma FinishedDebt(op: Op)
    requires op.phase.Submitted?
    ensures var done := ReclaimOp(Finish(op, op.id).0).0;
            OpDebt(done) < OpDebt(op) && !done.phase.Submitted? && Finish(op, op.id).1
  {
  }

  lemma RefreshWinds(slot: Slot)
    ensures Winds(slot, Refresh(slot), 0)
  {
    hide OpDebt, Swept;
    SweptDebt(slot.operations.data);
    SweptDebt(slot.operations.creditSend);
    SweptDebt(slot.operations.creditReceive);
  }

  lemma CancelSentWinds(slot: Slot, lane: Lane)
    requires slot.operations.Get(lane).phase.Submitted? && slot.operations.Get(lane).cancellation.Requested?
    ensures Winds(slot, CancelSent(slot, lane), 1)
  {
    match lane case Data => case CreditSend => case CreditReceive =>
  }

  lemma MarkedWinds(slot: Slot, marked: Slot)
    requires marked == slot.(contended := marked.contended, nextLane := marked.nextLane)
    ensures Winds(slot, marked, 0)
  {
  }

  /** A shut link's protocol ignores completions, so they never wake its owner again. */
  lemma OpCompletedWinds(slot: Slot, index: nat, lane: Lane, result: int, buffer: seq<Byte>)
    requires SlotInv(slot, index) && slot.operations.Get(lane).phase.Submitted?
    ensures Winds(slot, OpCompleted(slot, lane, slot.operations.Get(lane).id, result, buffer), 1)
  {
    hide SlotInv, LaneShape, Apply, OpDebt, SlotDebt, Inv, OpCompleted;
    SubmittedHasProtocol(slot, index, lane);
    FinishedDebt(slot.operations.Get(lane));
    if ShutSlot(slot) {
      ShutCompleted(slot, lane, result, buffer);
      OneLaneWinds(slot, OpCompleted(slot, lane, slot.operations.Get(lane).id, result, buffer), lane);
    }
  }

  lemma ShutCompleted(slot: Slot, lane: Lane, result: int, buffer: seq<Byte>)
    requires slot.protocol.Some? && Inv(slot.protocol.value) && ShutSlot(slot)
    requires slot.operations.Get(lane).phase.Submitted?
    ensures var op := slot.operations.Get(lane);
            var next := OpCompleted(slot, lane, op.id, result, buffer);
            && next.operations == slot.operations.Set(lane, ReclaimOp(Finish(op, op.id).0).0)
            && next.operations.Get(lane) == ReclaimOp(Finish(op, op.id).0).0
            && next.resources == slot.resources && next.alive == slot.alive && next.work == slot.work
            && ShutSlot(next) && next.protocol.Some?
  {
    hide Inv, Apply, WantsOwner, ResultOf, ReclaimOp;
    var id := slot.operations.Get(lane).id;
    ClosedStaysClosed(slot.protocol.value, Input.Completed(id, ResultOf(result, slot.hints.Get(lane)), buffer));
    GetOfSet(slot.operations, lane, ReclaimOp(Finish(slot.operations.Get(lane), id).0).0);
  }

  lemma GetOfSet<T>(lanes: PerLane<T>, lane: Lane, value: T)
    ensures lanes.Set(lane, value).Get(lane) == value
  {
  }

  lemma OneLaneWinds(slot: Slot, next: Slot, lane: Lane)
    requires next.operations == slot.operations.Set(lane, next.operations.Get(lane))
    requires OpDebt(next.operations.Get(lane)) < OpDebt(slot.operations.Get(lane))
    requires !next.operations.Get(lane).phase.Submitted? || next.operations.Get(lane).id == slot.operations.Get(lane).id
    requires next.operations.Get(lane).phase.Submitted? ==> slot.operations.Get(lane).phase.Submitted?
    requires next.resources == slot.resources && next.alive == slot.alive && next.work == slot.work
    requires ShutSlot(slot) && ShutSlot(next) && next.protocol.Some? == slot.protocol.Some?
    ensures Winds(slot, next, 1)
  {
    hide OpDebt, ShutSlot;
    match lane case Data => case CreditSend => case CreditReceive =>
  }

  lemma ClosedStaysClosed(m: State, input: Input)
    requires Inv(m) && m.closed.Some?
    ensures Inv(Apply(m, input).next) && Apply(m, input).next.closed == m.closed
    ensures !WantsOwner(m, Apply(m, input).next)
  {
    ApplyKeepsInv(m, input);
    ClosureIsFinal(m, input);
  }

  lemma CancelCompletedWinds(slot: Slot, lane: Lane)
    requires slot.operations.Get(lane).cancellation.CancelSubmitted? && OpShape(slot.operations.Get(lane))
    ensures Winds(slot, CancelCompleted(slot, lane, slot.operations.Get(lane).id), 1)
  {
    match lane case Data => case CreditSend => case CreditReceive =>
  }

  /** Dispatching any record recorded on the slot lowers what it owes. */
  lemma DispatchedWinds(slot: Slot, index: nat, work: Work)
    requires SlotInv(slot, index) && !work.IsEmpty()
    requires (work.wake ==> slot.work.wake) && (work.reclaim ==> slot.work.reclaim)
             && (work.notify ==> slot.work.notify)
    ensures Winds(slot, Dispatched(slot, work), 1)
  {
    hide Inv;
  }

  /** Completing shutdown is undone by a later pass exactly for abandoned links:
      the pass records a reclamation that has not been dispatched. */
  lemma RefreshKeepsDone(slot: Slot, index: nat)
    requires SlotInv(slot, index) && SlotDone(slot)
    ensures SlotDone(Refresh(slot)) <==> !Abandoned(slot)
  {
    hide Inv;
  }

  // --- The whole slot table ---

  predicate WindsAll(was: seq<Slot>, now: seq<Slot>, steps: nat) {
    && |was| == |now|
    && (AllShut(was) ==>
          && AllShut(now) && Debt(now) + steps <= Debt(was)
          && forall i :: 0 <= i < |was| ==> Winds(was[i], now[i], 0))
  }

  lemma WindsStill(slots: seq<Slot>)
    ensures WindsAll(slots, slots, 0)
  {
    hide ShutSlot, SlotDebt;
  }

  lemma WindsAt(slots: seq<Slot>, index: nat, slot: Slot, steps: nat)
    requires index < |slots| && Winds(slots[index], slot, steps)
    ensures WindsAll(slots, slots[index := slot], steps)
  {
    hide SlotDebt;
    DebtAt(slots, index, slot);
  }

  lemma WindsAllOn(a: seq<Slot>, b: seq<Slot>, c: seq<Slot>, m: nat, n: nat)
    requires WindsAll(a, b, m) && WindsAll(b, c, n)
    ensures WindsAll(a, c, m + n)
  {
    hide Winds, Debt, AllShut;
    if AllShut(a) {
      forall i | 0 <= i < |a| ensures Winds(a[i], c[i], 0) {
        WindsOn(a[i], b[i], c[i], 0, 0);
      }
    }
  }

  /** A shut driver puts no new transfer in flight: the kernel only ever finishes them. */
  lemma NoNewTransfer(was: seq<Slot>, now: seq<Slot>, before: set<U64>, after: set<U64>, steps: nat)
    requires WindsAll(was, now, steps) && AllShut(was)
    requires KernelInv(was, before) && KernelInv(now, after)
    ensures forall token: U64 :: token in after && !TokenCancels(token) ==> token in before
  {
    hide Debt, SlotDebt;
    forall token: U64 | token in after && !TokenCancels(token) ensures token in before {
      assert Expected(now, token);
      var word := TokenSlot(token);
      assert Winds(was[word / 3], now[word / 3], 0);
      assert Expected(was, token);
    }
  }

  /** Without debt the kernel owes nothing and every slot is done. */
  lemma DebtlessIsComplete(slots: seq<Slot>, kernel: set<U64>)
    requires AllSlots(slots) && KernelInv(slots, kernel) && AllShut(slots) && Debt(slots) == 0
    ensures kernel == {} && forall i :: 0 <= i < |slots| ==> SlotDone(slots[i]) && !Abandoned(slots[i])
  {
    hide Inv, SlotInv, Debt;
    NoDebt(slots, 0);
    if token :| token in kernel {
      assert Expected(slots, token);
      var word := TokenSlot(token);
      assert SlotInv(slots[word / 3], word / 3) && SlotDone(slots[word / 3]);
      IdleOwesNothing(slots[word / 3], word / 3, LaneAt(word % 3));
    }
  }

  lemma IdleOwesNothing(slot: Slot, index: nat, lane: Lane)
    requires SlotInv(slot, index) && AllAvailable(slot)
    ensures forall generation: U32, cancel: bool :: !OwesLane(slot, lane, generation, cancel)
  {
    hide Inv;
    match lane case Data => case CreditSend => case CreditReceive =>
  }

  /** While a stopped driver owes anything there is a completion to await, a record to
      dispatch or a link in the ready ring. */
  lemma DebtIsVisible(slots: seq<Slot>, kernel: set<U64>, queue: seq<nat>)
    requires AllSlots(slots) && KernelInv(slots, kernel) && AllShut(slots) && Attended(slots, queue) && Debt(slots) > 0
    ensures kernel != {} || queue != [] || exists i :: 0 <= i < |slots| && !slots[i].work.IsEmpty()
  {
    hide Inv, SlotInv, Debt, SlotDone, NeedsPass, OwesLane;
    if kernel == {} && forall i :: 0 <= i < |slots| ==> slots[i].work.IsEmpty() {
      NoDebt(slots, 0);
      var i :| 0 <= i < |slots| && !(SlotDone(slots[i]) && !Abandoned(slots[i]));
      assert SlotInv(slots[i], i);
      if !NeedsPass(slots[i]) {
        var lane := OwingLane(slots[i], i);
        var token := LaneToken(slots, i, lane);
        assert Expected(slots, token);
      }
    }
  }

  /** A shut slot with nothing to pass or dispatch that is not done awaits the kernel. */
  lemma OwingLane(slot: Slot, index: nat) returns (lane: Lane)
    requires SlotInv(slot, index) && ShutSlot(slot) && !NeedsPass(slot) && slot.work.IsEmpty()
    requires !(SlotDone(slot) && !Abandoned(slot))
    ensures slot.operations.Get(lane).phase.Submitted? || slot.operations.Get(lane).cancellation.CancelSubmitted?
  {
    hide Inv;
    lane := if !slot.operations.data.phase.Available? then Data
            else if !slot.operations.creditSend.phase.Available? then CreditSend else CreditReceive;
  }

  lemma LaneToken(slots: seq<Slot>, index: nat, lane: Lane) returns (token: U64)
    requires AllSlots(slots) && index < |slots|
    requires slots[index].operations.Get(lane).phase.Submitted?
             || slots[index].operations.Get(lane).cancellation.CancelSubmitted?
    ensures Expected(slots, token)
  {
    hide Inv;
    var op := slots[index].operations.Get(lane);
    assert SlotInv(slots[index], index) && LaneShape(slots[index], index, lane);
    TokenWord(index, lane);
    token := Token(op.id, !op.phase.Submitted?);
    TokenRoundTrip(op.id, !op.phase.Submitted?);
  }

  /** Shutdown once complete is undone whenever the owner then drops a link's future:
      the slot is done and abandoned, and a pass records its retirement. */
  lemma DropUndoesDone(slot: Slot, index: nat)
    requires SlotInv(slot, index) && SlotDone(slot) && slot.alive && slot.protocol.Some?
    ensures Inv(slot.protocol.value)
    ensures SlotDone(Dropped(slot)) && Abandoned(Dropped(slot)) && !SlotDone(Refresh(Dropped(slot)))
  {
    hide Inv, Apply;
    ClosedStaysClosed(slot.protocol.value, Close(Error.Closed));
  }

  /** Closing an open idle link, passing over it and dispatching its record. */
  function ClosedOut(slot: Slot): Slot
    requires slot.protocol.Some? && Inv(slot.protocol.value)
  {
    var passed := Refresh(Shut(slot, Close(Error.Closed)));
    Dispatched(passed, passed.work)
  }

  lemma ClosedOutIsDone(slot: Slot, index: nat)
    requires SlotInv(slot, index) && IsOpen(slot) && AllAvailable(slot)
    ensures Inv(slot.protocol.value)
    ensures var out := ClosedOut(slot);
            SlotInv(out, index) && SlotDone(out) && out.alive && out.protocol.Some? && out.generation == slot.generation
  {
    var shut := Shut(slot, Close(Error.Closed));
    ShutHolds(slot, index, Close(Error.Closed));
    RefreshHolds(shut, index);
    DispatchedHolds(Refresh(shut), index, Refresh(shut).work);
    hide Inv, Apply, SlotInv;
    assert AllAvailable(shut) && shut.resources && shut.alive && IsClosed(shut);
  }

  /** The first connection of any slot, closed while its future watches: shutdown is
      complete, and is undone by a pass once the future is dropped. */
  lemma CompleteIsNotFinal(index: nat, contract: Contract, direction: Direction, capacity: nat) returns (slot: Slot)
    requires index < MAX_LINKS && ValidCapacity(capacity)
    ensures var first := Attached(FreshSlot(index), contract, direction, capacity);
            HasMachine(first) && slot == ClosedOut(first) && slot.generation == 1
    ensures SlotInv(slot, index) && SlotDone(slot) && HasMachine(slot)
    ensures SlotDone(Dropped(slot)) && Abandoned(Dropped(slot)) && !SlotDone(Refresh(Dropped(slot)))
  {
    var first := Attached(FreshSlot(index), contract, direction, capacity);
    FreshHolds(index);
    AttachedHolds(FreshSlot(index), index, contract, direction, capacity);
    assert IsOpen(first) && AllAvailable(first);
    hide Inv, Dropped, Refresh, SlotInv, SlotDone, ClosedOut, Attached;
    ClosedOutIsDone(first, index);
    slot := ClosedOut(first);
    DropUndoesDone(slot, index);
  }

  /** A live machine in the slot. */
  predicate HasMachine(slot: Slot) { slot.protocol.Some? && Inv(slot.protocol.value) }
}
