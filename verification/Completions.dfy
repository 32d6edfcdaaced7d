/** What the completion queue holds, and what its entries do to the slots. */
module Completions {
  import opened Wire
  import opened Transport
  import opened Machine
  import opened Operations
  import opened Slots
  import opened Kernel
  import opened Shutdown

  /** One entry of the completion queue. */
  datatype Cqe = Cqe(token: U64, result: int, buffer: seq<Byte>)

  function Tokens(cqes: seq<Cqe>): set<U64> { set c | c in cqes :: c.token }

  /** What the kernel still owes once the first `k` answers are taken. */
  ghost function Unreaped(kernel: set<U64>, cqes: seq<Cqe>, k: nat): set<U64>
    requires k <= |cqes|
  {
    kernel - Tokens(cqes[..k])
  }

  /** The completion queue holds answers the kernel owed, each once. */
  ghost predicate Delivered(kernel: set<U64>, cqes: seq<Cqe>) {
    && (forall i :: 0 <= i < |cqes| ==> cqes[i].token in kernel)
    && (forall i, j :: 0 <= i < j < |cqes| ==> cqes[i].token != cqes[j].token)
  }

  /** The slot after the terminal completion a token names. */
  function Ended(slot: Slot, token: U64, result: int, buffer: seq<Byte>): Slot
    requires slot.protocol.Some? ==> Inv(slot.protocol.value)
  {
    var lane := LaneAt(TokenSlot(token) % 3);
    if TokenCancels(token) then CancelCompleted(slot, lane, TokenId(token))
    else OpCompleted(slot, lane, TokenId(token), result, buffer)
  }

  /** The kernel refuses the receive hint the request was submitted with. */
  predicate Refuses(slot: Slot, token: U64, result: int) {
    result == -22 && !TokenCancels(token) && slot.hints.Get(LaneAt(TokenSlot(token) % 3))
  }

  predicate RefusesAt(slots: seq<Slot>, cqe: Cqe) {
    TokenSlot(cqe.token) / 3 < |slots| && Refuses(slots[TokenSlot(cqe.token) / 3], cqe.token, cqe.result)
  }

  /** Requests are hinted no more once a completion refused the hint. */
  function HintsLeft(slots: seq<Slot>, cqes: seq<Cqe>, hints: bool): bool {
    if cqes == [] then hints
    else
      var rest := cqes[..|cqes| - 1];
      HintsLeft(slots, rest, hints) && !RefusesAt(Ends(slots, rest), cqes[|cqes| - 1])
  }

  lemma HintsNext(slots: seq<Slot>, cqes: seq<Cqe>, k: nat, hints: bool)
    requires k < |cqes|
    ensures HintsLeft(slots, cqes[..k + 1], hints)
            == (HintsLeft(slots, cqes[..k], hints) && !RefusesAt(Ends(slots, cqes[..k]), cqes[k]))
  {
    hide Ends, RefusesAt;
    assert cqes[..k + 1][..k] == cqes[..k];
  }

  /** One completion, on the slot its token names. */
  function EndOne(slots: seq<Slot>, cqe: Cqe): (now: seq<Slot>)
    ensures |now| == |slots|
  {
    var index := TokenSlot(cqe.token) / 3;
    if index < |slots| && SlotMachineInv(slots[index]) then
      slots[index := Ended(slots[index], cqe.token, cqe.result, cqe.buffer)]
    else slots
  }

  /** The table after all of them, in order. */
  function Ends(slots: seq<Slot>, cqes: seq<Cqe>): (now: seq<Slot>)
    ensures |now| == |slots|
  {
    if cqes == [] then slots else EndOne(Ends(slots, cqes[..|cqes| - 1]), cqes[|cqes| - 1])
  }

  lemma EndsNext(slots: seq<Slot>, cqes: seq<Cqe>, k: nat)
    requires k < |cqes|
    ensures Ends(slots, cqes[..k + 1]) == EndOne(Ends(slots, cqes[..k]), cqes[k])
  {
    hide EndOne;
    assert cqes[..k + 1][..k] == cqes[..k];
  }

  predicate SlotMachineInv(slot: Slot) { slot.protocol.Some? ==> Inv(slot.protocol.value) }

  lemma SlotMachines(slots: seq<Slot>)
    requires AllSlots(slots)
    ensures forall i :: 0 <= i < |slots| ==> SlotMachineInv(slots[i])
  {
    hide Inv;
    forall i | 0 <= i < |slots| ensures SlotMachineInv(slots[i]) {
      assert SlotInv(slots[i], i);
    }
  }

  lemma KernelMember(slots: seq<Slot>, kernel: set<U64>, token: U64)
    requires KernelInv(slots, kernel) && token in kernel
    ensures Expected(slots, token)
  {
  }

  /** The completions among `cqes` that the kernel can have reported: owed, each once. */
  function Answers(slots: seq<Slot>, cqes: seq<Cqe>): (answers: seq<Cqe>) {
    if cqes == [] then []
    else
      var (rest, last) := (Answers(slots, cqes[..|cqes| - 1]), cqes[|cqes| - 1]);
      if Expected(slots, last.token) && forall k :: 0 <= k < |rest| ==> rest[k].token != last.token then rest + [last]
      else rest
  }

  lemma OwedExactly(slots: seq<Slot>, kernel: set<U64>, token: U64)
    requires KernelInv(slots, kernel)
    ensures Expected(slots, token) <==> token in kernel
  {
  }

  /** What is offered is filtered to a delivery, and a delivery is not filtered. */
  lemma {:induction false} AnswersDelivered(slots: seq<Slot>, kernel: set<U64>, cqes: seq<Cqe>)
    requires KernelInv(slots, kernel)
    ensures Delivered(kernel, Answers(slots, cqes))
    ensures Delivered(kernel, cqes) ==> Answers(slots, cqes) == cqes
    decreases |cqes|
  {
    hide Expected, KernelInv;
    if cqes != [] {
      var rest := cqes[..|cqes| - 1];
      AnswersDelivered(slots, kernel, rest);
      OwedExactly(slots, kernel, cqes[|cqes| - 1].token);
      assert Delivered(kernel, cqes) ==> Delivered(kernel, rest);
    }
  }

  lemma NextToken(kernel: set<U64>, cqes: seq<Cqe>, k: nat)
    requires Delivered(kernel, cqes) && k < |cqes|
    ensures cqes[k].token in Unreaped(kernel, cqes, k)
    ensures Unreaped(kernel, cqes, k) - {cqes[k].token} == Unreaped(kernel, cqes, k + 1)
  {
    assert cqes[..k + 1] == cqes[..k] + [cqes[k]];
    assert Tokens(cqes[..k + 1]) == Tokens(cqes[..k]) + {cqes[k].token};
  }

  /** Everything in the completion queue was owed, so it never overflows. */
  lemma QueueFits(slots: seq<Slot>, kernel: set<U64>, cqes: seq<Cqe>)
    requires KernelInv(slots, kernel) && Delivered(kernel, cqes)
    ensures |cqes| <= |kernel| <= 6 * |slots|
  {
    hide KernelInv;
    KernelBound(slots, kernel);
    DeliveredCount(kernel, cqes);
  }

  lemma {:induction false} DeliveredCount(kernel: set<U64>, cqes: seq<Cqe>)
    requires Delivered(kernel, cqes)
    ensures |cqes| <= |kernel|
    decreases |cqes|
  {
    if |cqes| > 0 {
      var (rest, last) := (cqes[..|cqes| - 1], cqes[|cqes| - 1].token);
      DeliveredCount(kernel - {last}, rest);
    }
  }

  lemma EndedMarks(slot: Slot, token: U64, result: int, buffer: seq<Byte>)
    requires slot.protocol.Some? ==> Inv(slot.protocol.value)
    ensures SameMarks(slot, Ended(slot, token, result, buffer))
  {
    hide Inv, Apply, Finish, ReclaimOp, CancelFinish, WantsOwner, ResultOf;
  }

  lemma EndedWakes(slot: Slot, token: U64, result: int, buffer: seq<Byte>)
    requires SlotMachineInv(slot)
    ensures LosesNothing(slot, Ended(slot, token, result, buffer))
  {
    hide Inv, Apply, EffectOf, Finish, ReclaimOp, CancelFinish, ResultOf;
  }

  lemma GetSet<T>(lanes: PerLane<T>, lane: Lane, value: T, other: Lane)
    ensures lanes.Set(lane, value).Get(other) == if other == lane then value else lanes.Get(other)
  {
  }

  lemma CompletedOwes(slot: Slot, index: nat, lane: Lane, result: int, buffer: seq<Byte>)
    requires SlotInv(slot, index) && slot.operations.Get(lane).phase.Submitted?
    ensures var op := slot.operations.Get(lane);
            var next := OpCompleted(slot, lane, op.id, result, buffer);
            && OwedChange(slot, next, lane, op.id.generation, false)
            && OwesLane(slot, lane, op.id.generation, false) && !OwesLane(next, lane, op.id.generation, false)
  {
    hide Inv, Apply, LaneShape, WantsOwner, ResultOf;
    SubmittedHasProtocol(slot, index, lane);
    var op := slot.operations.Get(lane);
    var next := OpCompleted(slot, lane, op.id, result, buffer);
    assert next.operations == slot.operations.Set(lane, ReclaimOp(Finish(op, op.id).0).0);
    forall l: Lane, g: U32, c: bool | l != lane || g != op.id.generation || c
      ensures OwesLane(slot, l, g, c) == OwesLane(next, l, g, c)
    {
      if l != lane { GetSet(slot.operations, lane, next.operations.Get(lane), l); }
    }
  }

  lemma CancelCompletedOwes(slot: Slot, index: nat, lane: Lane)
    requires SlotInv(slot, index) && slot.operations.Get(lane).cancellation.CancelSubmitted?
    ensures var op := slot.operations.Get(lane);
            var next := CancelCompleted(slot, lane, op.id);
            && OwedChange(slot, next, lane, op.id.generation, true)
            && OwesLane(slot, lane, op.id.generation, true) && !OwesLane(next, lane, op.id.generation, true)
  {
    hide Inv, LaneShape;
    var op := slot.operations.Get(lane);
    var next := CancelCompleted(slot, lane, op.id);
    forall l: Lane, g: U32, c: bool | l != lane || g != op.id.generation || !c
      ensures OwesLane(slot, l, g, c) == OwesLane(next, l, g, c)
    {
      GetSet(slot.operations, lane, next.operations.Get(lane), l);
    }
  }

  /** The slot and the kernel's debts after a completion. */
  lemma EndedHolds(slots: seq<Slot>, kernel: set<U64>, token: U64, result: int, buffer: seq<Byte>)
    requires AllSlots(slots) && KernelInv(slots, kernel) && token in kernel
    ensures var index := TokenSlot(token) / 3;
            && index < |slots| && (slots[index].protocol.Some? ==> Inv(slots[index].protocol.value))
            && SlotInv(Ended(slots[index], token, result, buffer), index)
            && KernelInv(slots[index := Ended(slots[index], token, result, buffer)], kernel - {token})
  {
    hide KernelInv, LaneShape, OpCompleted, CancelCompleted;
    KernelMember(slots, kernel, token);
    var (index, lane, id) := (TokenSlot(token) / 3, LaneAt(TokenSlot(token) % 3), TokenId(token));
    var slot := slots[index];
    OwedIsCurrent(slots, token);
    TokenFromParts(token);
    if TokenCancels(token) {
      CancelCompletedHolds(slot, index, lane);
      CancelCompletedOwes(slot, index, lane);
      KernelLoses(slots, index, CancelCompleted(slot, lane, id), kernel, lane, id.generation, true);
    } else {
      CompletedHolds(slot, index, lane, result, buffer);
      CompletedOwes(slot, index, lane, result, buffer);
      KernelLoses(slots, index, OpCompleted(slot, lane, id, result, buffer), kernel, lane, id.generation, false);
    }
  }

  lemma EndedWinds(slots: seq<Slot>, kernel: set<U64>, token: U64, result: int, buffer: seq<Byte>)
    requires AllSlots(slots) && KernelInv(slots, kernel) && token in kernel
    ensures var index := TokenSlot(token) / 3;
            && index < |slots| && (slots[index].protocol.Some? ==> Inv(slots[index].protocol.value))
            && Winds(slots[index], Ended(slots[index], token, result, buffer), 1)
  {
    hide KernelInv, OpCompleted, CancelCompleted, Winds, Inv;
    KernelMember(slots, kernel, token);
    var (index, lane) := (TokenSlot(token) / 3, LaneAt(TokenSlot(token) % 3));
    OwedIsCurrent(slots, token);
    assert SlotInv(slots[index], index) && LaneShape(slots[index], index, lane);
    if TokenCancels(token) {
      CancelCompletedWinds(slots[index], lane);
    } else {
      OpCompletedWinds(slots[index], index, lane, result, buffer);
    }
  }
}
