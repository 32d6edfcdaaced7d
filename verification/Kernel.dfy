/** Completion tokens, and the set of requests the kernel still owes an answer for. */
module Kernel {
  import opened Wire
  import opened Machine
  import opened Operations
  import opened Slots

  const CANCEL_BIT: nat := 0x8000_0000
  const WORD: nat := 0x1_0000_0000

  /** The most links whose operation words stay below the cancellation bit. */
  const MAX_LINKS: nat := 715827882

  /** Generation above, slot word below; bit 31 marks a cancellation. */
  function Token(id: OpId, cancel: bool): (token: U64)
    requires id.slot < CANCEL_BIT
  {
    id.generation * WORD + id.slot + if cancel then CANCEL_BIT else 0
  }

  function TokenSlot(token: U64): (word: nat)
    ensures word < CANCEL_BIT
  {
    token % WORD % CANCEL_BIT
  }

  predicate TokenCancels(token: U64) { token % WORD >= CANCEL_BIT }

  function TokenGeneration(token: U64): U32 { token / WORD }

  function TokenId(token: U64): OpId { OpId(TokenSlot(token), TokenGeneration(token)) }

  lemma TokenRoundTrip(id: OpId, cancel: bool)
    requires id.slot < CANCEL_BIT
    ensures TokenId(Token(id, cancel)) == id && TokenCancels(Token(id, cancel)) == cancel
  {
  }

  lemma TokenFromParts(token: U64)
    ensures Token(TokenId(token), TokenCancels(token)) == token
  {
  }

  predicate OwesLane(slot: Slot, lane: Lane, generation: U32, cancel: bool) {
    var op := slot.operations.Get(lane);
    && op.id.generation == generation
    && if cancel then op.cancellation.CancelSubmitted? else op.phase.Submitted?
  }

  /** The token names one link's lane, at its current generation, that was submitted. */
  predicate Expected(slots: seq<Slot>, token: U64) {
    var word := TokenSlot(token);
    && word / 3 < |slots|
    && OwesLane(slots[word / 3], LaneAt(word % 3), TokenGeneration(token), TokenCancels(token))
  }

  /** The kernel owes exactly the submitted operations and submitted cancellations. */
  predicate KernelInv(slots: seq<Slot>, kernel: set<U64>) {
    && (forall token: U64 :: token in kernel ==> Expected(slots, token))
    && (forall token: U64 :: Expected(slots, token) ==> token in kernel)
  }

  predicate AllSlots(slots: seq<Slot>) {
    && |slots| <= MAX_LINKS
    && forall i :: 0 <= i < |slots| ==> SlotInv(slots[i], i)
  }

  /** Every slot with something left to do is in the ready ring. */
  predicate Attended(slots: seq<Slot>, queue: seq<nat>) {
    forall i :: 0 <= i < |slots| && NeedsPass(slots[i]) ==> i in queue
  }

  predicate SameDebt(a: Op, b: Op) {
    && a.phase.Submitted? == b.phase.Submitted?
    && a.cancellation.CancelSubmitted? == b.cancellation.CancelSubmitted?
    && (a.phase.Submitted? || a.cancellation.CancelSubmitted? ==> a.id == b.id)
  }

  predicate SameOwed(a: Slot, b: Slot) {
    && SameDebt(a.operations.data, b.operations.data)
    && SameDebt(a.operations.creditSend, b.operations.creditSend)
    && SameDebt(a.operations.creditReceive, b.operations.creditReceive)
  }

  lemma SameDebtSameAnswer(a: Slot, b: Slot, lane: Lane, generation: U32, cancel: bool)
    requires SameOwed(a, b)
    ensures OwesLane(a, lane, generation, cancel) == OwesLane(b, lane, generation, cancel)
  {
    match lane case Data => case CreditSend => case CreditReceive =>
  }

  lemma KernelUntouched(slots: seq<Slot>, index: nat, slot: Slot, kernel: set<U64>)
    requires KernelInv(slots, kernel) && index < |slots| && SameOwed(slots[index], slot)
    ensures KernelInv(slots[index := slot], kernel)
  {
    hide OwesLane, SameOwed;
    forall token: U64 ensures Expected(slots, token) == Expected(slots[index := slot], token) {
      SameDebtSameAnswer(slots[index], slot, LaneAt(TokenSlot(token) % 3), TokenGeneration(token), TokenCancels(token));
    }
  }

  /** One lane starts or stops owing one request. */
  predicate OwedChange(a: Slot, b: Slot, lane: Lane, generation: U32, cancel: bool) {
    forall l: Lane, g: U32, c: bool :: (l != lane || g != generation || c != cancel) ==>
      OwesLane(a, l, g, c) == OwesLane(b, l, g, c)
  }

  lemma TokenWord(index: nat, lane: Lane)
    ensures OpSlot(index, lane) / 3 == index && LaneAt(OpSlot(index, lane) % 3) == lane
    ensures index < MAX_LINKS ==> OpSlot(index, lane) < CANCEL_BIT
  {
  }

  lemma OtherToken(slots: seq<Slot>, index: nat, slot: Slot, lane: Lane, generation: U32, cancel: bool, token: U64)
    requires index < |slots| <= MAX_LINKS && OwedChange(slots[index], slot, lane, generation, cancel)
    requires token != Token(OpId(OpSlot(index, lane), generation), cancel)
    ensures Expected(slots, token) == Expected(slots[index := slot], token)
  {
    hide OwesLane;
    var word := TokenSlot(token);
    TokenFromParts(token);
    assert word == OpSlot(word / 3, LaneAt(word % 3));
  }

  lemma KernelGains(slots: seq<Slot>, index: nat, slot: Slot, kernel: set<U64>, lane: Lane, generation: U32,
                    cancel: bool)
    requires KernelInv(slots, kernel) && index < |slots| <= MAX_LINKS
    requires OwedChange(slots[index], slot, lane, generation, cancel)
    requires !OwesLane(slots[index], lane, generation, cancel) && OwesLane(slot, lane, generation, cancel)
    ensures var token := Token(OpId(OpSlot(index, lane), generation), cancel);
            token !in kernel && KernelInv(slots[index := slot], kernel + {token})
  {
    hide OwesLane;
    TokenWord(index, lane);
    var id := OpId(OpSlot(index, lane), generation);
    var freshToken := Token(id, cancel);
    TokenRoundTrip(id, cancel);
    forall token: U64 | token != freshToken ensures Expected(slots, token) == Expected(slots[index := slot], token) {
      OtherToken(slots, index, slot, lane, generation, cancel, token);
    }
  }

  lemma KernelLoses(slots: seq<Slot>, index: nat, slot: Slot, kernel: set<U64>, lane: Lane, generation: U32,
                    cancel: bool)
    requires KernelInv(slots, kernel) && index < |slots| <= MAX_LINKS
    requires OwedChange(slots[index], slot, lane, generation, cancel)
    requires OwesLane(slots[index], lane, generation, cancel) && !OwesLane(slot, lane, generation, cancel)
    ensures var token := Token(OpId(OpSlot(index, lane), generation), cancel);
            token in kernel && KernelInv(slots[index := slot], kernel - {token})
  {
    hide OwesLane;
    TokenWord(index, lane);
    var id := OpId(OpSlot(index, lane), generation);
    var oldToken := Token(id, cancel);
    TokenRoundTrip(id, cancel);
    forall token: U64 | token != oldToken ensures Expected(slots, token) == Expected(slots[index := slot], token) {
      OtherToken(slots, index, slot, lane, generation, cancel, token);
    }
  }

  // --- How much the kernel can owe ---

  function TokenKey(token: U64): nat { 2 * TokenSlot(token) + if TokenCancels(token) then 1 else 0 }

  lemma SameKeySameToken(slots: seq<Slot>, a: U64, b: U64)
    requires Expected(slots, a) && Expected(slots, b) && TokenKey(a) == TokenKey(b)
    ensures a == b
  {
    TokenFromParts(a);
    TokenFromParts(b);
  }

  lemma {:induction false} KeysBound(slots: seq<Slot>, kernel: set<U64>, n: nat)
    requires forall token :: token in kernel ==> Expected(slots, token) && TokenKey(token) < n
    ensures |kernel| <= n
    decreases n
  {
    if n == 0 {
      assert kernel == {};
    } else if exists token :: token in kernel && TokenKey(token) == n - 1 {
      var top :| top in kernel && TokenKey(top) == n - 1;
      forall token | token in kernel - {top} ensures TokenKey(token) < n - 1 {
        if TokenKey(token) == n - 1 { SameKeySameToken(slots, token, top); }
      }
      KeysBound(slots, kernel - {top}, n - 1);
    } else {
      KeysBound(slots, kernel, n - 1);
    }
  }

  /** Every original operation and its cancellation may complete together: the
      completion queue never needs more than six entries a link. */
  lemma KernelBound(slots: seq<Slot>, kernel: set<U64>)
    requires KernelInv(slots, kernel)
    ensures |kernel| <= 6 * |slots|
  {
    forall token | token in kernel ensures TokenKey(token) < 6 * |slots| {
      assert Expected(slots, token);
    }
    KeysBound(slots, kernel, 6 * |slots|);
  }

  /** An owed token is the token of the operation it decodes to, and of no other. */
  lemma OwedIsCurrent(slots: seq<Slot>, token: U64)
    requires AllSlots(slots) && Expected(slots, token)
    ensures var word := TokenSlot(token);
            && slots[word / 3].operations.Get(LaneAt(word % 3)).id == TokenId(token)
            && slots[word / 3].protocol.Some?
  {
    hide Inv;
    var word := TokenSlot(token);
    assert SlotInv(slots[word / 3], word / 3);
    match LaneAt(word % 3) case Data => case CreditSend => case CreditReceive =>
  }

  /** The machine asks for a transfer, a frame or an admission on the lane. */
  predicate Asks(m: State, lane: Lane)
    requires Inv(m)
  {
    EffectOf(m, lane).Some? && !EffectOf(m, lane).value.Cancel?
  }

  /** A lane's fixed buffer is its owner's to fill, read or hand on only when the kernel owes
      nothing for it: neither the transfer nor its cancellation. */
  lemma BufferIsFree(slots: seq<Slot>, kernel: set<U64>, index: nat, lane: Lane)
    requires AllSlots(slots) && KernelInv(slots, kernel) && index < |slots|
    requires var slot := slots[index];
             slot.operations.Get(lane).phase.Available?
             || (slot.protocol.Some? && Inv(slot.protocol.value) && Asks(slot.protocol.value, lane))
    ensures forall token :: token in kernel ==> TokenSlot(token) != OpSlot(index, lane)
  {
    TokenWord(index, lane);
    FreeLaneOwesNothing(slots[index], index, lane);
    hide SlotInv, OwesLane;
    forall token | token in kernel ensures TokenSlot(token) != OpSlot(index, lane) {
      assert Expected(slots, token);
    }
  }

  lemma FreeLaneOwesNothing(slot: Slot, index: nat, lane: Lane)
    requires SlotInv(slot, index)
    requires slot.operations.Get(lane).phase.Available?
             || (slot.protocol.Some? && Inv(slot.protocol.value) && Asks(slot.protocol.value, lane))
    ensures forall generation: U32, cancel: bool :: !OwesLane(slot, lane, generation, cancel)
  {
    hide Inv;
    assert LaneShape(slot, index, lane);
  }
}
