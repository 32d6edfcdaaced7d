/** One fixed operation slot of the driver: who still owes a terminal completion. */
module Operations {
  import opened Wire
  import opened Machine

  datatype Phase = Available | Prepared | Submitted | Done

  datatype Cancellation = NoCancel | Requested | CancelSubmitted | CancelDone

  datatype Op = Op(id: OpId, phase: Phase, cancellation: Cancellation)

  function Unused(slot: U32): Op { Op(OpId(slot, 0), Available, NoCancel) }

  function PrepareOp(op: Op): (Op, Option<OpId>) {
    if op.phase != Available then (op, None)
    else
      var id := op.id.(generation := (op.id.generation + 1) % 0x1_0000_0000);
      (op.(id := id, phase := Prepared), Some(id))
  }

  function Accept(op: Op, id: OpId): (Op, bool) {
    if id != op.id || op.phase != Prepared then (op, false) else (op.(phase := Submitted), true)
  }

  function CancelOp(op: Op): Op {
    match op.phase
    case Prepared => op.(phase := Done)
    case Submitted => if op.cancellation.NoCancel? then op.(cancellation := Requested) else op
    case _ => op
  }

  function CancellationId(op: Op): Option<OpId> {
    if op.cancellation.Requested? then Some(op.id) else None
  }

  function CancelAccept(op: Op, id: OpId): (Op, bool) {
    if CancellationId(op) != Some(id) then (op, false) else (op.(cancellation := CancelSubmitted), true)
  }

  function CancelFinish(op: Op, id: OpId): (Op, bool) {
    if op.id != id || op.cancellation != CancelSubmitted then (op, false)
    else (op.(cancellation := CancelDone), true)
  }

  function Finish(op: Op, id: OpId): (Op, bool) {
    if op.id != id || op.phase != Submitted then (op, false)
    else
      (op.(phase := Done, cancellation := if op.cancellation.Requested? then NoCancel else op.cancellation), true)
  }

  function ReclaimOp(op: Op): (Op, bool) {
    if op.phase != Done || op.cancellation == CancelSubmitted then (op, false)
    else (op.(phase := Available, cancellation := NoCancel), true)
  }

  /** The object: each call changes the fields the value says it changes. */
  class Operation {
    var id: OpId
    var phase: Phase
    var cancellation: Cancellation

    function Model(): Op
      reads this
    {
      Op(id, phase, cancellation)
    }

    constructor (slot: U32)
      ensures Model() == Unused(slot)
    {
      id, phase, cancellation := OpId(slot, 0), Available, NoCancel;
    }

    method Prepare() returns (freshId: Option<OpId>)
      modifies this
      ensures (Model(), freshId) == PrepareOp(old(Model()))
      ensures freshId.Some? <==> old(phase) == Available
      ensures freshId.Some? ==>
                && phase == Prepared && id == freshId.value && id.slot == old(id).slot
                && cancellation == old(cancellation)
                && id.generation as int == if old(id).generation == U32_MAX then 0 else old(id).generation + 1
      ensures freshId.None? ==> Model() == old(Model())
    {
      if phase != Available {
        return None;
      }
      id := id.(generation := (id.generation + 1) % 0x1_0000_0000);
      phase := Prepared;
      return Some(id);
    }

    method Accepted(id: OpId) returns (taken: bool)
      modifies this
      ensures (Model(), taken) == Accept(old(Model()), id)
      ensures taken <==> old(phase) == Prepared && old(this.id) == id
      ensures Model() == if taken then old(Model()).(phase := Submitted) else old(Model())
    {
      if id != this.id || phase != Prepared {
        return false;
      }
      phase := Submitted;
      return true;
    }

    method Cancel()
      modifies this
      ensures Model() == CancelOp(old(Model()))
      ensures id == old(id)
      ensures phase == if old(phase) == Prepared then Done else old(phase)
      ensures cancellation == if old(phase) == Submitted && old(cancellation) == NoCancel then Requested
                              else old(cancellation)
    {
      match phase {
        case Prepared => phase := Done;
        case Submitted =>
          if cancellation == NoCancel { cancellation := Requested; }
        case Available =>
        case Done =>
      }
    }

    method CancelAccepted(id: OpId) returns (taken: bool)
      modifies this
      ensures (Model(), taken) == CancelAccept(old(Model()), id)
      ensures taken <==> old(cancellation) == Requested && old(this.id) == id
      ensures Model() == if taken then old(Model()).(cancellation := CancelSubmitted) else old(Model())
    {
      if CancellationId(Model()) != Some(id) {
        return false;
      }
      cancellation := CancelSubmitted;
      return true;
    }

    method CancelCompleted(id: OpId) returns (taken: bool)
      modifies this
      ensures (Model(), taken) == CancelFinish(old(Model()), id)
      ensures taken <==> old(cancellation) == CancelSubmitted && old(this.id) == id
      ensures Model() == if taken then old(Model()).(cancellation := CancelDone) else old(Model())
    {
      if this.id != id || cancellation != CancelSubmitted {
        return false;
      }
      cancellation := CancelDone;
      return true;
    }

    method Completed(id: OpId) returns (taken: bool)
      modifies this
      ensures (Model(), taken) == Finish(old(Model()), id)
      ensures taken <==> old(phase) == Submitted && old(this.id) == id
      ensures this.id == old(this.id) && phase == if taken then Done else old(phase)
      ensures cancellation == if taken && old(cancellation) == Requested then NoCancel else old(cancellation)
    {
      if this.id != id || phase != Submitted {
        return false;
      }
      phase := Done;
      if cancellation == Requested { cancellation := NoCancel; }
      return true;
    }

    method Reclaim() returns (taken: bool)
      modifies this
      ensures (Model(), taken) == ReclaimOp(old(Model()))
      ensures taken <==> old(phase) == Done && old(cancellation) != CancelSubmitted
      ensures Model() == if taken then Op(old(id), Available, NoCancel) else old(Model())
    {
      if phase != Done || cancellation == CancelSubmitted {
        return false;
      }
      phase, cancellation := Available, NoCancel;
      return true;
    }
  }

  // --- Reuse needs every accepted request to have ended ---

  datatype OpCall =
    | CallPrepare
    | CallAccept(id: OpId)
    | CallCancel
    | CallCancelAccept(id: OpId)
    | CallCancelFinish(id: OpId)
    | CallFinish(id: OpId)
    | CallReclaim

  /** An operation with the requests accepted and ended since it was last prepared. */
  datatype Owed = Owed(op: Op, accepted: nat, ended: nat, cancels: nat, cancelsEnded: nat)

  function Called(o: Owed, call: OpCall): Owed {
    match call
    case CallPrepare =>
      var (op, id) := PrepareOp(o.op);
      if id.Some? then Owed(op, 0, 0, 0, 0) else o
    case CallAccept(id) =>
      var (op, taken) := Accept(o.op, id);
      o.(op := op, accepted := o.accepted + if taken then 1 else 0)
    case CallCancel => o.(op := CancelOp(o.op))
    case CallCancelAccept(id) =>
      var (op, taken) := CancelAccept(o.op, id);
      o.(op := op, cancels := o.cancels + if taken then 1 else 0)
    case CallCancelFinish(id) =>
      var (op, taken) := CancelFinish(o.op, id);
      o.(op := op, cancelsEnded := o.cancelsEnded + if taken then 1 else 0)
    case CallFinish(id) =>
      var (op, taken) := Finish(o.op, id);
      o.(op := op, ended := o.ended + if taken then 1 else 0)
    case CallReclaim => o.(op := ReclaimOp(o.op).0)
  }

  /** A submitted phase is one request still owed, a submitted cancellation another;
      a cancellation's end never counts as the operation's. */
  predicate OwedInv(o: Owed) {
    && o.accepted == o.ended + (if o.op.phase.Submitted? then 1 else 0) <= 1
    && o.cancels == o.cancelsEnded + (if o.op.cancellation.CancelSubmitted? then 1 else 0) <= 1
    && (o.op.phase.Available? || o.op.phase.Prepared? ==> o.op.cancellation.NoCancel?)
    && (o.op.phase.Prepared? ==> o.accepted == 0 && o.cancels == 0)
    && (o.op.cancellation.NoCancel? && !o.op.phase.Available? ==> o.cancels == 0)
    && (o.op.cancellation.Requested? ==> o.op.phase.Submitted? && o.cancels == 0)
  }

  function CalledAll(o: Owed, calls: seq<OpCall>): Owed
    decreases |calls|
  {
    if |calls| == 0 then o else CalledAll(Called(o, calls[0]), calls[1..])
  }

  lemma {:induction false} CallsKeepOwed(o: Owed, calls: seq<OpCall>)
    requires OwedInv(o)
    ensures OwedInv(CalledAll(o, calls))
    decreases |calls|
  {
    if |calls| > 0 { CallsKeepOwed(Called(o, calls[0]), calls[1..]); }
  }

  /** Over any calls: an operation that can be prepared again has had its original
      request and its cancellation, if accepted, each end exactly once. */
  lemma {:induction false} ReuseNeedsBothEnds(slot: U32, calls: seq<OpCall>)
    ensures var o := CalledAll(Owed(Unused(slot), 0, 0, 0, 0), calls);
            && (PrepareOp(o.op).1.Some? ==> o.accepted == o.ended && o.cancels == o.cancelsEnded)
            && o.accepted <= 1 && o.cancels <= 1
            && o.op.id.slot == slot
  {
    CallsKeepOwed(Owed(Unused(slot), 0, 0, 0, 0), calls);
    CallsKeepSlot(Owed(Unused(slot), 0, 0, 0, 0), calls);
  }

  /** How many of the calls prepared the operation. */
  function Preparations(o: Owed, calls: seq<OpCall>): nat
    decreases |calls|
  {
    if |calls| == 0 then 0
    else
      (if calls[0].CallPrepare? && PrepareOp(o.op).1.Some? then 1 else 0)
      + Preparations(Called(o, calls[0]), calls[1..])
  }

  /** Over any calls the id's generation counts the preparations, going round after all of them
      have been used. */
  lemma {:induction false} GenerationCounts(o: Owed, calls: seq<OpCall>)
    ensures CalledAll(o, calls).op.id.generation as int
            == (o.op.id.generation + Preparations(o, calls)) % 0x1_0000_0000
    decreases |calls|
  {
    if |calls| > 0 { GenerationCounts(Called(o, calls[0]), calls[1..]); }
  }

  lemma {:induction false} CallsKeepSlot(o: Owed, calls: seq<OpCall>)
    ensures CalledAll(o, calls).op.id.slot == o.op.id.slot
    decreases |calls|
  {
    if |calls| > 0 { CallsKeepSlot(Called(o, calls[0]), calls[1..]); }
  }
}
