/** What a completion's result code does to the connection, and the driver's receive hints. */
module Results {
  import opened Wire
  import opened Transport
  import opened Machine
  import opened Operations
  import opened Slots
  import opened Shutdown
  import opened Completions
  import opened Passes
  import opened Calls

  const EINTR: int := 4
  const EAGAIN: int := 11
  const EINVAL: int := 22

  /** The request is to be made again: it was interrupted, found nothing, or carried a hint that
      the kernel does not know. */
  predicate Again(result: int, hinted: bool) {
    result == -EINTR || result == -EAGAIN || (result == -EINVAL && hinted)
  }

  /** The lane is free again and nothing else about the machine has changed. */
  predicate Freed(m: State, lane: Lane, now: State) { now == m.(active := m.active.Set(lane, None)) }

  /** What a terminal completion means: on an open link a retry leaves the machine to ask again,
      any other negative code and the end of the stream close it, and a positive count moves the
      lane by exactly that many bytes unless more came than were asked for; a closed link only
      gets its lane back. The hint is gone only after the code that refuses it. */
  lemma CompletionMeans(slot: Slot, index: nat, lane: Lane, result: int, buffer: seq<Byte>)
    requires SlotInv(slot, index) && slot.operations.Get(lane).phase.Submitted?
    ensures HasMachine(slot) && slot.protocol.value.active.Get(lane).Some?
    ensures slot.protocol.value.active.Get(lane).value.effect.Transfers()
    ensures var (m, hinted) := (slot.protocol.value, slot.hints.Get(lane));
            var now := OpCompleted(slot, lane, slot.operations.Get(lane).id, result, buffer);
            && now.protocol.Some? && now.protocol.value.active == m.active.Set(lane, None)
            && (m.closed.Some? || Again(result, hinted) ==> Freed(m, lane, now.protocol.value))
            && (m.closed.None? && result < 0 && !Again(result, hinted) ==>
                  now.protocol.value.closed == Some(Io(-result)))
            && (m.closed.None? && result == 0 ==> now.protocol.value.closed == Some(Error.Closed))
            && (m.closed.None? && result > m.active.Get(lane).value.effect.length ==>
                  now.protocol.value.closed == Some(Protocol))
            && now.hints == (if result == -EINVAL then slot.hints.Set(lane, false) else slot.hints)
  {
    hide Inv, LaneShape, WantsOwner, EffectOf, Finish, ReclaimOp, Progress;
    SubmittedHasProtocol(slot, index, lane);
    var (m, id) := (slot.protocol.value, slot.operations.Get(lane).id);
    var io := ResultOf(result, slot.hints.Get(lane));
    LaneTransfers(m, lane);
    CompletedMachine(m, lane, id, io, buffer);
    CompleteClearsLane(m, lane, io, buffer);
  }

  lemma LaneTransfers(m: State, lane: Lane)
    requires Inv(m) && m.active.Get(lane).Some?
    ensures m.active.Get(lane).value.effect.Transfers() && 0 < m.active.Get(lane).value.effect.length
  {
    match lane case Data => case CreditSend => case CreditReceive =>
  }

  // --- Hints ---

  /** A request is hinted exactly if it is a receive at the start of its buffer and the kernel has
      never refused the hint. */
  lemma HintIsFirst(slot: Slot, lane: Lane, hints: bool)
    requires HasMachine(slot) && Submittable(slot, lane)
    ensures var effect := EffectOf(slot.protocol.value, lane).value;
            Sent(slot, lane, Hint(slot, lane, hints)).hints
            == slot.hints.Set(lane, hints && effect.Receive? && effect.offset == 0)
  {
    hide Inv, Apply, EffectOf, Demand;
  }

  lemma {:induction false} HintsLeftIff(slots: seq<Slot>, cqes: seq<Cqe>, hints: bool)
    ensures HintsLeft(slots, cqes, hints)
            <==> hints && forall k :: 0 <= k < |cqes| ==> !RefusesAt(Ends(slots, cqes[..k]), cqes[k])
    decreases |cqes|
  {
    hide Ends, RefusesAt;
    if cqes != [] {
      var rest := cqes[..|cqes| - 1];
      HintsLeftIff(slots, rest, hints);
      forall k | 0 <= k < |rest| ensures rest[..k] == cqes[..k] && rest[k] == cqes[k] {
      }
      assert cqes[..|cqes| - 1] == rest;
    }
  }

  lemma StepHints(a: View, call: Call, report: Report, b: View)
    requires StepOf(a, call, report, b)
    ensures if report.MadePass? then b.hints == HintsLeft(a.slots, report.t.cqes, a.hints) else b.hints == a.hints
  {
    hide TurnoverInv, HintsLeft, Given, Received, Looked, Concluded, Attached, Dropped, Dispatched, Cancelled;
  }

  /** Over any calls the driver hints if and only if it began by hinting and no completion it
      has consumed since refused a hint. */
  lemma {:induction false} HintsOverRun(states: seq<View>, calls: seq<Call>, reports: seq<Report>, n: nat)
    requires Runs(states, calls, reports) && n <= |calls|
    ensures states[n].hints <==>
            && states[0].hints
            && forall i, k :: 0 <= i < n && reports[i].MadePass? && 0 <= k < |reports[i].t.cqes| ==>
                 !RefusesAt(Ends(states[i].slots, reports[i].t.cqes[..k]), reports[i].t.cqes[k])
    decreases n
  {
    hide Sound, StepOf, Ends, RefusesAt, HintsLeft;
    if n > 0 {
      HintsOverRun(states, calls, reports, n - 1);
      assert StepOf(states[n - 1], calls[n - 1], reports[n - 1], states[n - 1 + 1]);
      StepHints(states[n - 1], calls[n - 1], reports[n - 1], states[n]);
      if reports[n - 1].MadePass? { HintsLeftIff(states[n - 1].slots, reports[n - 1].t.cqes, states[n - 1].hints); }
    }
  }
}
