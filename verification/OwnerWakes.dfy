/** The wake-ups of the links' futures: over any calls on the driver, a future that waits is
    woken, or its wake-up is on record, once its link closes or asks for it. */
module OwnerWakes {
  import opened Wire
  import opened Transport
  import opened Machine
  import opened Operations
  import opened Slots
  import opened Kernel
  import opened ReadyRing
  import opened Turns
  import opened Shutdown
  import opened Completions
  import opened Passes
  import opened Calls
  import opened Wired

  // --- One slot ---

  lemma WakesOn(a: Slot, b: Slot, c: Slot)
    requires Wakes(a, b) && Wakes(b, c)
    ensures Wakes(a, c)
  {
    hide OwnerEffect;
  }

  lemma RecordsOn(a: Slot, b: Slot, c: Slot)
    requires LosesNothing(a, b) && LosesNothing(b, c)
    ensures LosesNothing(a, c)
  {
    hide Wakes;
    WakesOn(a, b, c);
  }

  /** The machine is as it was. */
  lemma SameWakes(was: Slot, now: Slot)
    requires now.protocol == was.protocol && now.waker == was.waker && now.work.wake == was.work.wake
    requires was.work.notify ==> now.work.notify
    ensures LosesNothing(was, now)
  {
    hide Inv, EffectOf;
  }

  lemma ShutWakes(slot: Slot, input: Input)
    requires HasMachine(slot) && (input.Revoke? || input.Close?)
    ensures LosesNothing(slot, Shut(slot, input))
  {
    hide Inv;
  }

  // --- The completions of a pass ---

  /** The completions taken leave the table sound and wake whom they concern. */
  lemma {:induction false} EndsWake(slots: seq<Slot>, kernel: set<U64>, cqes: seq<Cqe>, x: nat)
    requires AllSlots(slots) && KernelInv(slots, kernel) && Delivered(kernel, cqes) && x < |slots|
    ensures var ended := Ends(slots, cqes);
            && AllSlots(ended) && KernelInv(ended, Unreaped(kernel, cqes, |cqes|)) && LosesNothing(slots[x], ended[x])
    decreases |cqes|
  {
    hide KernelInv, AllSlots, EndOne, LosesNothing, Expected;
    if cqes == [] {
      assert cqes[..0] == [] && Unreaped(kernel, cqes, 0) == kernel;
      SameWakes(slots[x], slots[x]);
    } else {
      var (rest, last) := (cqes[..|cqes| - 1], cqes[|cqes| - 1]);
      DeliveredBefore(kernel, cqes);
      EndsWake(slots, kernel, rest, x);
      NextToken(kernel, cqes, |cqes| - 1);
      UnreapedBefore(kernel, cqes);
      EndOneHolds(Ends(slots, rest), Unreaped(kernel, rest, |rest|), last);
      EndOneWakes(Ends(slots, rest), last, x);
      assert cqes[..|cqes|] == cqes;
      RecordsOn(slots[x], Ends(slots, rest)[x], Ends(slots, cqes)[x]);
    }
  }

  lemma EndOneWakes(slots: seq<Slot>, cqe: Cqe, x: nat)
    requires x < |slots|
    ensures LosesNothing(slots[x], EndOne(slots, cqe)[x])
  {
    hide LosesNothing, Ended, Inv;
    var index := TokenSlot(cqe.token) / 3;
    if index == x && SlotMachineInv(slots[x]) {
      EndedWakes(slots[x], cqe.token, cqe.result, cqe.buffer);
    } else {
      SameWakes(slots[x], slots[x]);
    }
  }

  // --- Its authority scan and its visits ---

  lemma ScannedWakes(slot: Slot, index: nat, revoked: bool)
    requires SlotInv(slot, index) && SlotMachineInv(slot)
    ensures LosesNothing(slot, Scanned(slot, revoked)) && SlotInv(Scanned(slot, revoked), index)
  {
    hide Inv, Shut, LosesNothing, SlotInv, SameOwed;
    var free := slot.(contended := false);
    MarkedHolds(slot, free, index);
    SameWakes(slot, free);
    if revoked && IsOpen(free) {
      ShutHolds(free, index, Revoke);
      ShutWakes(free, Revoke);
      RecordsOn(slot, free, Shut(free, Revoke));
    }
  }

  lemma RefreshWakes(slot: Slot)
    ensures LosesNothing(slot, Refresh(slot))
  {
    hide Swept;
    SameWakes(slot, Refresh(slot));
  }

  /** A transfer entered asks for nothing the machine did not ask for before. */
  lemma AcceptedAsks(m: State, lane: Lane, op: OpId)
    requires Inv(m) && EffectOf(m, lane).Some? && EffectOf(m, lane).value.Transfers() && FirstLane(m.active, op).None?
    ensures var next := Apply(m, Accepted(lane, op)).next;
            && Inv(next) && m.closed.None? && next.closed.None?
            && (EffectOf(next, Data) == EffectOf(m, Data) || EffectOf(next, Data).None?)
  {
    AcceptedMachine(m, lane, op);
    ApplyKeepsInv(m, Accepted(lane, op));
  }

  lemma TransferWakes(e: Event, index: nat, deferred: bool, hints: bool)
    requires SlotInv(e.before, index) && Genuine(e, deferred, hints) && Transfers(e)
    ensures SlotInv(e.after, index) && LosesNothing(e.before, e.after)
  {
    TransferSlot(e, index, deferred, hints);
    TransferKeepsWaker(e, deferred, hints);
    var was := Refresh(e.before);
    var lane := PendingLane(was).value;
    var op := PreparedOp(was.operations.Get(lane)).id;
    hide Inv, EffectOf, Apply, Refresh, PendingLane, PreparedOp, Genuine, Transfers, SlotInv;
    AcceptedAsks(was.protocol.value, lane, op);
  }

  lemma TransferKeepsWaker(e: Event, deferred: bool, hints: bool)
    requires Genuine(e, deferred, hints) && Transfers(e)
    ensures e.after.waker == e.before.waker && e.after.work.wake == e.before.work.wake
  {
    hide Inv, Apply, PendingLane, EffectOf, Submittable, Swept, PreparedOp, Hint;
  }

  lemma CancelWakes(was: Slot, next: Slot, index: nat, deferred: bool, hints: bool)
    requires SlotInv(was, index) && TookFirst(was, next, deferred, hints) && Cancelling(was, PendingLane(was).value)
    ensures SlotInv(next, index) && LosesNothing(was, next)
  {
    CancelledSlot(was, next, index, deferred, hints);
    hide LosesNothing, Inv, SlotInv, PendingLane;
    SameWakes(was, next);
  }

  lemma RepelledWakes(was: Slot, access: Access, index: nat, deferred: bool, hints: bool)
    requires SlotInv(was, index) && TurnedAway(was, access)
    ensures SlotInv(Repelled(was, access, deferred, hints), index)
    ensures LosesNothing(was, Repelled(was, access, deferred, hints))
  {
    var input := RepelledSlot(was, access, index, deferred, hints);
    hide LosesNothing, Inv, SlotInv, PendingLane, Shut, Apply, EffectOf;
    var marked := Marked(was, deferred);
    SameWakes(was, marked);
    if access.Refused? {
      var reason := if access.error == Error.Revoked then Revoke else Close(access.error);
      ShutWakes(marked, reason);
      RecordsOn(was, marked, Shut(marked, reason));
    } else {
      SameWakes(was, marked.(contended := true));
    }
  }

  lemma EventWakes(e: Event, index: nat, deferred: bool, hints: bool)
    requires SlotInv(e.before, index) && Genuine(e, deferred, hints)
    ensures SlotInv(e.after, index) && LosesNothing(e.before, e.after)
  {
    hide LosesNothing, SlotInv, PendingLane, Submittable, Repelled, Inv;
    if Transfers(e) {
      TransferWakes(e, index, deferred, hints);
    } else {
      RefreshSame(e.before, index);
      RefreshWakes(e.before);
      var was := Refresh(e.before);
      match e.attempt {
        case Blocked =>
        case Took(_) =>
          var next :| TookFirst(was, next, deferred, hints) && e.after == Refresh(next);
          CancelWakes(was, next, index, deferred, hints);
          Refreshed(e.before, was, next, index);
        case Passed =>
          if !Unasked(was) {
            var access :| TurnedAway(was, access) && e.after == Refresh(Repelled(was, access, deferred, hints));
            RepelledWakes(was, access, index, deferred, hints);
            Refreshed(e.before, was, Repelled(was, access, deferred, hints), index);
          }
      }
    }
  }

  lemma Refreshed(before: Slot, was: Slot, next: Slot, index: nat)
    requires LosesNothing(before, was) && LosesNothing(was, next) && SlotInv(next, index)
    ensures LosesNothing(before, Refresh(next)) && SlotInv(Refresh(next), index)
  {
    hide LosesNothing, SlotInv, Refresh;
    RefreshSame(next, index);
    RefreshWakes(next);
    RecordsOn(before, was, next);
    RecordsOn(before, next, Refresh(next));
  }

  lemma {:induction false} TraceWakes(trace: seq<Event>, x: nat, from: Slot, to: Slot, deferred: bool, hints: bool)
    requires SlotRun(trace, x, from, to) && forall e :: e in trace ==> Genuine(e, deferred, hints)
    requires SlotInv(from, x)
    ensures LosesNothing(from, to) && SlotInv(to, x)
    decreases |trace|
  {
    hide SlotInv, Genuine, LosesNothing;
    if trace == [] {
      SameWakes(from, to);
    } else {
      var (rest, last) := (trace[..|trace| - 1], trace[|trace| - 1]);
      assert (forall e :: e in rest ==> e in trace) && last in trace;
      TraceWakes(rest, x, from, if last.index == x then last.before else to, deferred, hints);
      if last.index == x {
        EventWakes(last, x, deferred, hints);
        RecordsOn(from, last.before, to);
      }
    }
  }

  lemma PassWakes(a: View, budget: Budget, deferred: bool, cqes: seq<Cqe>, t: Turnover, b: View, x: nat)
    requires Sound(a) && PassOf(a, budget, deferred, Answers(a.slots, cqes), t, b) && x < |a.slots|
    ensures |b.slots| == |a.slots| && LosesNothing(a.slots[x], b.slots[x])
  {
    AnswersDelivered(a.slots, a.kernel, cqes);
    DeliveredSome(a.kernel, Answers(a.slots, cqes), |t.cqes|);
    TurnoverTrace(t, |a.slots|);
    hide KernelInv, Delivered, SlotInv, SlotRun, Genuine, Ends, Scanned, TurnoverInv, WindsAll, Attended, Entries;
    hide Reached, Answers, LosesNothing;
    EndsWake(a.slots, a.kernel, t.cqes, x);
    var slot := Ends(a.slots, t.cqes)[x];
    assert SlotInv(slot, x);
    ScannedWakes(slot, x, x in t.revoked);
    TraceWakes(t.trace, x, t.scanned[x], t.now[x], t.deferred, t.hints);
    RecordsOn(a.slots[x], slot, t.scanned[x]);
    RecordsOn(a.slots[x], t.scanned[x], t.now[x]);
  }

  // --- The authority's note ---

  /** A visit of a pass with deferred admission that asks the authority to let a transfer in. */
  predicate Asks(e: Event) {
    Transfers(e) || (e.attempt.Passed? && !Unasked(Refresh(e.before)))
  }

  lemma AskingNotes(e: Event, index: nat, hints: bool)
    requires SlotInv(e.before, index) && Genuine(e, true, hints) && Asks(e)
    ensures e.after.work.notify
  {
    hide Inv, Apply, PendingLane, EffectOf, Submittable, Swept, PreparedOp, Hint, SlotInv, Granted, Refresh;
    var was := Refresh(e.before);
    if e.attempt.Took? {
      var next :| TookFirst(was, next, true, hints) && e.after == Refresh(next);
      GrantedNotes(was, PendingLane(was).value, hints, Entered);
      RefreshWakes(next);
    } else {
      var access :| TurnedAway(was, access) && e.after == Refresh(Repelled(was, access, true, hints));
      GrantedNotes(was, PendingLane(was).value, hints, access);
      RefreshWakes(Repelled(was, access, true, hints));
    }
  }

  lemma GrantedNotes(slot: Slot, lane: Lane, hints: bool, access: Access)
    requires HasMachine(slot) && Submittable(slot, lane)
    ensures Granted(slot, lane, true, hints, access).work.notify
  {
    hide Inv, EffectOf, PreparedOp, Apply;
  }

  /** With deferred admission, every link for which the authority was asked has a note for it on
      record when the visits are over. */
  lemma {:induction false} TraceNotes(trace: seq<Event>, x: nat, from: Slot, to: Slot, hints: bool)
    requires SlotRun(trace, x, from, to) && forall e :: e in trace ==> Genuine(e, true, hints)
    requires SlotInv(from, x) && exists e :: e in trace && e.index == x && Asks(e)
    ensures to.work.notify
    decreases |trace|
  {
    hide SlotInv, Genuine, Asks;
    var (rest, last) := (trace[..|trace| - 1], trace[|trace| - 1]);
    assert (forall e :: e in trace <==> e in rest || e == last) && last in trace;
    var mid := if last.index == x then last.before else to;
    TraceWakes(rest, x, from, mid, true, hints);
    if last.index == x { EventWakes(last, x, true, hints); }
    if last.index == x && Asks(last) {
      AskingNotes(last, x, hints);
    } else {
      TraceNotes(rest, x, from, mid, hints);
    }
  }

  /** The note stays until a dispatch takes it. */
  lemma PassNotes(a: View, budget: Budget, cqes: seq<Cqe>, t: Turnover, b: View, x: nat)
    requires Sound(a) && PassOf(a, budget, true, Answers(a.slots, cqes), t, b) && x < |a.slots|
    requires exists e :: e in t.trace && e.index == x && Asks(e)
    ensures |b.slots| == |a.slots| && b.slots[x].work.notify
  {
    AnswersDelivered(a.slots, a.kernel, cqes);
    DeliveredSome(a.kernel, Answers(a.slots, cqes), |t.cqes|);
    TurnoverTrace(t, |a.slots|);
    hide KernelInv, Delivered, SlotInv, SlotRun, Genuine, Ends, Scanned, TurnoverInv, WindsAll, Attended, Entries;
    hide Reached, Answers, LosesNothing, Asks;
    EndsWake(a.slots, a.kernel, t.cqes, x);
    var slot := Ends(a.slots, t.cqes)[x];
    assert SlotInv(slot, x);
    ScannedWakes(slot, x, x in t.revoked);
    TraceNotes(t.trace, x, t.scanned[x], t.now[x], t.hints);
  }

  // --- Any calls ---

  /** A call of the link's own future. */
  predicate ByOwner(call: Call, x: nat) {
    (call.Export? || call.Import? || call.Look? || call.Drop?) && call.index == x
  }

  /** The registered waker was taken and woken, and its record cleared. */
  predicate Woken(was: Slot, now: Slot) { was.waker && was.work.wake && !now.waker && !now.work.wake }

  lemma CancelledWakes(slot: Slot)
    requires SlotMachineInv(slot)
    ensures LosesNothing(slot, Cancelled(slot))
  {
    hide Inv, Shut, LosesNothing, Refresh;
    if slot.protocol.Some? {
      var shut := Shut(slot, Close(Error.Closed));
      ShutWakes(slot, Close(Error.Closed));
      SameWakes(shut, shut.(contended := false));
      RecordsOn(slot, shut, shut.(contended := false));
      RefreshWakes(shut.(contended := false));
      RecordsOn(slot, shut.(contended := false), Cancelled(slot));
    } else {
      RefreshWakes(slot);
    }
  }

  lemma DispatchedWakes(slot: Slot, index: nat)
    requires SlotInv(slot, index)
    ensures var now := Dispatched(slot, slot.work);
            && !now.work.wake && (slot.waker && slot.work.wake ==> Woken(slot, now))
            && (slot.waker && !slot.work.wake ==> Wakes(slot, now))
  {
    hide Inv, EffectOf;
  }

  lemma AliveIsLinked(slot: Slot, index: nat)
    requires SlotInv(slot, index) && slot.waker
    ensures slot.protocol.Some? && !Free(slot) && SlotMachineInv(slot)
  {
    hide Inv;
  }

  /** Whatever is called but by its own future, a waiting link wakes or is dispatched. */
  lemma StepWakes(a: View, call: Call, report: Report, b: View, x: nat)
    requires Sound(a) && StepOf(a, call, report, b) && !ByOwner(call, x) && x < |a.slots| && a.slots[x].waker
    ensures |b.slots| == |a.slots|
    ensures Wakes(a.slots[x], b.slots[x]) || (call.Dispatch? && Woken(a.slots[x], b.slots[x]))
  {
    assert SlotInv(a.slots[x], x);
    AliveIsLinked(a.slots[x], x);
    SameWakes(a.slots[x], a.slots[x]);
    if IsPass(call) {
      hide *;
      hide Sound, PassOf, Wakes, IsPass;
      PassWakes(a, call.budget, call.deferred, call.cqes, report.t, b, x);
    } else {
      hide Wakes, Woken, KernelInv, Attended, AllSlots, SlotInv, Dispatched, Cancelled, Given, Received, Looked;
      hide Attached, Dropped, LookedOut, Concluded, Enqueued, Free, Inv, Recorded, Wrapped, Offset, WindsAll;
      match call {
        case Attach(_, _, _) =>
        case Export(_, _, _, _, _) =>
        case Import(_, _) =>
        case Look(_, _, _, _) =>
        case Drop(_) =>
        case Stop => CancelledWakes(a.slots[x]);
        case Dispatch(_) => DispatchedWakes(a.slots[x], x);
        case Advance(_, _, _) =>
      }
    }
  }

  /** No dispatch between two states of the run wakes link `x`. */
  predicate Sleeps(states: seq<View>, calls: seq<Call>, x: nat, j: nat, n: nat)
    requires n <= |calls| < |states|
  {
    forall k :: j <= k < n && calls[k].Dispatch? && x < |states[k].slots| && x < |states[k + 1].slots| ==>
      !Woken(states[k].slots[x], states[k + 1].slots[x])
  }

  /** From any state of a run to any later one: while the link's future makes no call and is not
      woken its waker stays, and once the link closes or asks its owner for something new the
      wake-up is on record. */
  lemma {:induction false} WakeIsRecorded(states: seq<View>, calls: seq<Call>, reports: seq<Report>, x: nat, j: nat,
                                          n: nat)
    requires Runs(states, calls, reports) && j <= n <= |calls| && x < |states[j].slots| && states[j].slots[x].waker
    requires (forall k :: j <= k < n ==> !ByOwner(calls[k], x)) && Sleeps(states, calls, x, j, n)
    ensures |states[n].slots| == |states[j].slots| && Wakes(states[j].slots[x], states[n].slots[x])
    decreases n
  {
    hide Sound, StepOf, Woken, Newly;
    if j == n {
      SameWakes(states[j].slots[x], states[j].slots[x]);
    } else {
      WakeIsRecorded(states, calls, reports, x, j, n - 1);
      assert StepOf(states[n - 1], calls[n - 1], reports[n - 1], states[n - 1 + 1]);
      StepWakes(states[n - 1], calls[n - 1], reports[n - 1], states[n], x);
      WakesOn(states[j].slots[x], states[n - 1].slots[x], states[n].slots[x]);
    }
  }

  /** What the future's poll waits for is there: the link is closed, or its machine asks for a
      frame or has one for admission. */
  predicate Due(slot: Slot, poll: Poll) {
    || IsClosed(slot)
    || (HasMachine(slot) && poll.Source? && EffectOf(slot.protocol.value, Data) == Some(Provide))
    || (HasMachine(slot) && poll.Frame? && EffectOf(slot.protocol.value, Data).Some?
        && EffectOf(slot.protocol.value, Data).value.Admit?)
  }

  /** A poll that makes its future wait leaves its waker, on an open link with nothing for it. */
  lemma PendingParks(slot: Slot, poll: Poll, revoked: (bool, bool), anew: bool)
    requires HasMachine(slot) && Looked(slot, poll, revoked, anew).polled.Pending?
    ensures var now := Looked(slot, poll, revoked, anew).slot;
            now.waker && IsOpen(now) && !Due(now, poll)
  {
    hide Inv, EffectOf;
  }

  /** When a poll for a frame, in either direction, is answered, and what a failed one says. */
  lemma PollDecides(slot: Slot, poll: Poll, revoked: (bool, bool), anew: bool)
    requires HasMachine(slot) && !poll.Endpoint?
    ensures var polled := Looked(slot, poll, revoked, anew).polled;
            && (polled.Ready? <==>
                  && IsOpen(slot) && !revoked.0 && Due(slot, poll)
                  && (poll.Frame? ==>
                        slot.protocol.value.contract == poll.contract && poll.refused.None? && !revoked.1))
            && (IsClosed(slot) ==> polled == Fails(slot.protocol.value.closed.value))
            && (IsOpen(slot) && polled.Fails? ==>
                  || (polled.error == Error.Revoked && (revoked.0 || revoked.1))
                  || (poll.Frame? && polled.error == Protocol && slot.protocol.value.contract != poll.contract)
                  || (poll.Frame? && poll.refused == Some(polled.error) && Due(slot, poll)))
  {
    hide Inv, EffectOf, Apply;
  }

  lemma DueIsNew(was: Slot, now: Slot, poll: Poll)
    requires IsOpen(was) && !Due(was, poll) && Due(now, poll)
    ensures Newly(was, now)
  {
    hide Inv, EffectOf;
  }

  /** The link's future polls at step `j`, is told to wait, and makes no call before step `n`. */
  ghost predicate Waits(states: seq<View>, calls: seq<Call>, x: nat, j: nat, n: nat)
    requires n <= |calls| < |states|
  {
    && j < n && calls[j].Look? && calls[j].index == x && Holds(states[j], x)
    && Looked(states[j].slots[x], calls[j].poll, calls[j].revoked, calls[j].anew).polled.Pending?
    && forall k :: j < k < n ==> !ByOwner(calls[k], x)
  }

  /** Over any calls a future that waits is found registered, with its wake-up on record if what
      it waits for is there, or a dispatch since then has woken it. */
  lemma ParkedIsWoken(states: seq<View>, calls: seq<Call>, reports: seq<Report>, x: nat, j: nat, n: nat)
    requires Runs(states, calls, reports) && n <= |calls| && Waits(states, calls, x, j, n)
    ensures Sleeps(states, calls, x, j + 1, n) ==>
              && x < |states[n].slots| && states[n].slots[x].waker
              && (Due(states[n].slots[x], calls[j].poll) ==> states[n].slots[x].work.wake)
  {
    var (call, a, b) := (calls[j], states[j], states[j + 1]);
    assert StepOf(a, call, reports[j], b);
    hide Sound, StepOf, Woken, Newly, Due, Looked, IsOpen;
    PendingParks(a.slots[x], call.poll, call.revoked, call.anew);
    PendingLooks(a, call, reports[j], b);
    if Sleeps(states, calls, x, j + 1, n) {
      WakeIsRecorded(states, calls, reports, x, j + 1, n);
      if Due(states[n].slots[x], call.poll) { DueIsNew(b.slots[x], states[n].slots[x], call.poll); }
    }
  }

  lemma PendingLooks(a: View, call: Call, report: Report, b: View)
    requires StepOf(a, call, report, b) && call.Look? && Holds(a, call.index)
    requires Looked(a.slots[call.index], call.poll, call.revoked, call.anew).polled.Pending?
    ensures call.index < |b.slots|
    ensures b.slots[call.index] == Looked(a.slots[call.index], call.poll, call.revoked, call.anew).slot
  {
    hide Looked, LookedOut, Enqueued, Inv;
  }

  lemma DispatchClears(a: View, call: Call, report: Report, b: View, x: nat)
    requires Sound(a) && StepOf(a, call, report, b) && call.Dispatch? && report.steps == |a.slots| && x < |a.slots|
    ensures |b.slots| == |a.slots| && !b.slots[x].work.wake
  {
    hide Dispatched, Recorded, WindsAll, KernelInv, Attended;
    assert SlotInv(a.slots[x], x);
    DispatchedWakes(a.slots[x], x);
  }

  /** Once every record has been dispatched, a future that still waits has nothing to wait for:
      its link is open and its machine asks nothing of it. */
  lemma NobodyIsForgotten(states: seq<View>, calls: seq<Call>, reports: seq<Report>, x: nat, j: nat, n: nat)
    requires Runs(states, calls, reports) && n <= |calls| && Waits(states, calls, x, j, n)
    requires j + 1 < n && calls[n - 1].Dispatch? && reports[n - 1].Dispatches?
    requires reports[n - 1].steps == |states[n - 1].slots|
    ensures Sleeps(states, calls, x, j + 1, n) ==>
              x < |states[n].slots| && states[n].slots[x].waker && !Due(states[n].slots[x], calls[j].poll)
  {
    hide Sound, StepOf, Due, Woken, Looked, Newly;
    ParkedIsWoken(states, calls, reports, x, j, n);
    assert StepOf(states[n - 1], calls[n - 1], reports[n - 1], states[n - 1 + 1]);
    if Sleeps(states, calls, x, j + 1, n) {
      ParkedIsWoken(states, calls, reports, x, j, n - 1);
      DispatchClears(states[n - 1], calls[n - 1], reports[n - 1], states[n], x);
    }
  }
}
