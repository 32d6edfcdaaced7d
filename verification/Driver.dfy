/** The single-owner I/O driver: slots, the ready ring and what the kernel owes. */
module Driver {
  import opened Wire
  import opened Transport
  import opened Machine
  import opened Operations
  import opened Slots
  import opened Kernel
  import opened ReadyRing
  import opened Turns
  import opened Passes
  import opened Shutdown
  import opened Completions
  import opened Calls

  datatype Schedule = Continue | RetryLater | Wait

  datatype Attachment = Linked(index: nat, generation: U64) | Rejected(error: Error)

  datatype Outcome = Advanced(completions: nat, submissions: nat, bytes: nat) | InvalidInput | SubmitFailed

  /** The link has closed for this reason, and its owner is to be woken. */
  predicate ClosedFor(slot: Slot, error: Error) {
    slot.protocol.Some? && slot.protocol.value.closed == Some(error) && slot.work.wake
  }

  lemma CancelledFor(slot: Slot)
    requires SlotMachineInv(slot) && IsOpen(slot)
    ensures ClosedFor(Cancelled(slot), Error.Closed)
  {
    hide Inv;
  }

  lemma ShutReason(slot: Slot, error: Error)
    requires HasMachine(slot)
    ensures var now := Shut(slot, Close(error));
            && now.protocol.Some? && now.work.wake == (slot.work.wake || IsOpen(slot))
            && now.protocol.value.closed == if IsClosed(slot) then slot.protocol.value.closed else Some(error)
  {
    hide Inv;
  }

  lemma ScannedFor(slot: Slot)
    requires SlotMachineInv(slot) && IsOpen(slot)
    ensures ClosedFor(Scanned(slot, true), Error.Revoked)
  {
    hide Inv;
  }

  /** The transfer the authority did not let in: the link is marked contended, or closed for the
      authority's reason with its owner to be woken; the authority is to be told of either when
      admission is deferred. */
  predicate TurnedDown(was: Slot, now: Slot, deferred: bool, access: Access) {
    && (deferred ==> now.work.notify)
    && (access.Contended? ==> now.contended && now.protocol == was.protocol)
    && (access.Refused? ==> ClosedFor(now, access.error))
  }

  lemma GrantedDown(slot: Slot, lane: Lane, deferred: bool, hints: bool, access: Access)
    requires HasMachine(slot) && Submittable(slot, lane) && IsOpen(slot)
    ensures var now := Granted(slot, lane, deferred, hints, access);
            (deferred ==> now.work.notify) && (!access.Entered? ==> TurnedDown(slot, now, deferred, access))
  {
    hide Inv, EffectOf, PreparedOp;
  }

  /** Every slot but `index` that needs a pass is in the ready ring. */
  predicate AttendedBut(slots: seq<Slot>, queue: seq<nat>, index: nat) {
    forall i :: 0 <= i < |slots| && i != index && NeedsPass(slots[i]) ==> i in queue
  }

  class Driver {
    const links: nat
    const bytes: nat
    const entries: nat
    const completionEntries: nat
    const ready: Ready
    var admitting: bool
    var slots: seq<Slot>
    var queued: nat
    var pending: nat
    var hints: bool
    var cursor: nat
    ghost var kernel: set<U64>

    ghost function Repr(): set<object>
      reads this
    {
      {this, ready, ready.entries, ready.present}
    }

    /** Ownership: slots are sound, and the pending count is what the kernel owes. */
    ghost predicate Owns()
      reads this, ready, ready.entries, ready.present
    {
      && 0 < links <= MAX_LINKS && ValidCapacity(bytes) && 2 <= entries && 6 * links <= completionEntries
      && ready.Valid() && ready.entries.Length == links
      && |slots| == links && AllSlots(slots)
      && KernelInv(slots, kernel) && pending == |kernel|
      && queued <= entries && cursor < links
    }

    /** Between driver calls nothing that needs a pass is outside the ready ring. */
    ghost predicate Valid()
      reads this, ready, ready.entries, ready.present
    {
      Owns() && Attended(slots, ready.queue)
    }

    ghost function Snapshot(): View
      reads this, ready
    {
      View(bytes, admitting, hints, queued, cursor, slots, ready.queue, kernel)
    }

    lemma SnapshotSound()
      requires Valid()
      ensures Sound(Snapshot())
    {
      hide AllSlots, KernelInv, Attended, Distinct;
    }

    /** The kernel grants a completion queue of at least six entries a link. */
    constructor (links: nat, bytes: nat, entries: nat, completionEntries: nat)
      requires 0 < links <= MAX_LINKS && ValidCapacity(bytes) && 2 <= entries && 6 * links <= completionEntries
      ensures Valid() && fresh(Repr()) && admitting && kernel == {} && ready.queue == []
      ensures this.links == links && this.bytes == bytes && this.entries == entries
    {
      this.links, this.bytes, this.entries, this.completionEntries := links, bytes, entries, completionEntries;
      ready := new Ready(links);
      admitting, queued, pending, hints, cursor := true, 0, 0, true, 0;
      slots := seq(links, i requires 0 <= i < links => FreshSlot(i));
      kernel := {};
      new;
      forall i | 0 <= i < links ensures SlotInv(slots[i], i) && !NeedsPass(slots[i]) {
        FreshHolds(i);
      }
      FreshOwesNothing(slots);
    }

    /** Records one slot's new value when the kernel's debts are unchanged. */
    method Update(index: nat, slot: Slot)
      requires Owns() && index < links && SlotInv(slot, index) && SameOwed(slots[index], slot)
      modifies `slots
      ensures Owns() && slots == old(slots)[index := slot]
    {
      hide SlotInv, SameOwed, KernelInv;
      KernelUntouched(slots, index, slot, kernel);
      slots := slots[index := slot];
    }

    method RefreshSlot(index: nat)
      requires Owns() && index < links
      modifies `slots
      ensures Owns() && slots == old(slots)[index := Refresh(old(slots)[index])]
      ensures NeedsPass(slots[index]) ==> PendingLane(slots[index]).Some?
      ensures Refresh(slots[index]) == slots[index]
    {
      hide SameOwed, KernelInv, Refresh, PendingLane, SlotInv, NeedsPass;
      assert SlotInv(slots[index], index);
      RefreshHolds(slots[index], index);
      RefreshOwesSame(slots[index]);
      RefreshTwice(slots[index]);
      Update(index, Refresh(slots[index]));
    }

    /** One completion the kernel reports: the request it names ends, and the slot
        gets another pass. */
    method Consume(token: U64, result: int, buffer: seq<Byte>)
      requires Owns() && token in kernel
      modifies `slots, `pending, `hints, `kernel, ready, ready.entries, ready.present
      ensures Owns() && kernel == old(kernel) - {token}
      ensures TokenSlot(token) / 3 < links && ready.queue == Enqueued(old(ready.queue), TokenSlot(token) / 3)
      ensures SlotMachineInv(old(slots)[TokenSlot(token) / 3])
      ensures slots == old(slots)[TokenSlot(token) / 3 :=
                                  Ended(old(slots)[TokenSlot(token) / 3], token, result, buffer)]
      ensures LosesNothing(old(slots)[TokenSlot(token) / 3], slots[TokenSlot(token) / 3])
      ensures hints == (old(hints) && !Refuses(old(slots)[TokenSlot(token) / 3], token, result))
      ensures Attended(old(slots), old(ready.queue)) ==> Attended(slots, ready.queue)
      ensures Joined(old(ready.queue), ready.queue) && |kernel| == |old(kernel)| - 1
      ensures WindsAll(old(slots), slots, 1) && Steady(old(slots), slots)
    {
      ConsumedHolds(slots, kernel, ready.queue, token, result, buffer);
      hide AllSlots, KernelInv, Attended, Steady, WindsAll, LosesNothing, Ended, Refuses, SlotMachineInv, Joined;
      hide Distinct;
      var slot := slots[TokenSlot(token) / 3];
      Settle(token, Ended(slot, token, result, buffer), Refuses(slot, token, result));
    }

    /** The kernel's debt for the token is paid, the slot it names moves on and gets a pass. */
    method Settle(token: U64, next: Slot, refuses: bool)
      requires Owns() && token in kernel && TokenSlot(token) / 3 < links
      requires var now := slots[TokenSlot(token) / 3 := next];
               AllSlots(now) && KernelInv(now, kernel - {token}) && |kernel - {token}| == |kernel| - 1
      modifies `slots, `pending, `hints, `kernel, ready, ready.entries, ready.present
      ensures Owns() && slots == old(slots)[TokenSlot(token) / 3 := next] && kernel == old(kernel) - {token}
      ensures hints == (old(hints) && !refuses) && ready.queue == Enqueued(old(ready.queue), TokenSlot(token) / 3)
    {
      hide AllSlots, KernelInv, Distinct;
      pending := pending - 1;
      slots := slots[TokenSlot(token) / 3 := next];
      if refuses {
        hints := false;
      }
      kernel := kernel - {token};
      ready.Push(TokenSlot(token) / 3);
    }

    /** Queues a cancellation; the reserved entry keeps one free while transfers wait. */
    method CancelLane(index: nat, lane: Lane) returns (attempt: Attempt)
      requires Owns() && index < links
      modifies `slots, `queued, `pending, `kernel
      ensures Owns() && slots == old(slots)[index := slots[index]]
      ensures attempt == if !Cancelling(old(slots)[index], lane) then Passed
                         else if old(queued) >= entries then Blocked else Took(0)
      ensures attempt.Took? ==> slots[index] == CancelSent(old(slots)[index], lane) && queued == old(queued) + 1
      ensures attempt.Took? ==> |kernel| == |old(kernel)| + 1 && old(kernel) <= kernel
      ensures !attempt.Took? ==> slots == old(slots) && queued == old(queued) && kernel == old(kernel)
    {
      hide SlotInv, KernelInv;
      var slot := slots[index];
      assert SlotInv(slot, index);
      if !Cancelling(slot, lane) {
        return Passed;
      }
      if queued >= entries {
        return Blocked;
      }
      CancelSentHolds(slot, index, lane);
      CancelSentOwes(slot, lane);
      ghost var token := CancelToken(slot, index, lane);
      KernelGains(slots, index, CancelSent(slot, lane), kernel, lane, slot.operations.Get(lane).id.generation, true);
      queued, pending := queued + 1, pending + 1;
      slots := slots[index := CancelSent(slot, lane)];
      kernel := kernel + {token};
      return Took(0);
    }

    /** Queues the lane's transfer once the reservation's authority lets it in. */
    method SubmitLane(index: nat, lane: Lane, bytesLeft: nat, deferred: bool, access: Access) returns (attempt: Attempt)
      requires Owns() && index < links && Submittable(slots[index], lane)
      modifies `slots, `queued, `pending, `kernel
      ensures Owns() && slots == old(slots)[index := slots[index]]
      ensures attempt.Blocked? <==> bytesLeft == 0 || old(queued) + 1 >= entries
      ensures attempt.Took? ==> 0 < attempt.length <= bytesLeft && queued == old(queued) + 1
      ensures attempt.Took? ==> |kernel| == |old(kernel)| + 1 && old(kernel) <= kernel
      ensures !attempt.Took? ==> queued == old(queued) && kernel == old(kernel)
      ensures attempt.Blocked? ==> slots == old(slots)
      ensures !attempt.Blocked? ==> (attempt.Took? <==> access.Entered?)
      ensures !ShutSlot(old(slots)[index])
      ensures !attempt.Blocked? ==> slots[index] == Granted(old(slots)[index], lane, deferred, hints, access)
      ensures attempt.Passed? ==> TurnedDown(old(slots)[index], slots[index], deferred, access)
      ensures attempt.Took? && deferred ==> slots[index].work.notify
      ensures attempt.Took? ==>
                attempt.length == Min(EffectOf(old(slots)[index].protocol.value, lane).value.length, bytesLeft)
    {
      hide SlotInv, KernelInv;
      var slot := slots[index];
      assert SlotInv(slot, index);
      if bytesLeft == 0 || queued + 1 >= entries {
        return Blocked;
      }
      SubmittableIsOpen(slot, index, lane);
      var marked := Marked(slot, deferred);
      MarkedHolds(slot, marked, index);
      GrantedHolds(slot, index, lane, deferred, hints, access);
      GrantedDown(slot, lane, deferred, hints, access);
      hide TurnedDown;
      hide Sent, Hint, EffectOf, Granted, Marked, SameOwed, Submittable;
      Update(index, marked);
      if access.Entered? {
        attempt := SendLane(index, lane, bytesLeft);
      } else {
        Update(index, Granted(slot, lane, deferred, hints, access));
        attempt := Passed;
      }
    }

    /** Prepares an id, fills the queue entry and tells the protocol it was accepted. */
    method SendLane(index: nat, lane: Lane, bytesLeft: nat) returns (attempt: Attempt)
      requires Owns() && index < links && Submittable(slots[index], lane)
      requires 0 < bytesLeft && queued + 1 < entries
      modifies `slots, `queued, `pending, `kernel
      ensures Owns() && attempt.Took? && queued == old(queued) + 1
      ensures 0 < attempt.length <= bytesLeft
      ensures |kernel| == |old(kernel)| + 1 && old(kernel) <= kernel
      ensures slots == old(slots)[index := Sent(old(slots)[index], lane, Hint(old(slots)[index], lane, hints))]
      ensures attempt.length == Min(EffectOf(old(slots)[index].protocol.value, lane).value.length, bytesLeft)
    {
      hide SlotInv, KernelInv;
      var slot := slots[index];
      assert SlotInv(slot, index);
      SubmittableIsOpen(slot, index, lane);
      var effect := EffectOf(slot.protocol.value, lane).value;
      EffectFitsBuffer(slot.protocol.value, lane);
      var length := Min(effect.length, bytesLeft);
      var hint := Hint(slot, lane, hints);
      SentHolds(slot, index, lane, hint);
      SentOwes(slot, index, lane, hint);
      ghost var id := PreparedOp(slot.operations.Get(lane)).id;
      TokenWord(index, lane);
      ghost var token := Token(OpId(OpSlot(index, lane), id.generation), false);
      KernelGains(slots, index, Sent(slot, lane, hint), kernel, lane, id.generation, false);
      queued, pending := queued + 1, pending + 1;
      slots := slots[index := Sent(slot, lane, hint)];
      kernel := kernel + {token};
      return Took(length);
    }

    /** One link's turn in a round: at most one request, then back into the ring if
        anything is still pending. */
    method Visit(index: nat, bytesLeft: nat, deferred: bool) returns (attempt: Attempt)
      requires Owns() && index < links && index !in ready.queue
      requires AttendedBut(slots, ready.queue, index)
      modifies `slots, `queued, `pending, `kernel, ready, ready.entries, ready.present
      ensures Valid() && slots == old(slots)[index := slots[index]]
      ensures ready.queue == old(ready.queue) || ready.queue == old(ready.queue) + [index]
      ensures attempt.Took? ==> attempt.length <= bytesLeft && queued == old(queued) + 1
      ensures !attempt.Took? ==> queued == old(queued)
      ensures attempt.Blocked? ==> Denied(slots[index], bytesLeft, queued, entries) && index in ready.queue
      ensures 0 < bytesLeft && old(queued) + 1 < entries ==> !attempt.Blocked?
      ensures Denied(old(slots)[index], bytesLeft, old(queued), entries) ==>
                slots == old(slots) && ready.queue == old(ready.queue) + [index]
      ensures Winds(old(slots)[index], slots[index], if attempt.Took? then 1 else 0)
      ensures attempt.Took? && ShutSlot(old(slots)[index]) ==> attempt.length == 0
      ensures Genuine(Event(index, old(slots)[index], slots[index], attempt), deferred, hints)
      ensures old(kernel) <= kernel && |kernel| == |old(kernel)| + if attempt.Took? then 1 else 0
    {
      hide SlotInv, KernelInv, Refresh, PendingLane, NeedsPass, Winds, TookFirst, Genuine, PassedBy, SameMarks, Asked;
      hide TurnedAway, Repelled, Unasked;
      ghost var was := slots[index];
      RefreshSlot(index);
      RefreshWinds(was);
      ghost var fair := slots[index];
      RefreshKeepsShut(was);
      attempt := TakeTurn(index, bytesLeft, deferred);
      ghost var steps := if attempt.Took? then 1 else 0;
      WindsOn(was, fair, slots[index], 0, steps);
      RefreshWinds(slots[index]);
      WindsOn(was, slots[index], Refresh(slots[index]), steps, 0);
      GenuineVisit(index, was, slots[index], attempt, bytesLeft, old(queued), entries, deferred, hints);
      RefreshSlot(index);
      if PendingLane(slots[index]).Some? {
        ready.Push(index);
      }
    }

    /** Attempts the first pending lane, unless authority was contended this pass. */
    method TakeTurn(index: nat, bytesLeft: nat, deferred: bool) returns (attempt: Attempt)
      requires Owns() && index < links && Refresh(slots[index]) == slots[index]
      modifies `slots, `queued, `pending, `kernel
      ensures Owns() && slots == old(slots)[index := slots[index]]
      ensures attempt.Took? ==> attempt.length <= bytesLeft && queued == old(queued) + 1
      ensures !attempt.Took? ==> queued == old(queued)
      ensures attempt.Blocked? <==> Denied(old(slots)[index], bytesLeft, old(queued), entries)
      ensures attempt.Blocked? ==> slots == old(slots)
      ensures 0 < bytesLeft && old(queued) + 1 < entries ==> !attempt.Blocked?
      ensures Winds(old(slots)[index], slots[index], if attempt.Took? then 1 else 0)
      ensures attempt.Took? && ShutSlot(old(slots)[index]) ==> attempt.length == 0
      ensures attempt.Took? ==> TookFirst(old(slots)[index], slots[index], deferred, hints)
      ensures !attempt.Took? ==> SameMarks(old(slots)[index], slots[index])
      ensures attempt.Took? ==> Asked(old(slots)[index], attempt.length)
      ensures attempt.Passed? ==> PassedBy(old(slots)[index], slots[index])
      ensures attempt.Passed? && Unasked(old(slots)[index]) ==> slots == old(slots)
      ensures attempt.Passed? && !Unasked(old(slots)[index]) ==>
                exists access :: TurnedAway(old(slots)[index], access)
                                 && slots[index] == Repelled(old(slots)[index], access, deferred, hints)
      ensures old(kernel) <= kernel && |kernel| == |old(kernel)| + if attempt.Took? then 1 else 0
    {
      hide SlotInv, KernelInv, Refresh, PendingLane, Winds, Turned;
      var slot := slots[index];
      var lane := PendingLane(slot);
      PendingIs(slot);
      if slot.contended || lane.None? {
        MarkedWinds(slot, slot);
        return Passed;
      }
      ghost var access;
      attempt, access := Enter(index, lane.value, bytesLeft, deferred);
      if attempt.Passed? { assert TurnedAway(slot, access) && slots[index] == Repelled(slot, access, deferred, hints); }
    }

    /** Queues the lane's cancellation or transfer and moves the turn marker past it. */
    method Enter(index: nat, lane: Lane, bytesLeft: nat, deferred: bool)
      returns (attempt: Attempt, ghost answer: Access)
      requires Owns() && index < links && slots[index].protocol.Some? && Inv(slots[index].protocol.value)
      requires Cancelling(slots[index], lane) || Submittable(slots[index], lane)
      modifies `slots, `queued, `pending, `kernel
      ensures Owns() && slots == old(slots)[index := slots[index]]
      ensures attempt.Took? ==> attempt.length <= bytesLeft
      ensures queued == old(queued) + if attempt.Took? then 1 else 0
      ensures attempt.Blocked? <==> if Cancelling(old(slots)[index], lane) then old(queued) >= entries
                                    else bytesLeft == 0 || old(queued) + 1 >= entries
      ensures attempt.Blocked? ==> slots == old(slots)
      ensures Winds(old(slots)[index], slots[index], if attempt.Took? then 1 else 0)
      ensures attempt.Took? && ShutSlot(old(slots)[index]) ==> attempt.length == 0
      ensures attempt.Took? ==> slots[index] == Turned(old(slots)[index], lane, deferred, hints)
      ensures !attempt.Took? ==> SameMarks(old(slots)[index], slots[index])
      ensures attempt.Passed? ==> slots[index].contended || (IsOpen(old(slots)[index]) && IsClosed(slots[index]))
      ensures attempt.Took? ==>
                if Cancelling(old(slots)[index], lane) then attempt.length == 0
                else 0 < attempt.length <= EffectOf(old(slots)[index].protocol.value, lane).value.length
      ensures attempt.Passed? ==>
                && !answer.Entered? && Submittable(old(slots)[index], lane)
                && slots[index] == Granted(old(slots)[index], lane, deferred, hints, answer)
      ensures old(kernel) <= kernel && |kernel| == |old(kernel)| + if attempt.Took? then 1 else 0
    {
      hide SlotInv, KernelInv, Winds, Sent, CancelSent, Inv, Granted, SameMarks;
      SlotIsOwned(index);
      var slot := slots[index];
      MarkedWinds(slot, slot);
      if Cancelling(slot, lane) {
        RequestedWinds(slot, index, lane);
        answer := Entered;
        attempt := CancelLane(index, lane);
      } else {
        var access: Access := *;
        answer := access;
        attempt := SubmitLane(index, lane, bytesLeft, deferred, access);
        SlotMachine(slot, index);
        if !access.Entered? { GrantedMarks(slot, index, lane, deferred, hints, access); }
        ShutOnly(slot, slots[index], if attempt.Took? then 1 else 0);
      }
      if attempt.Took? {
        ghost var sent := slots[index];
        MarkTurn(index, lane);
        WindsOn(slot, sent, slots[index], 1, 0);
      }
    }

    lemma SlotIsOwned(index: nat)
      requires Owns() && index < links
      ensures SlotInv(slots[index], index) && SameMarks(slots[index], slots[index])
    {
      hide SlotInv;
    }

    method MarkTurn(index: nat, lane: Lane)
      requires Owns() && index < links
      modifies `slots
      ensures Owns()
      ensures slots == old(slots)[index := old(slots)[index].(nextLane := LaneAt(LaneNumber(lane) + 1))]
      ensures Winds(old(slots)[index], slots[index], 0)
    {
      hide SlotInv, KernelInv, Winds;
      var turned := slots[index].(nextLane := LaneAt(LaneNumber(lane) + 1));
      assert SlotInv(slots[index], index);
      MarkedWinds(slots[index], turned);
      MarkedHolds(slots[index], turned, index);
      Update(index, turned);
    }

    /** A pass under way keeps within its limits, and the first denied link denied. */
    ghost predicate Touring(tour: Tour, blocked: Option<nat>, used: nat, budget: Budget)
      reads this, ready, ready.entries, ready.present
    {
      && TourInv(tour, ready.queue) && used <= budget.bytes
      && (blocked.Some? <==> tour.denied.Some?)
      && (blocked.Some? ==>
            && tour.start[tour.denied.value] == blocked.value < |slots|
            && Denied(slots[blocked.value], budget.bytes - used, queued, entries))
    }

    lemma TouringStarts(budget: Budget)
      requires Valid()
      ensures Touring(StartTour(ready.queue), None, 0, budget) && Opened(StartTour(ready.queue))
      ensures Reaches(StartTour(ready.queue), {})
    {
      hide TourInv, Opened, Reaches, AllSlots, KernelInv, Attended;
      StartTourHolds(ready.queue);
    }

    lemma TouringLength(tour: Tour, blocked: Option<nat>, used: nat, budget: Budget)
      requires Touring(tour, blocked, used, budget)
      ensures |ready.queue| == |tour.ahead| + |tour.behind| && TourInv(tour, ready.queue) && used <= budget.bytes
    {
      hide TourInv, Denied;
      TourLength(tour, ready.queue);
    }

    lemma TouringNext(tour: Tour, blocked: Option<nat>, used: nat, budget: Budget)
      requires Touring(tour, blocked, used, budget) && tour.ahead == []
      ensures TourInv(tour, ready.queue) && Touring(NextRound(tour), blocked, used, budget)
      ensures Opened(tour) ==> Opened(NextRound(tour))
    {
      hide TourInv, Denied, Opened;
      NextRoundHolds(tour, ready.queue);
    }

    lemma TouringEnds(tour: Tour, blocked: Option<nat>, used: nat, budget: Budget)
      requires Touring(tour, blocked, used, budget) && Attended(slots, ready.queue)
      ensures used <= budget.bytes && (blocked.Some? ==> blocked.value < |slots|)
      ensures Attended(slots, if blocked.Some? then Rotated(ready.queue, blocked.value) else ready.queue)
      ensures Opened(tour) && (tour.first ==> tour.cut > 0) ==>
                Fair(Pass(tour.start, if blocked.Some? then Rotated(ready.queue, blocked.value) else ready.queue,
                          tour.served))
    {
      hide TourInv, Denied, Opened, Fair, Attended, Rotated;
      TourLength(tour, ready.queue);
      if blocked.Some? { AttendedTurned(slots, ready.queue, blocked.value); }
      if Opened(tour) && (tour.first ==> tour.cut > 0) { TourIsFair(tour, ready.queue); }
    }

    /** The next link in the ring takes its turn. */
    method Turn(ghost tour: Tour, ghost blocked: Option<nat>, used: nat, budget: Budget, deferred: bool)
      returns (attempt: Attempt, index: nat, ghost after: Tour, ghost event: Event)
      requires Valid() && Touring(tour, blocked, used, budget) && tour.ahead != []
      modifies `slots, `queued, `pending, `kernel, ready, ready.entries, ready.present
      ensures Valid() && (attempt.Took? ==> used + attempt.length <= budget.bytes)
      ensures Touring(after, if attempt.Blocked? && blocked.None? then Some(index) else blocked,
                      used + (if attempt.Took? then attempt.length else 0), budget)
      ensures queued == old(queued) + if attempt.Took? then 1 else 0
      ensures index < links && event == Event(index, old(slots)[index], slots[index], attempt)
      ensures Genuine(event, deferred, hints) && slots == old(slots)[index := slots[index]]
      ensures tour.ahead[0] < |tour.start| && index == tour.start[tour.ahead[0]]
      ensures exists put :: after == Visited(tour, put, attempt.Blocked?)
      ensures Opened(tour) && !(attempt.Blocked? && tour.first && tour.cut == 0) ==> Opened(after)
      ensures used < budget.bytes && old(queued) + 1 < entries ==> !attempt.Blocked?
      ensures WindsAll(old(slots), slots, if attempt.Took? then 1 else 0)
      ensures old(kernel) <= kernel && |kernel| == |old(kernel)| + if attempt.Took? then 1 else 0
      ensures AllShut(old(slots)) && attempt.Took? ==> attempt.length == 0
    {
      hide WindsAll, Winds, ShutSlot, TookFirst, Genuine, PassedBy, Asked, TurnedAway, Repelled, Unasked, SameMarks;
      hide TourInv, Opened, Denied, AllSlots, KernelInv, NeedsPass, Refresh, PendingLane, InOrder, Distinct;
      ghost var queue := ready.queue;
      HeadRank(tour, queue);
      index := ready.Pop();
      attempt := Visit(index, budget.bytes - used, deferred);
      event := Event(index, old(slots)[index], slots[index], attempt);
      WindsAt(old(slots), index, slots[index], if attempt.Took? then 1 else 0);
      ghost var put := ready.queue != queue[1..];
      after := Visited(tour, put, attempt.Blocked?);
      VisitedHolds(tour, queue, put, attempt.Blocked?);
      if Opened(tour) && !(attempt.Blocked? && tour.first && tour.cut == 0) {
        VisitedOpens(tour, queue, put, attempt.Blocked?);
      }
      ghost var left := budget.bytes - used - if attempt.Took? then attempt.length else 0;
      if blocked.Some? {
        DeniedStays(slots[blocked.value], budget.bytes - used, left, old(queued), queued, entries);
      } else if attempt.Blocked? {
        DeniedStays(slots[index], budget.bytes - used, left, queued, queued, entries);
      }
    }

    /** Up to three rounds, one request a link each, then the first denied link is put
        in front. */
    method Rounds(budget: Budget, deferred: bool) returns (submissions: nat, used: nat, ghost trace: seq<Event>)
      requires Valid() && budget.submissions > 0 && budget.bytes > 0
      modifies `slots, `queued, `pending, `kernel, ready, ready.entries, ready.present
      ensures Valid() && submissions <= budget.submissions && used <= budget.bytes
      ensures queued == old(queued) + submissions
      ensures TraceOf(trace, old(slots), slots, deferred, hints) && submissions == Entries(trace)
      ensures old(queued) == 0 ==> Fair(Pass(old(ready.queue), ready.queue, Served(trace)))
      ensures submissions < budget.submissions ==> forall x :: x in old(ready.queue) ==> x in Reached(trace)
      ensures WindsAll(old(slots), slots, submissions) && (AllShut(old(slots)) ==> used == 0)
      ensures old(kernel) <= kernel && |kernel| == |old(kernel)| + submissions
    {
      hide WindsAll, AllShut, TourInv, Opened, Denied, AllSlots, KernelInv, NeedsPass, Fair, Rotated, Distinct;
      hide Attended;
      hide TraceOf, Genuine, Served, Reached, Entries, Reaches, Recounts, Touring;
      submissions, used, trace := 0, 0, [];
      var blocked: Option<nat> := None;
      ghost var tour := StartTour(ready.queue);
      TouringStarts(budget);
      NothingRecounted(slots, kernel, tour, deferred, hints);
      label rounds:
      for round := 0 to 3
        invariant Valid() && Touring(tour, blocked, used, budget) && (old(queued) == 0 ==> Opened(tour))
        invariant submissions <= budget.submissions && queued == old(queued) + submissions
        invariant tour.start == old(ready.queue) && tour.behind == [] && tour.first == (round == 0)
        invariant tour.first ==> submissions == 0 && used == 0
        invariant Recounts(trace, old(slots), old(kernel), slots, kernel, tour, submissions, used, deferred, hints)
      {
        var (waiting, before) := (ready.len, submissions);
        TouringLength(tour, blocked, used, budget);
        for turn := 0 to waiting
          invariant Valid() && Touring(tour, blocked, used, budget) && (old(queued) == 0 ==> Opened(tour))
          invariant submissions <= budget.submissions && queued == old(queued) + submissions
          invariant tour.start == old(ready.queue) && |tour.ahead| == waiting - turn && tour.first == (round == 0)
          invariant tour.first && turn == 0 ==> submissions == 0 && used == 0
          invariant tour.first && turn > 0 ==> tour.cut > 0
          invariant Recounts(trace, old(slots), old(kernel), slots, kernel, tour, submissions, used, deferred, hints)
        {
          if submissions == budget.submissions {
            break rounds;
          }
          ghost var (was, owed, on, queue) := (slots, kernel, tour, ready.queue);
          TouringLength(tour, blocked, used, budget);
          var attempt, index;
          ghost var event;
          attempt, index, tour, event := Turn(tour, blocked, used, budget, deferred);
          RecountsOn(trace, old(slots), old(kernel), was, owed, slots, kernel, on, queue, tour, event,
                     submissions, used, deferred, hints);
          trace := trace + [event];
          match attempt {
            case Took(length) => submissions, used := submissions + 1, used + length;
            case Blocked => if blocked.None? { blocked := Some(index); }
            case Passed =>
          }
        }
        TouringNext(tour, blocked, used, budget);
        RecountsRound(trace, old(slots), old(kernel), slots, kernel, tour, ready.queue, submissions, used, deferred,
                      hints);
        tour := NextRound(tour);
        if submissions == before {
          break;
        }
      }
      TouringEnds(tour, blocked, used, budget);
      Recounted(trace, old(slots), old(kernel), slots, kernel, tour, submissions, used, deferred, hints);
      if blocked.Some? {
        ready.Prioritize(blocked.value);
      }
    }

    /** Looks for revoked authority and clears every contention mark. */
    method ScanAuthority(revoked: set<nat>)
      requires Valid()
      modifies `slots, ready, ready.entries, ready.present
      ensures Valid() && Joined(old(ready.queue), ready.queue) && WindsAll(old(slots), slots, 0)
      ensures forall i :: 0 <= i < links ==>
                SlotMachineInv(old(slots)[i]) && slots[i] == Scanned(old(slots)[i], i in revoked) && !slots[i].contended
      ensures forall i :: 0 <= i < links && IsOpen(old(slots)[i]) && i in revoked ==> ClosedFor(slots[i], Error.Revoked)
    {
      WindsStill(slots);
      SlotMachines(slots);
      assert Joined(ready.queue, ready.queue);
      forall i | 0 <= i < links && IsOpen(slots[i]) ensures ClosedFor(Scanned(slots[i], true), Error.Revoked) {
        ScannedFor(slots[i]);
      }
      hide ClosedFor;
      hide AllSlots, KernelInv, Attended, WindsAll, Joined, Distinct, Scanned, SlotMachineInv;
      for index := 0 to links
        invariant Valid() && Joined(old(ready.queue), ready.queue) && WindsAll(old(slots), slots, 0)
        invariant forall i :: 0 <= i < index ==> slots[i] == Scanned(old(slots)[i], i in revoked) && !slots[i].contended
        invariant forall i :: index <= i < links ==> slots[i] == old(slots)[i]
      {
        ghost var (was, queue) := (slots, ready.queue);
        ScanLink(index, index in revoked);
        WindsAllOn(old(slots), was, slots, 0, 0);
        JoinedOn(old(ready.queue), queue, ready.queue);
      }
    }

    method ScanLink(index: nat, revoked: bool)
      requires Valid() && index < links && SlotMachineInv(slots[index])
      modifies `slots, ready, ready.entries, ready.present
      ensures Valid() && Joined(old(ready.queue), ready.queue) && WindsAll(old(slots), slots, 0)
      ensures slots == old(slots)[index := Scanned(old(slots)[index], revoked)] && !slots[index].contended
    {
      hide SlotInv, KernelInv, NeedsPass, Winds, WindsAll, Shut;
      assert SlotInv(slots[index], index);
      ghost var was := slots;
      var slot := slots[index].(contended := false);
      MarkedHolds(slots[index], slot, index);
      UncontendedNeeds(slots[index], slot);
      MarkedWinds(slots[index], slot);
      WindsAt(was, index, slot, 0);
      Update(index, slot);
      if revoked && slot.protocol.Some? && IsOpen(slot) {
        SlotMachine(slot, index);
        ShutHolds(slot, index, Revoke);
        ShutOwesSame(slot, Revoke);
        ShutKeepsMarks(slot, Revoke);
        ShutOnly(was[index], Shut(slot, Revoke), 0);
        WindsAt(was, index, Shut(slot, Revoke), 0);
        Update(index, Shut(slot, Revoke));
        assert slots == was[index := Shut(slot, Revoke)];
        ready.Push(index);
      }
    }

    method Take(cqe: Cqe)
      requires Valid() && cqe.token in kernel
      modifies `slots, `pending, `hints, `kernel, ready, ready.entries, ready.present
      ensures Valid() && kernel == old(kernel) - {cqe.token} && pending == old(pending) - 1
      ensures Answered(old(slots), old(ready.queue), slots, ready.queue, [cqe])
      ensures hints == (old(hints) && !RefusesAt(old(slots), cqe))
    {
      ghost var was := slots;
      OwedMachine(slots, kernel, cqe.token);
      OneEnd(slots, cqe);
      hide SlotInv, KernelInv, Ended, WindsAll, NeedsPass, AllSlots, Attended, Steady, Ends;
      Consume(cqe.token, cqe.result, cqe.buffer);
      assert slots == EndOne(was, cqe);
    }

    /** Consumes at most the budget's worth of the completion queue. */
    method Reap(budget: Budget, cqes: seq<Cqe>) returns (completed: nat)
      requires Valid() && Delivered(kernel, cqes)
      modifies `slots, `pending, `hints, `kernel, ready, ready.entries, ready.present
      ensures Valid() && completed == Min(|cqes|, budget.completions)
      ensures kernel == Unreaped(old(kernel), cqes, completed) && pending == old(pending) - completed
      ensures Answered(old(slots), old(ready.queue), slots, ready.queue, cqes[..completed])
      ensures hints == HintsLeft(old(slots), cqes[..completed], old(hints))
    {
      hide Valid, Unreaped, Delivered, Taken, Answered, RefusesAt, HintsLeft;
      TakenNothing(slots, ready.queue, hints);
      AnswersFit(cqes);
      completed := 0;
      assert cqes[..0] == [];
      while completed < Min(budget.completions, completionEntries) && completed < |cqes|
        invariant Valid() && completed <= Min(|cqes|, budget.completions)
        invariant kernel == Unreaped(old(kernel), cqes, completed) && pending == old(pending) - completed
        invariant Taken(old(slots), old(ready.queue), old(hints), slots, ready.queue, hints, cqes[..completed])
      {
        ghost var (was, queue, hinted) := (slots, ready.queue, hints);
        var cqe := cqes[completed];
        NextToken(old(kernel), cqes, completed);
        Take(cqe);
        TakenOn(old(slots), old(ready.queue), old(hints), was, queue, hinted, slots, ready.queue, hints, cqes,
                completed);
        completed := completed + 1;
      }
      TakenMeans(old(slots), old(ready.queue), old(hints), slots, ready.queue, hints, cqes[..completed]);
    }

    lemma AnswersFit(cqes: seq<Cqe>)
      requires Valid() && Delivered(kernel, cqes)
      ensures |cqes| <= completionEntries && Unreaped(kernel, cqes, 0) == kernel
    {
      hide SlotInv, KernelInv, AllSlots, Attended, Delivered;
      QueueFits(slots, kernel, cqes);
    }

    /** The work of a pass before the submission queue is offered to the kernel. */
    method PassOver(budget: Budget, deferred: bool, cqes: seq<Cqe>)
      returns (completed: nat, submissions: nat, bytes: nat, ghost t: Turnover)
      requires Valid() && Delivered(kernel, cqes) && budget.submissions > 0 && budget.bytes > 0
      modifies `slots, `queued, `pending, `hints, `kernel, ready, ready.entries, ready.present
      ensures Valid() && PassOf(old(Snapshot()), budget, deferred, cqes, t, Snapshot())
      ensures completed == |t.cqes| && submissions == Entries(t.trace) <= budget.submissions && bytes <= budget.bytes
      ensures AllShut(old(slots)) ==> bytes == 0
    {
      hide SlotInv, AllSlots, NeedsPass, WindsAll, AllShut, Distinct, Fair, KernelInv, Unreaped, Joined;
      hide TraceOf, Served, Reached, Attended, Entries, Steady, Rested, Answered, Begins, Ends, PassOf;
      ghost var was := Snapshot();
      completed := Reap(budget, cqes);
      ghost var (reaped, queue, taken) := (slots, ready.queue, cqes[..completed]);
      AnsweredMeans(was.slots, was.queue, reaped, queue, taken);
      UnreapedIs(was.kernel, cqes, completed);
      var revoked: set<nat> := *;
      ScanAuthority(revoked);
      ghost var (start, scanned) := (ready.queue, slots);
      JoinedOn(was.queue, queue, start);
      ScannedAll(reaped, scanned, revoked);
      BeginsWith(was.slots, taken, revoked, scanned);
      SteadyOn(was.slots, reaped, scanned);
      WindsAllOn(was.slots, reaped, scanned, completed, 0);
      WindsShut(was.slots, scanned, completed);
      ghost var trace;
      submissions, bytes, trace := Rounds(budget, deferred);
      WindsAllOn(was.slots, scanned, slots, completed, submissions);
      if was.queued == 0 {
        FairPrefix(was.queue, start, ready.queue, Served(trace));
      }
      JoinedHolds(was.queue, start);
      t := Turnover(Pass(was.queue, ready.queue, Served(trace)), was.queued == 0, was.slots, taken, revoked, scanned,
                    trace, slots, deferred, hints);
      PassMade(was, budget, deferred, cqes, t, Snapshot(), submissions);
    }

    /** One budgeted I/O pass: consume completions, look for revoked authority, attempt
        up to three rounds of requests, then offer the submission queue to the kernel. */
    method AdvanceWith(budget: Budget, deferred: bool, cqes: seq<Cqe>)
      returns (outcome: Outcome, ghost t: Turnover)
      requires Valid() && Delivered(kernel, cqes)
      modifies `slots, `queued, `pending, `hints, `kernel, ready, ready.entries, ready.present
      ensures Valid()
      ensures outcome.InvalidInput? <==> budget.completions == 0 || budget.submissions == 0 || budget.bytes == 0
      ensures outcome.InvalidInput? ==> Snapshot() == old(Snapshot())
      ensures !outcome.InvalidInput? ==> PassOf(old(Snapshot()), budget, deferred, cqes, t, Snapshot())
      ensures outcome.Advanced? ==>
                && outcome.completions == Min(|cqes|, budget.completions)
                && outcome.submissions == Entries(t.trace) <= budget.submissions && outcome.bytes <= budget.bytes
                && |kernel| == |old(kernel)| - outcome.completions + outcome.submissions
                && (AllShut(old(slots)) ==> outcome.bytes == 0)
      ensures !outcome.InvalidInput? ==>
                WindsAll(old(slots), slots, Min(|cqes|, budget.completions) + Entries(t.trace))
      ensures AllShut(old(slots)) ==> NoNewTransfers(old(kernel), kernel)
      ensures !outcome.InvalidInput? && old(kernel) == {} && AllDone(old(slots)) ==>
                (AllDone(slots) <==> forall i :: 0 <= i < links ==> !Abandoned(old(slots)[i]))
    {
      hide SlotInv, AllSlots, NeedsPass, WindsAll, AllShut, Distinct, KernelInv, PassOf, AllDone, Abandoned, Sound;
      hide Entries;
      t := *;
      if budget.completions == 0 || budget.submissions == 0 || budget.bytes == 0 {
        return InvalidInput, t;
      }
      ghost var was := Snapshot();
      SnapshotSound();
      DeliveredCount(was.kernel, cqes);
      var completed, submissions, bytes;
      completed, submissions, bytes, t := PassOver(budget, deferred, cqes);
      ghost var now := Snapshot();
      PassMeans(was, budget, deferred, cqes, t, now);
      if AllShut(was.slots) {
        NoNewTransfer(was.slots, slots, was.kernel, kernel, completed + submissions);
      }
      if was.kernel == {} && AllDone(was.slots) {
        PassCompletes(was, budget, deferred, t, now);
      }
      var failed := Flush();
      PassFlushed(was, budget, deferred, cqes, t, now, queued);
      return if failed then SubmitFailed else Advanced(completed, submissions, bytes), t;
    }

    /** One call of the host or an owner; one that names no live link does nothing, and of the
        completions offered a pass consumes those the kernel can have reported. */
    method Perform(call: Call) returns (ghost report: Report)
      requires Valid()
      modifies `admitting, `slots, `queued, `pending, `hints, `cursor, `kernel, ready, ready.entries, ready.present
      ensures Valid() && StepOf(old(Snapshot()), call, report, Snapshot())
    {
      hide SlotInv, AllSlots, KernelInv, Attended, Distinct, Joined, Dispatched, TurnOf, WindsAll, PassOf, AllDone;
      hide AllShut;
      hide Given, Received, Looked, Concluded, DispatchedFrom, Recorded, Wrapped, Unreaped, NoNewTransfers;
      ghost var was := Snapshot();
      report := Quiet;
      match call {
        case Attach(contract, direction, refused) =>
          var attached := Attach(contract, direction, refused);
          AttachStep(was, contract, direction, refused, attached, Snapshot());
        case Export(index, contract, sequence, coded, revoked) =>
          if index < links && slots[index].alive {
            var error := ExportStep(index, contract, sequence, coded, revoked);
          }
        case Import(index, lost) =>
          if index < links && slots[index].alive {
            var error := ImportStep(index, lost);
          }
        case Look(index, poll, revoked, anew) =>
          if index < links && slots[index].alive {
            var polled := PollStep(index, poll, revoked, anew);
          }
        case Drop(index) =>
          if index < links && slots[index].alive {
            DropHandle(index);
          }
        case Stop => CancelAll();
        case Dispatch(records) =>
          var dispatched, steps := DispatchWithBudget(records);
          report := Dispatches(dispatched, steps);
        case Advance(budget, deferred, cqes) =>
          AnswersDelivered(slots, kernel, cqes);
          var outcome;
          ghost var t;
          outcome, t := AdvanceWith(budget, deferred, Answers(slots, cqes));
          if IsPass(call) { report := MadePass(t); }
      }
    }

    /** Any sequence of calls on the driver is a run of the calls' relation. */
    method Serve(calls: seq<Call>) returns (ghost states: seq<View>, ghost reports: seq<Report>)
      requires Valid()
      modifies `admitting, `slots, `queued, `pending, `hints, `cursor, `kernel, ready, ready.entries, ready.present
      ensures Valid() && Runs(states, calls, reports)
      ensures states[0] == old(Snapshot()) && states[|calls|] == Snapshot()
      ensures RunOf(Turnovers(reports), links) && |Turnovers(reports)| == PassCount(calls)
      ensures !old(admitting) && AllShut(old(slots)) ==>
                && !admitting && AllShut(slots) && NoNewTransfers(old(kernel), kernel)
                && Total(reports, |calls|) + Debt(slots) <= Debt(old(slots)) + 2 * DropCount(states, calls, |calls|)
      ensures ShutDown(old(Snapshot())) ==>
                ((forall i :: 0 <= i <= |calls| ==> ShutDown(states[i]))
                 <==> forall i :: 0 <= i < |calls| && Sweeps(calls[i]) ==> !AnyAbandoned(states[i].slots))
    {
      hide Valid, Sound, StepOf, Runs, ShutDown, Sweeps, AnyAbandoned, Debt, RunOf, AllShut, NoNewTransfers;
      states, reports := [Snapshot()], [];
      SnapshotSound();
      assert calls[..0] == [];
      NoCalls(Snapshot());
      for i := 0 to |calls|
        invariant Valid() && Runs(states, calls[..i], reports)
        invariant |states| == i + 1 && states[0] == old(Snapshot()) && states[i] == Snapshot()
      {
        ghost var report := Perform(calls[i]);
        SnapshotSound();
        RunsOn(states, calls, reports, i, report, Snapshot());
        states, reports := states + [Snapshot()], reports + [report];
      }
      assert calls[..|calls|] == calls;
      TableSize();
      PassesRun(states, calls, reports);
      if Stopped(states[0]) {
        StoppedRun(states, calls, reports, 0, |calls|);
        NoTransferEver(states, calls, reports, 0, 0, |calls|);
      }
      if ShutDown(states[0]) { CompleteRun(states, calls, reports, |calls|); }
    }

    lemma TableSize()
      requires Valid()
      ensures |slots| == links
    {
    }

    /** Offers the submission queue to the kernel, which takes some of it or fails. */
    method Flush() returns (failed: bool)
      modifies `queued
      ensures queued <= old(queued)
    {
      failed := *;
      var taken: nat :| taken <= queued;
      if !failed {
        queued := queued - taken;
      }
    }

    /** Attaches a link to the first empty slot whose generations are not used up. */
    method Attach(contract: Contract, direction: Direction, refused: Option<nat>) returns (attached: Attachment)
      requires Valid()
      modifies `slots, ready, ready.entries, ready.present
      ensures Valid()
      ensures attached.Rejected? ==> slots == old(slots) && ready.queue == old(ready.queue)
      ensures attached.Linked? ==>
                && var i := attached.index;
                && admitting && i < links && Free(old(slots)[i]) && (forall j :: 0 <= j < i ==> !Free(old(slots)[j]))
                && slots == old(slots)[i := Attached(old(slots)[i], contract, direction, bytes)]
                && attached.generation == slots[i].generation > old(slots)[i].generation
                && ready.queue == Enqueued(old(ready.queue), i)
                && slots[i].protocol == Some(Fresh(contract, direction, bytes)) && slots[i].resources && slots[i].alive
                && slots[i].generation == old(slots)[i].generation + 1
                && !slots[i].contended && slots[i].nextLane.Data? && AllAvailable(slots[i])
      ensures attached.Rejected? ==>
                attached.error == if !admitting then Error.Closed
                                  else if refused.Some? then Error.Topic(refused.value) else Error.Capacity
      ensures attached.Linked? <==> admitting && refused.None? && exists j :: 0 <= j < links && Free(old(slots)[j])
    {
      hide SlotInv, KernelInv, NeedsPass;
      if !admitting {
        return Rejected(Error.Closed);
      }
      if refused.Some? {
        return Rejected(Error.Topic(refused.value));
      }
      var index := 0;
      while index < links && !Free(slots[index])
        invariant index <= links && forall j :: 0 <= j < index ==> !Free(slots[j])
      {
        index := index + 1;
      }
      if index == links {
        return Rejected(Error.Capacity);
      }
      var slot := Attached(slots[index], contract, direction, bytes);
      assert SlotInv(slots[index], index);
      AttachedHolds(slots[index], index, contract, direction, bytes);
      AttachedOwesSame(slots[index], index, contract, direction, bytes);
      Update(index, slot);
      ready.Push(index);
      return Linked(index, slot.generation);
    }

    /** What every owner call checks first: closure, then revoked authority. */
    method CheckOpen(index: nat, revoked: bool) returns (error: Option<Error>)
      requires Owns() && index < links && slots[index].alive
      modifies `slots
      ensures Owns() && slots[index].alive && slots[index].protocol.Some?
      ensures error.None? <==> IsOpen(old(slots)[index]) && !revoked
      ensures SlotMachineInv(old(slots)[index]) && slots == old(slots)[index := Checked(old(slots)[index], revoked)]
      ensures SameMarks(old(slots)[index], slots[index])
      ensures error.Some? ==> slots[index].protocol.value.closed == error
      ensures error.Some? && IsOpen(old(slots)[index]) ==> error == Some(Error.Revoked)
    {
      hide SlotInv, KernelInv, Apply;
      var slot := slots[index];
      AliveMachine(slot, index);
      if IsOpen(slot) { RevokedInput(slot); }
      if IsClosed(slot) {
        return slot.protocol.value.closed;
      }
      if !revoked {
        return None;
      }
      InputHolds(slot, index, Revoke);
      Update(index, WithInput(slot, Revoke));
      return slots[index].protocol.value.closed;
    }

    /** The owner's frame is in the data buffer; `coded` is its length unless the codec or
        the buffer refused it, `revoked` what authority says before and after the codec. */
    method ProvideFrame(index: nat, contract: Contract, sequence: U64, coded: Coded, revoked: (bool, bool))
      returns (error: Option<Error>)
      requires Valid() && index < links && slots[index].alive
      modifies `slots, ready, ready.entries, ready.present
      ensures Owns() && AttendedBut(slots, ready.queue, index) && slots[index].alive
      ensures slots == old(slots)[index := slots[index]] && HasMachine(old(slots)[index])
      ensures Answer(slots[index], error) == Given(old(slots)[index], contract, sequence, coded, revoked)
      ensures error.None? <==>
                && var slot := old(slots)[index];
                && IsOpen(slot) && !revoked.0 && Inv(slot.protocol.value) && slot.protocol.value.contract == contract
                && EffectOf(slot.protocol.value, Data) == Some(Provide) && coded.Fits? && !revoked.1
                && Apply(slot.protocol.value, Provided(sequence, coded.length)).error.None?
      ensures error.None? ==>
                && slots[index] == WithInput(old(slots)[index], Provided(sequence, coded.length))
                && IsOpen(slots[index])
                && Attended(slots, ready.queue)
      ensures ready.queue == if error.None? then Enqueued(old(ready.queue), index) else old(ready.queue)
      ensures SameMarks(old(slots)[index], slots[index])
      ensures error.Some? && IsOpen(slots[index]) ==> slots == old(slots)
      ensures IsOpen(old(slots)[index]) && error.Some? ==>
                && (revoked.0 || error == Some(Error.Revoked) || error == Some(Protocol)
                    || (coded.Refused? && error == Some(coded.error)))
                && (revoked.0 ==> error == Some(Error.Revoked))
      ensures IsOpen(old(slots)[index]) && !revoked.0 && coded.Refused? ==>
                && (old(slots)[index].protocol.value.contract == contract
                    && EffectOf(old(slots)[index].protocol.value, Data) == Some(Provide)
                    ==> error == Some(coded.error))
    {
      hide SlotInv, KernelInv, Apply, NeedsPass, EffectOf;
      error := CheckOpen(index, revoked.0);
      if error.Some? {
        return;
      }
      var slot := slots[index];
      AliveMachine(slot, index);
      if slot.protocol.value.contract != contract || EffectOf(slot.protocol.value, Data) != Some(Provide) {
        return Some(Protocol);
      }
      if coded.Refused? {
        return Some(coded.error);
      }
      error := CheckOpen(index, revoked.1);
      if error.Some? {
        return;
      }
      error := Feed(index, Provided(sequence, coded.length));
    }

    /** The payload was admitted to the local endpoint. */
    method AdmittedFrame(index: nat, revoked: bool) returns (error: Option<Error>)
      requires Valid() && index < links && slots[index].alive
      modifies `slots, ready, ready.entries, ready.present
      ensures Owns() && AttendedBut(slots, ready.queue, index) && slots[index].alive
      ensures slots == old(slots)[index := slots[index]] && HasMachine(old(slots)[index])
      ensures Answer(slots[index], error) == Received(old(slots)[index], revoked)
      ensures error.None? <==>
                && var slot := old(slots)[index];
                && IsOpen(slot) && !revoked && Inv(slot.protocol.value)
                && Apply(slot.protocol.value, Input.Admitted).error.None?
      ensures error.None? ==>
                && slots[index] == WithInput(old(slots)[index], Input.Admitted) && IsOpen(slots[index])
                && Attended(slots, ready.queue)
      ensures ready.queue == if error.None? then Enqueued(old(ready.queue), index) else old(ready.queue)
      ensures SameMarks(old(slots)[index], slots[index])
    {
      hide SlotInv, KernelInv, Apply, NeedsPass, EffectOf;
      error := CheckOpen(index, revoked);
      if error.Some? {
        return;
      }
      error := Feed(index, Input.Admitted);
    }

    /** Feeds the machine one owner input; only an accepted one asks for a pass. */
    method Feed(index: nat, input: Input) returns (error: Option<Error>)
      requires Valid() && index < links && slots[index].alive && IsOpen(slots[index])
      requires input.Provided? || input.Admitted?
      modifies `slots, ready, ready.entries, ready.present
      ensures Owns() && AttendedBut(slots, ready.queue, index) && slots[index].alive
      ensures Inv(old(slots)[index].protocol.value)
      ensures slots == old(slots)[index := WithInput(old(slots)[index], input)]
      ensures error == Apply(old(slots)[index].protocol.value, input).error
      ensures error.None? <==> IsOpen(slots[index])
      ensures error in {None, Some(Protocol)}
      ensures ready.queue == if error.None? then Enqueued(old(ready.queue), index) else old(ready.queue)
      ensures SameMarks(old(slots)[index], slots[index])
    {
      hide SlotInv, KernelInv, NeedsPass;
      var slot := slots[index];
      AliveMachine(slot, index);
      OwnerInput(slot.protocol.value, input);
      hide Apply;
      error := Apply(slot.protocol.value, input).error;
      InputHolds(slot, index, input);
      Update(index, WithInput(slot, input));
      if error.None? {
        ready.Push(index);
      }
    }

    method CloseLink(index: nat, error: Error)
      requires Owns() && AttendedBut(slots, ready.queue, index) && index < links && slots[index].protocol.Some?
      modifies `slots, ready, ready.entries, ready.present
      ensures Valid() && Inv(old(slots)[index].protocol.value)
      ensures slots == old(slots)[index := Shut(old(slots)[index], Close(error)).(contended := false)]
      ensures IsClosed(slots[index]) && SameMarks(old(slots)[index], slots[index]) && !slots[index].contended
      ensures slots[index].protocol.value.closed
              == if IsClosed(old(slots)[index]) then old(slots)[index].protocol.value.closed else Some(error)
      ensures slots[index].work.wake == (old(slots)[index].work.wake || IsOpen(old(slots)[index]))
      ensures ready.queue == Enqueued(old(ready.queue), index)
    {
      hide SlotInv, KernelInv, NeedsPass, Shut;
      var slot := slots[index];
      assert SlotInv(slot, index);
      SlotMachine(slot, index);
      ShutHolds(slot, index, Close(error));
      ShutOwesSame(slot, Close(error));
      ShutKeepsMarks(slot, Close(error));
      ShutReason(slot, error);
      Update(index, Shut(slot, Close(error)));
      var marked := slots[index].(contended := false);
      MarkedHolds(slots[index], marked, index);
      Update(index, marked);
      ready.Push(index);
    }

    /** One turn of the export loop with a value in hand: a refusal closes the link. */
    method ExportStep(index: nat, contract: Contract, sequence: U64, coded: Coded, revoked: (bool, bool))
      returns (error: Option<Error>)
      requires Valid() && index < links && slots[index].alive
      modifies `slots, ready, ready.entries, ready.present
      ensures Valid() && HasMachine(old(slots)[index]) && ready.queue == Enqueued(old(ready.queue), index)
      ensures slots == old(slots)[index := slots[index]] && TurnOf(old(slots)[index], slots[index], error)
      ensures error.None? ==>
                coded.Fits? && slots[index] == WithInput(old(slots)[index], Provided(sequence, coded.length))
      ensures var answer := Given(old(slots)[index], contract, sequence, coded, revoked);
              HasMachine(answer.slot) && error == answer.error && slots[index] == Concluded(answer)
    {
      hide SlotInv, KernelInv, NeedsPass, Apply, EffectOf, TurnOf, Given;
      ghost var was := slots[index];
      error := ProvideFrame(index, contract, sequence, coded, revoked);
      GivenTurns(was, contract, sequence, coded, revoked);
      if error.Some? {
        AliveMachine(slots[index], index);
        ShutHolds(slots[index], index, Close(error.value));
        CloseLink(index, error.value);
      }
    }

    /** One turn of the import loop after local admission: a refusal closes the link. */
    method ImportStep(index: nat, revoked: bool) returns (error: Option<Error>)
      requires Valid() && index < links && slots[index].alive
      modifies `slots, ready, ready.entries, ready.present
      ensures Valid() && HasMachine(old(slots)[index]) && ready.queue == Enqueued(old(ready.queue), index)
      ensures slots == old(slots)[index := slots[index]] && TurnOf(old(slots)[index], slots[index], error)
      ensures error.None? ==> slots[index] == WithInput(old(slots)[index], Input.Admitted)
      ensures var answer := Received(old(slots)[index], revoked);
              HasMachine(answer.slot) && error == answer.error && slots[index] == Concluded(answer)
    {
      hide SlotInv, KernelInv, NeedsPass, Apply, EffectOf, TurnOf, Received;
      ghost var was := slots[index];
      error := AdmittedFrame(index, revoked);
      ReceivedTurns(was, revoked);
      if error.Some? {
        AliveMachine(slots[index], index);
        ShutHolds(slots[index], index, Close(error.value));
        CloseLink(index, error.value);
      }
    }

    /** Keeps the future's waker; the answer says whether it was not there already. */
    method Register(index: nat, anew: bool) returns (first: bool)
      requires Valid() && index < links && HasMachine(slots[index]) && slots[index].alive
      modifies `slots
      ensures Valid() && first == (anew || !old(slots)[index].waker)
      ensures slots == old(slots)[index := old(slots)[index].(waker := true)]
    {
      hide SlotInv, KernelInv, NeedsPass, SameOwed;
      first := anew || !slots[index].waker;
      assert SlotInv(slots[index], index);
      RegisteredHolds(slots[index], index);
      Update(index, slots[index].(waker := true));
    }

    /** The link's future polls for its next turn. */
    method PollLink(index: nat, poll: Poll, revoked: (bool, bool), anew: bool) returns (polled: Polled)
      requires Valid() && index < links && slots[index].alive
      modifies `slots
      ensures Owns() && AttendedBut(slots, ready.queue, index) && slots[index].alive
      ensures slots == old(slots)[index := slots[index]] && HasMachine(old(slots)[index])
      ensures Glance(slots[index], polled) == Looked(old(slots)[index], poll, revoked, anew)
      ensures !polled.Fails? ==> Valid() && IsOpen(slots[index])
      ensures polled.Ready? ==> Found(old(slots)[index].protocol.value, poll).Ready? && !revoked.0
      ensures polled.Pending? ==> slots[index] == old(slots)[index].(waker := true)
    {
      hide SlotInv, KernelInv, Apply, NeedsPass, Found;
      AliveMachine(slots[index], index);
      var m := slots[index].protocol.value;
      var first := poll.Endpoint?;
      if poll.Endpoint? { var _ := Register(index, anew); }
      var error := CheckOpen(index, revoked.0);
      if error.Some? {
        return Fails(error.value);
      }
      polled := Found(m, poll);
      if polled.Pending? && !poll.Endpoint? {
        first := Register(index, anew);
      } else if polled.Ready? && poll.Frame? {
        first := true;
      }
      if first {
        error := CheckOpen(index, revoked.1);
        if error.Some? {
          return Fails(error.value);
        }
      }
    }

    /** One poll of the owner's loop: a failure closes the link. */
    method PollStep(index: nat, poll: Poll, revoked: (bool, bool), anew: bool) returns (polled: Polled)
      requires Valid() && index < links && slots[index].alive
      modifies `slots, ready, ready.entries, ready.present
      ensures Valid() && HasMachine(old(slots)[index])
      ensures ready.queue == if polled.Fails? then Enqueued(old(ready.queue), index) else old(ready.queue)
      ensures slots == old(slots)[index := slots[index]]
      ensures var glance := Looked(old(slots)[index], poll, revoked, anew);
              HasMachine(glance.slot) && polled == glance.polled && slots[index] == LookedOut(glance)
      ensures polled.Fails? <==> IsClosed(slots[index])
    {
      hide SlotInv, KernelInv, NeedsPass, Apply, EffectOf, TurnOf, Looked;
      ghost var was := slots[index];
      polled := PollLink(index, poll, revoked, anew);
      ghost var parked := LookedTurns(was, poll, revoked, anew);
      if polled.Fails? {
        CloseLink(index, polled.error);
      }
    }

    /** The link's future is dropped: close, and leave the protocol to be retired. */
    method DropHandle(index: nat)
      requires Valid() && index < links && slots[index].alive
      modifies `slots, ready, ready.entries, ready.present
      ensures Valid() && ready.queue == Enqueued(old(ready.queue), index) && SameMarks(old(slots)[index], slots[index])
      ensures old(slots)[index].protocol.Some? && Inv(old(slots)[index].protocol.value)
      ensures slots == old(slots)[index := Dropped(old(slots)[index])]
      ensures !slots[index].alive && !slots[index].waker && IsClosed(slots[index])
      ensures slots[index].protocol.value.closed
              == if IsClosed(old(slots)[index]) then old(slots)[index].protocol.value.closed else Some(Error.Closed)
    {
      hide SlotInv, KernelInv, NeedsPass, Shut;
      AliveMachine(slots[index], index);
      DroppedHolds(slots[index], index);
      CloseLink(index, Error.Closed);
      var slot := slots[index].(alive := false, waker := false);
      Update(index, slot);
    }

    /** Stops admission and closes every link; cancellations follow in later passes. */
    method CancelAll()
      requires Valid()
      modifies `admitting, `slots, ready, ready.entries, ready.present
      ensures Valid() && !admitting && AllShut(slots) && Joined(old(ready.queue), ready.queue)
      ensures forall i :: 0 <= i < links ==> SlotMachineInv(old(slots)[i]) && slots[i] == Cancelled(old(slots)[i])
      ensures forall i :: 0 <= i < links && IsOpen(old(slots)[i]) ==> ClosedFor(slots[i], Error.Closed)
    {
      assert Joined(ready.queue, ready.queue);
      SlotMachines(slots);
      forall i | 0 <= i < links && IsOpen(slots[i]) ensures ClosedFor(Cancelled(slots[i]), Error.Closed) {
        CancelledFor(slots[i]);
      }
      hide SlotInv, KernelInv, NeedsPass, Cancelled, Joined, ShutSlot, Attended, SlotMachineInv, ClosedFor;
      admitting := false;
      for index := 0 to links
        invariant Valid() && !admitting && Joined(old(ready.queue), ready.queue)
        invariant forall i :: 0 <= i < index ==> ShutSlot(slots[i]) && slots[i] == Cancelled(old(slots)[i])
        invariant forall i :: index <= i < links ==> slots[i] == old(slots)[i]
      {
        ghost var queue := ready.queue;
        CancelLink(index);
        JoinedOn(old(ready.queue), queue, ready.queue);
      }
    }

    method CancelLink(index: nat)
      requires Valid() && index < links && SlotMachineInv(slots[index])
      modifies `slots, ready, ready.entries, ready.present
      ensures Valid() && Joined(old(ready.queue), ready.queue)
      ensures slots == old(slots)[index := Cancelled(old(slots)[index])] && ShutSlot(slots[index])
    {
      hide SlotInv, KernelInv, NeedsPass, Shut, Refresh, SameOwed, Cancelled, ShutSlot;
      var slot := slots[index];
      assert SlotInv(slot, index);
      CancelledHolds(slot, index);
      if slot.protocol.Some? && (!AllAvailable(slot) || slot.resources) {
        ready.Push(index);
      }
      Update(index, Cancelled(slot));
    }

    /** Dispatches one snapshot of a slot's recorded work. */
    method DispatchSlot(index: nat, work: Work)
      requires Valid() && index < links && (work.reclaim ==> slots[index].work.reclaim)
      modifies `slots
      ensures Valid() && slots == old(slots)[index := Dispatched(old(slots)[index], work)]
    {
      hide SlotInv, KernelInv, NeedsPass, Dispatched, SameOwed;
      assert SlotInv(slots[index], index);
      DispatchedHolds(slots[index], index, work);
      DispatchedOwesSame(slots[index], work);
      Update(index, Dispatched(slots[index], work));
    }

    method NextCursor() returns (index: nat)
      requires Valid()
      modifies `cursor
      ensures Valid() && index == old(cursor) < links && cursor == if index + 1 == links then 0 else index + 1
    {
      hide SlotInv, KernelInv, NeedsPass, Attended, AllSlots;
      index := cursor;
      cursor := if index + 1 == links then 0 else index + 1;
    }

    method DispatchRecord(index: nat, work: Work) returns (some: bool)
      requires Valid() && index < links && work == slots[index].work
      modifies `slots
      ensures Valid() && slots == old(slots)[index := Dispatched(old(slots)[index], work)]
      ensures some <==> !work.IsEmpty()
      ensures WindsAll(old(slots), slots, if some then 1 else 0)
    {
      hide SlotInv, KernelInv, NeedsPass, Dispatched, WindsAll, Winds, Attended, AllSlots;
      if work.IsEmpty() {
        NothingDispatched(slots[index]);
        WindsStill(slots);
        return false;
      }
      DispatchedStep(slots, index);
      DispatchSlot(index, work);
      return true;
    }

    /** Dispatches at most `budget` slots' records as they stood at the call, starting
        where the last call stopped. */
    method DispatchWithBudget(budget: nat) returns (dispatched: nat, ghost steps: nat)
      requires Valid()
      modifies `slots, `cursor
      ensures Valid() && dispatched <= budget && steps <= links
      ensures DispatchedFrom(old(slots), slots, old(cursor), steps)
      ensures cursor == Wrapped(old(cursor), steps, links)
      ensures budget == 0 ==> steps == 0
      ensures budget > 0 ==> 0 < steps && (steps < links ==> dispatched == budget)
      ensures WindsAll(old(slots), slots, dispatched) && dispatched == Recorded(old(slots), old(cursor), steps)
    {
      hide SlotInv, KernelInv, NeedsPass, Dispatched, WindsAll, Winds, Attended, AllSlots, DispatchedTo, Wrapped;
      dispatched, steps := 0, 0;
      NothingDispatches(slots, cursor);
      var pending := slots;
      ghost var start := cursor;
      if budget == 0 {
        DispatchedMeans(pending, slots, start, 0, 0, cursor);
        return;
      }
      var turn := 0;
      while turn < links && dispatched < budget
        invariant Valid() && turn <= links && dispatched <= budget
        invariant DispatchedTo(pending, slots, start, turn, dispatched, cursor)
      {
        ghost var was := slots;
        DispatchesNext(pending, was, start, turn, dispatched, cursor);
        var index := NextCursor();
        var some := DispatchRecord(index, pending[index].work);
        DispatchesOn(pending, was, start, turn, dispatched, index, slots, cursor);
        dispatched := dispatched + if some then 1 else 0;
        turn := turn + 1;
      }
      steps := turn;
      DispatchedMeans(pending, slots, start, turn, dispatched, cursor);
    }

    /** Nothing is attached, in flight, held or recorded any more. */
    method ShutdownComplete() returns (complete: bool)
      requires Valid()
      ensures complete <==> ShutDown(Snapshot())
    {
      hide SlotDone, AllSlots, KernelInv, Attended, Distinct;
      if admitting || pending != 0 {
        return false;
      }
      var index := 0;
      while index < links && SlotDone(slots[index])
        invariant index <= links && forall i :: 0 <= i < index ==> SlotDone(slots[i])
      {
        index := index + 1;
      }
      return index == links;
    }

    /** The host's scheduling advice; `arrived` says the completion queue is not empty. */
    method Advise(arrived: bool) returns (schedule: Schedule)
      requires Valid()
      ensures schedule == Wait <==> !arrived && queued == 0 && ready.queue == []
      ensures schedule == RetryLater <==> !arrived && queued == 0 && ready.queue != []
                                          && forall k :: 0 <= k < |ready.queue| ==> slots[ready.queue[k]].contended
      ensures schedule != Continue ==> forall i :: 0 <= i < links ==> AtRest(slots[i]) || slots[i].contended
      ensures schedule == Wait ==> forall i :: 0 <= i < links ==> AtRest(slots[i])
    {
      forall slot | slot in slots ensures NeedsPass(slot) <==> !AtRest(slot) { NothingLeft(slot); }
      hide NeedsPass, KernelInv, AllSlots, AtRest;
      if arrived || queued != 0 {
        return Continue;
      }
      var offset := 0;
      while offset < ready.len
        invariant offset <= ready.len && forall k :: 0 <= k < offset ==> slots[ready.queue[k]].contended
      {
        var index := ready.At(offset);
        if !slots[index].contended {
          return Continue;
        }
        offset := offset + 1;
      }
      return if ready.len != 0 then RetryLater else Wait;
    }
  }

  /** What a completion leaves of the table, the kernel's debts and the ring. */
  lemma ConsumedHolds(slots: seq<Slot>, kernel: set<U64>, queue: seq<nat>, token: U64, result: int, buffer: seq<Byte>)
    requires AllSlots(slots) && KernelInv(slots, kernel) && token in kernel
    ensures var index := TokenSlot(token) / 3;
            && index < |slots| && SlotMachineInv(slots[index]) && |kernel - {token}| == |kernel| - 1
            && Joined(queue, Enqueued(queue, index))
            && var next := Ended(slots[index], token, result, buffer);
               var now := slots[index := next];
               && AllSlots(now) && KernelInv(now, kernel - {token}) && WindsAll(slots, now, 1) && Steady(slots, now)
               && LosesNothing(slots[index], next)
               && (Attended(slots, queue) ==> Attended(now, Enqueued(queue, index)))
  {
    hide SlotInv, KernelInv, Ended, Winds, WindsAll, NeedsPass, LosesNothing, Joined;
    var index := TokenSlot(token) / 3;
    EndedHolds(slots, kernel, token, result, buffer);
    EndedWakes(slots[index], token, result, buffer);
    EndedMarks(slots[index], token, result, buffer);
    EndedWinds(slots, kernel, token, result, buffer);
    WindsAt(slots, index, Ended(slots[index], token, result, buffer), 1);
    KeptStill(slots, queue);
    JoinedPush(queue, queue, index);
  }

  /** Whatever is first pending is a cancellation or a transfer to submit. */
  lemma PendingIs(slot: Slot)
    ensures PendingLane(slot).Some? ==>
              && LanePending(slot, PendingLane(slot).value) && slot.protocol.Some? && Inv(slot.protocol.value)
              && (Cancelling(slot, PendingLane(slot).value) || Submittable(slot, PendingLane(slot).value))
  {
    hide Inv, EffectOf;
  }

  lemma DeniedStays(slot: Slot, bytesLeft: nat, left: nat, queued: nat, more: nat, entries: nat)
    requires Denied(slot, bytesLeft, queued, entries) && left <= bytesLeft && queued <= more
    ensures Denied(slot, left, more, entries)
  {
    hide Refresh, PendingLane;
  }

  lemma AttendedTurned(slots: seq<Slot>, queue: seq<nat>, index: nat)
    requires Attended(slots, queue)
    ensures Attended(slots, Rotated(queue, index))
  {
    hide NeedsPass;
    forall i | 0 <= i < |slots| && NeedsPass(slots[i]) ensures i in Rotated(queue, index) {
      if index in queue {
        assert queue == queue[..Position(queue, index)] + queue[Position(queue, index)..];
      }
    }
  }

  /** The dispatch loop after `steps` slots: what was dispatched, how many records, and where
      the cursor is. */
  ghost predicate DispatchedTo(was: seq<Slot>, now: seq<Slot>, start: nat, steps: nat, records: nat, cursor: nat) {
    && start < |was| == |now| && steps <= |was| && DispatchedFrom(was, now, start, steps)
    && records == Recorded(was, start, steps) <= steps && cursor == Wrapped(start, steps, |was|)
    && WindsAll(was, now, records)
  }

  lemma NothingDispatches(slots: seq<Slot>, cursor: nat)
    requires cursor < |slots|
    ensures DispatchedTo(slots, slots, cursor, 0, 0, cursor)
  {
    hide WindsAll;
    WindsStill(slots);
  }

  lemma DispatchesNext(was: seq<Slot>, now: seq<Slot>, start: nat, steps: nat, records: nat, cursor: nat)
    requires DispatchedTo(was, now, start, steps, records, cursor) && steps < |was|
    ensures cursor < |was| == |now| && now[cursor] == was[cursor]
  {
    hide WindsAll, Recorded;
    NextDispatched(was, now, start, steps);
  }

  lemma DispatchesOn(was: seq<Slot>, mid: seq<Slot>, start: nat, steps: nat, records: nat, index: nat, now: seq<Slot>,
                     cursor: nat)
    requires DispatchedTo(was, mid, start, steps, records, index) && steps < |was| && index < |was| == |mid|
    requires now == mid[index := Dispatched(mid[index], was[index].work)]
    requires WindsAll(mid, now, if was[index].work.IsEmpty() then 0 else 1)
    requires cursor == if index + 1 == |was| then 0 else index + 1
    ensures DispatchedTo(was, now, start, steps + 1, records + if was[index].work.IsEmpty() then 0 else 1, cursor)
  {
    hide WindsAll, Recorded, Dispatched;
    NextDispatched(was, mid, start, steps);
    NextRecorded(was, start, steps);
    NextWrapped(start, steps, |was|);
    WindsAllOn(was, mid, now, records, if was[index].work.IsEmpty() then 0 else 1);
  }

  lemma DispatchedMeans(was: seq<Slot>, now: seq<Slot>, start: nat, steps: nat, records: nat, cursor: nat)
    requires DispatchedTo(was, now, start, steps, records, cursor)
    ensures DispatchedFrom(was, now, start, steps) && cursor == Wrapped(start, steps, |was|)
    ensures start < |was| && steps <= |was| && records == Recorded(was, start, steps) <= steps
            && WindsAll(was, now, records)
  {
  }

  lemma NextRecorded(slots: seq<Slot>, cursor: nat, steps: nat)
    requires cursor < |slots| && steps < |slots|
    ensures 0 <= Wrapped(cursor, steps, |slots|) < |slots|
    ensures Recorded(slots, cursor, steps + 1)
            == Recorded(slots, cursor, steps) + if slots[Wrapped(cursor, steps, |slots|)].work.IsEmpty() then 0 else 1
  {
    WrappedOffset(cursor, steps, |slots|);
  }

  lemma DispatchedStep(slots: seq<Slot>, index: nat)
    requires AllSlots(slots) && index < |slots| && !slots[index].work.IsEmpty()
    ensures WindsAll(slots, slots[index := Dispatched(slots[index], slots[index].work)], 1)
  {
    hide Inv, Winds, WindsAll, Dispatched;
    assert SlotInv(slots[index], index);
    DispatchedWinds(slots[index], index, slots[index].work);
    WindsAt(slots, index, Dispatched(slots[index], slots[index].work), 1);
  }

  lemma DispatchedOwesSame(slot: Slot, work: Work)
    ensures SameOwed(slot, Dispatched(slot, work))
  {
  }

  /** The trace of a pass under way accounts for the slots, the turns taken, the links
      reached and what the kernel came to owe. */
  ghost predicate Recounts(trace: seq<Event>, was: seq<Slot>, owed: set<U64>, now: seq<Slot>, kernel: set<U64>,
                           tour: Tour,
                           submissions: nat, used: nat, deferred: bool, hints: bool) {
    && TraceOf(trace, was, now, deferred, hints) && tour.served == Served(trace) && Reaches(tour, Reached(trace))
    && submissions == Entries(trace)
    && WindsAll(was, now, submissions) && (AllShut(was) ==> used == 0 && AllShut(now))
    && owed <= kernel && |kernel| == |owed| + submissions
  }

  lemma NothingRecounted(slots: seq<Slot>, kernel: set<U64>, tour: Tour, deferred: bool, hints: bool)
    requires tour.served == {} && Reaches(tour, {})
    ensures Recounts([], slots, kernel, slots, kernel, tour, 0, 0, deferred, hints)
  {
    EmptyTrace(slots, deferred, hints);
    WindsStill(slots);
  }

  lemma RecountsOn(trace: seq<Event>, was: seq<Slot>, owed: set<U64>, mid: seq<Slot>, more: set<U64>, now: seq<Slot>,
                   kernel: set<U64>,
                   on: Tour, queue: seq<nat>, tour: Tour, e: Event, submissions: nat, used: nat, deferred: bool,
                   hints: bool)
    requires Recounts(trace, was, owed, mid, more, on, submissions, used, deferred, hints)
    requires e.index < |mid| && e.before == mid[e.index] && Genuine(e, deferred, hints)
             && now == mid[e.index := e.after]
    requires TourInv(on, queue) && on.ahead != [] && on.ahead[0] < |on.start| && e.index == on.start[on.ahead[0]]
    requires exists put :: tour == Visited(on, put, e.attempt.Blocked?)
    requires WindsAll(mid, now, if e.attempt.Took? then 1 else 0)
    requires more <= kernel && |kernel| == |more| + if e.attempt.Took? then 1 else 0
    requires AllShut(mid) && e.attempt.Took? ==> e.attempt.length == 0
    ensures var steps := if e.attempt.Took? then 1 else 0;
            Recounts(trace + [e], was, owed, now, kernel, tour, submissions + steps,
                     used + if e.attempt.Took? then e.attempt.length else 0, deferred, hints)
  {
    hide TraceOf, Genuine, Served, Reached, Entries, WindsAll, AllShut, TourInv, Reaches;
    TraceGrows(trace, was, mid, e, deferred, hints);
    ReachesOn(on, queue, tour, e.attempt.Blocked?, Reached(trace));
    WindsAllOn(was, mid, now, submissions, if e.attempt.Took? then 1 else 0);
    WindsShut(mid, now, if e.attempt.Took? then 1 else 0);
  }

  lemma RecountsRound(trace: seq<Event>, was: seq<Slot>, owed: set<U64>, now: seq<Slot>, kernel: set<U64>, tour: Tour,
                      queue: seq<nat>, submissions: nat, used: nat, deferred: bool, hints: bool)
    requires Recounts(trace, was, owed, now, kernel, tour, submissions, used, deferred, hints)
    requires TourInv(tour, queue) && tour.ahead == []
    ensures Recounts(trace, was, owed, now, kernel, NextRound(tour), submissions, used, deferred, hints)
  {
    hide TraceOf, Served, Reached, Entries, WindsAll, AllShut, TourInv, Reaches;
    ReachesAll(tour, queue, Reached(trace));
  }

  lemma Recounted(trace: seq<Event>, was: seq<Slot>, owed: set<U64>, now: seq<Slot>, kernel: set<U64>, tour: Tour,
                  submissions: nat, used: nat, deferred: bool, hints: bool)
    requires Recounts(trace, was, owed, now, kernel, tour, submissions, used, deferred, hints)
    ensures TraceOf(trace, was, now, deferred, hints) && tour.served == Served(trace)
    ensures WindsAll(was, now, submissions) && (AllShut(was) ==> used == 0)
    ensures owed <= kernel && |kernel| == |owed| + submissions
    ensures !tour.first ==> forall x :: x in tour.start ==> x in Reached(trace)
    ensures submissions == Entries(trace)
  {
    hide TraceOf, Served, Reached, Entries, WindsAll, AllShut;
    if !tour.first { ReachesStart(tour, Reached(trace)); }
  }

  lemma AttachStep(a: View, contract: Contract, direction: Direction, refused: Option<nat>, attached: Attachment,
                   b: View)
    requires ValidCapacity(a.bytes)
    requires attached.Rejected? ==> b == a
    requires attached.Linked? ==> Attaches(a, attached.index, contract, direction, b)
    requires attached.Linked? <==> a.admitting && refused.None? && exists j :: 0 <= j < |a.slots| && Free(a.slots[j])
    ensures StepOf(a, Call.Attach(contract, direction, refused), Quiet, b)
  {
    hide Attached;
    if i: nat :| FirstFree(a.slots, i) { assert Free(a.slots[i]); }
  }

  lemma UnreapedIs(kernel: set<U64>, cqes: seq<Cqe>, k: nat)
    requires k <= |cqes|
    ensures Unreaped(kernel, cqes, k) == kernel - Tokens(cqes[..k])
  {
  }

  lemma BeginsWith(was: seq<Slot>, cqes: seq<Cqe>, revoked: set<nat>, scanned: seq<Slot>)
    requires var reaped := Ends(was, cqes);
             && |scanned| == |reaped|
             && forall i :: 0 <= i < |reaped| ==>
                  SlotMachineInv(reaped[i]) && scanned[i] == Scanned(reaped[i], i in revoked)
    ensures Begins(was, cqes, revoked, scanned)
  {
    hide Ends, Scanned;
  }

  lemma AnsweredMeans(was: seq<Slot>, queue: seq<nat>, now: seq<Slot>, longer: seq<nat>, cqes: seq<Cqe>)
    requires Answered(was, queue, now, longer, cqes)
    ensures Joined(queue, longer) && WindsAll(was, now, |cqes|) && Steady(was, now) && now == Ends(was, cqes)
  {
  }

  lemma PassMeans(a: View, budget: Budget, deferred: bool, cqes: seq<Cqe>, t: Turnover, b: View)
    requires PassOf(a, budget, deferred, cqes, t, b)
    ensures |t.cqes| == Min(|cqes|, budget.completions) && Entries(t.trace) <= budget.submissions
    ensures |b.kernel| == |a.kernel| - |t.cqes| + Entries(t.trace)
    ensures WindsAll(a.slots, b.slots, |t.cqes| + Entries(t.trace))
  {
    hide TurnoverInv, Entries, WindsAll, Reached;
  }

  /** What the kernel takes from the submission queue is no part of what the pass did. */
  lemma PassFlushed(a: View, budget: Budget, deferred: bool, cqes: seq<Cqe>, t: Turnover, b: View, queued: nat)
    requires PassOf(a, budget, deferred, cqes, t, b) && queued <= b.queued
    ensures PassOf(a, budget, deferred, cqes, t, b.(queued := queued))
  {
    hide TurnoverInv, Entries, WindsAll, Reached;
  }

  /** A pass has been made: the clauses of the relation, gathered. */
  lemma PassMade(a: View, budget: Budget, deferred: bool, cqes: seq<Cqe>, t: Turnover, b: View, submissions: nat)
    requires |t.was| == |a.slots| && |a.queue| <= |a.slots| && Attended(a.slots, a.queue)
    requires Begins(t.was, t.cqes, t.revoked, t.scanned) && Steady(t.was, t.scanned)
    requires TraceOf(t.trace, t.scanned, t.now, deferred, b.hints)
             && submissions == Entries(t.trace) <= budget.submissions
    requires a.queued == 0 ==> Fair(t.pass)
    requires t == Turnover(Pass(a.queue, b.queue, Served(t.trace)), a.queued == 0, a.slots, t.cqes, t.revoked,
                           t.scanned, t.trace, b.slots, deferred, b.hints)
    requires t.cqes == cqes[..Min(|cqes|, budget.completions)]
    requires submissions < budget.submissions ==> forall x :: x in a.queue ==> x in Reached(t.trace)
    requires a.kernel - Tokens(t.cqes) <= b.kernel && |b.kernel| == |a.kernel| - |t.cqes| + submissions
    requires WindsAll(a.slots, b.slots, |t.cqes| + submissions) && b.queued <= a.queued + submissions
    requires b.bytes == a.bytes && b.admitting == a.admitting && b.cursor == a.cursor
    requires b.hints == HintsLeft(a.slots, t.cqes, a.hints)
    ensures PassOf(a, budget, deferred, cqes, t, b)
  {
    hide Begins, Steady, TraceOf, Fair, Served, Reached, Entries, WindsAll, Attended, Tokens;
  }

  /** What completions do to the slots and the ring. */
  predicate Answered(was: seq<Slot>, queue: seq<nat>, now: seq<Slot>, longer: seq<nat>, cqes: seq<Cqe>) {
    && Joined(queue, longer) && WindsAll(was, now, |cqes|) && Steady(was, now) && now == Ends(was, cqes)
  }

  lemma AnsweredNothing(slots: seq<Slot>, queue: seq<nat>)
    ensures Answered(slots, queue, slots, queue, [])
  {
    WindsStill(slots);
  }

  lemma AnsweredOn(a: seq<Slot>, p: seq<nat>, b: seq<Slot>, q: seq<nat>, c: seq<Slot>, r: seq<nat>, cqes: seq<Cqe>,
                   k: nat)
    requires k < |cqes| && Answered(a, p, b, q, cqes[..k]) && Answered(b, q, c, r, [cqes[k]])
    ensures Answered(a, p, c, r, cqes[..k + 1])
  {
    WindsAllOn(a, b, c, k, 1);
    JoinedOn(p, q, r);
    SteadyOn(a, b, c);
    EndsNext(a, cqes, k);
    OneEnd(b, cqes[k]);
  }

  /** What completions do to the slots, the ring and the driver's hints. */
  predicate Taken(was: seq<Slot>, queue: seq<nat>, hinted: bool, now: seq<Slot>, longer: seq<nat>, hints: bool,
                  cqes: seq<Cqe>) {
    Answered(was, queue, now, longer, cqes) && hints == HintsLeft(was, cqes, hinted)
  }

  lemma TakenNothing(slots: seq<Slot>, queue: seq<nat>, hints: bool)
    ensures Taken(slots, queue, hints, slots, queue, hints, [])
  {
    hide Answered;
    AnsweredNothing(slots, queue);
  }

  lemma TakenOn(a: seq<Slot>, p: seq<nat>, hinted: bool, b: seq<Slot>, q: seq<nat>, mid: bool, c: seq<Slot>,
                r: seq<nat>, hints: bool, cqes: seq<Cqe>, k: nat)
    requires k < |cqes| && Taken(a, p, hinted, b, q, mid, cqes[..k]) && Answered(b, q, c, r, [cqes[k]])
    requires hints == (mid && !RefusesAt(b, cqes[k]))
    ensures Taken(a, p, hinted, c, r, hints, cqes[..k + 1])
  {
    hide Answered, RefusesAt, HintsLeft;
    AnsweredMeans(a, p, b, q, cqes[..k]);
    AnsweredOn(a, p, b, q, c, r, cqes, k);
    HintsNext(a, cqes, k, hinted);
  }

  lemma TakenMeans(was: seq<Slot>, queue: seq<nat>, hinted: bool, now: seq<Slot>, longer: seq<nat>, hints: bool,
                   cqes: seq<Cqe>)
    requires Taken(was, queue, hinted, now, longer, hints, cqes)
    ensures Answered(was, queue, now, longer, cqes) && hints == HintsLeft(was, cqes, hinted)
  {
  }

  lemma OneEnd(slots: seq<Slot>, cqe: Cqe)
    ensures Ends(slots, [cqe]) == EndOne(slots, cqe)
  {
    hide EndOne;
    assert [cqe][..0] == [] && Ends(slots, []) == slots;
  }

  lemma OwedMachine(slots: seq<Slot>, kernel: set<U64>, token: U64)
    requires AllSlots(slots) && KernelInv(slots, kernel) && token in kernel
    ensures TokenSlot(token) / 3 < |slots| && SlotMachineInv(slots[TokenSlot(token) / 3])
  {
    KernelMember(slots, kernel, token);
    SlotMachines(slots);
  }

  lemma CancelledHolds(slot: Slot, index: nat)
    requires SlotInv(slot, index) && SlotMachineInv(slot)
    ensures SlotInv(Cancelled(slot), index) && SameOwed(slot, Cancelled(slot)) && ShutSlot(Cancelled(slot))
    ensures NeedsPass(Cancelled(slot)) ==> slot.protocol.Some? && (!AllAvailable(slot) || slot.resources)
  {
    hide Inv, Shut, SlotInv, Refresh, NeedsPass, SameOwed;
    if slot.protocol.Some? {
      var shut := Shut(slot, Close(Error.Closed));
      ShutHolds(slot, index, Close(Error.Closed));
      ShutOwesSame(slot, Close(Error.Closed));
      ShutOperations(slot, Close(Error.Closed));
      var marked := shut.(contended := false);
      MarkedHolds(shut, marked, index);
      RefreshHolds(marked, index);
      RefreshOwesSame(marked);
      RefreshKeepsShut(marked);
      SameOwedOn(slot, shut, marked);
      SameOwedOn(slot, marked, Refresh(marked));
      if AllAvailable(slot) && !slot.resources {
        IdleNeedsNothing(marked, index);
      }
    } else {
      UnlinkedNeedsNothing(slot);
      SlotOwesSame(slot);
    }
  }

  lemma SlotOwesSame(slot: Slot)
    ensures SameOwed(slot, slot)
  {
  }

  lemma SameOwedOn(a: Slot, b: Slot, c: Slot)
    requires SameOwed(a, b) && SameOwed(b, c)
    ensures SameOwed(a, c)
  {
  }

  lemma ShutOperations(slot: Slot, input: Input)
    requires slot.protocol.Some? && Inv(slot.protocol.value)
    ensures Shut(slot, input).operations == slot.operations && Shut(slot, input).resources == slot.resources
  {
  }

  lemma IdleNeedsNothing(slot: Slot, index: nat)
    requires SlotInv(slot, index) && IsClosed(slot) && AllAvailable(slot) && !slot.resources
    ensures !NeedsPass(Refresh(slot))
  {
    hide Inv;
    var next := Refresh(slot);
    forall lane: Lane ensures !LanePending(next, lane) {
      match lane case Data => case CreditSend => case CreditReceive =>
    }
  }

  lemma UnlinkedNeedsNothing(slot: Slot)
    requires slot.protocol.None?
    ensures !NeedsPass(slot) && Refresh(slot) == slot
  {
  }

  lemma AliveMachine(slot: Slot, index: nat)
    requires SlotInv(slot, index) && slot.alive
    ensures slot.protocol.Some? && Inv(slot.protocol.value)
  {
  }

  lemma RegisteredHolds(slot: Slot, index: nat)
    requires SlotInv(slot, index) && slot.alive
    ensures var now := slot.(waker := true);
            SlotInv(now, index) && SameOwed(slot, now) && NeedsPass(now) == NeedsPass(slot)
  {
    hide Inv, EffectOf;
  }

  lemma AttachedOwesSame(slot: Slot, index: nat, contract: Contract, direction: Direction, capacity: nat)
    requires ValidCapacity(capacity) && slot.generation < U64_MAX
    ensures SameOwed(slot, Attached(slot, contract, direction, capacity))
  {
  }

  /** An owner input never touches the operations the kernel holds. */
  lemma InputHolds(slot: Slot, index: nat, input: Input)
    requires SlotInv(slot, index) && slot.protocol.Some? && Inv(slot.protocol.value)
    requires !input.Accepted? && !input.Completed?
    ensures SlotInv(WithInput(slot, input), index) && SameOwed(slot, WithInput(slot, input))
    ensures input.Revoke? ==> IsClosed(WithInput(slot, input))
  {
    hide Inv, Apply;
    InputKeepsLanes(slot.protocol.value, input);
  }

  /** An owner input either succeeds and leaves the link open, or closes it. */
  lemma OwnerInput(m: State, input: Input)
    requires Inv(m) && (input.Provided? || input.Admitted?) && m.closed.None?
    ensures Apply(m, input).error.None? <==> Apply(m, input).next.closed.None?
    ensures Apply(m, input).error in {None, Some(Protocol)}
  {
  }

  lemma WindsShut(was: seq<Slot>, now: seq<Slot>, steps: nat)
    requires WindsAll(was, now, steps)
    ensures AllShut(was) ==> AllShut(now)
  {
  }

  lemma ShutOnly(was: Slot, now: Slot, steps: nat)
    requires !ShutSlot(was)
    ensures Winds(was, now, steps)
  {
  }

  lemma RefreshKeepsShut(slot: Slot)
    ensures ShutSlot(slot) == ShutSlot(Refresh(slot))
  {
  }

  lemma RequestedWinds(slot: Slot, index: nat, lane: Lane)
    requires SlotInv(slot, index) && Cancelling(slot, lane)
    ensures Winds(slot, CancelSent(slot, lane), 1)
  {
    hide Inv, Winds, CancelSent;
    assert LaneShape(slot, index, lane);
    CancelSentWinds(slot, lane);
  }

  lemma SlotMachine(slot: Slot, index: nat)
    requires SlotInv(slot, index)
    ensures slot.protocol.Some? ==> Inv(slot.protocol.value)
  {
  }

  lemma UncontendedNeeds(slot: Slot, marked: Slot)
    requires marked == slot.(contended := false)
    ensures NeedsPass(marked) == NeedsPass(slot)
  {
    hide Inv, EffectOf;
  }

  ghost function CancelToken(slot: Slot, index: nat, lane: Lane): U64
    requires index < MAX_LINKS
  {
    TokenWord(index, lane);
    Token(OpId(OpSlot(index, lane), slot.operations.Get(lane).id.generation), true)
  }

  lemma FreshOwesNothing(slots: seq<Slot>)
    requires |slots| <= MAX_LINKS && forall i :: 0 <= i < |slots| ==> slots[i] == FreshSlot(i)
    ensures KernelInv(slots, {})
  {
    forall token: U64 ensures !Expected(slots, token) {
      var lane := LaneAt(TokenSlot(token) % 3);
      match lane case Data => case CreditSend => case CreditReceive =>
    }
  }

  lemma RefreshOwesSame(slot: Slot)
    ensures SameOwed(slot, Refresh(slot))
  {
    hide Swept;
    SweptSameDebt(slot.operations.data);
    SweptSameDebt(slot.operations.creditSend);
    SweptSameDebt(slot.operations.creditReceive);
  }

  lemma SweptSameDebt(op: Op)
    ensures SameDebt(op, Swept(op))
  {
  }

  lemma CancelSentOwes(slot: Slot, lane: Lane)
    requires slot.operations.Get(lane).cancellation.Requested?
    ensures var op := slot.operations.Get(lane);
            var next := CancelSent(slot, lane);
            && OwedChange(slot, next, lane, op.id.generation, true)
            && !OwesLane(slot, lane, op.id.generation, true) && OwesLane(next, lane, op.id.generation, true)
  {
    var op := slot.operations.Get(lane);
    var next := CancelSent(slot, lane);
    forall l: Lane, g: U32, c: bool | l != lane || g != op.id.generation || !c
      ensures OwesLane(slot, l, g, c) == OwesLane(next, l, g, c)
    {
      GetSet(slot.operations, lane, next.operations.Get(lane), l);
    }
  }

  lemma SentOwes(slot: Slot, index: nat, lane: Lane, hint: bool)
    requires SlotInv(slot, index) && Submittable(slot, lane)
    ensures var op := PreparedOp(slot.operations.Get(lane));
            var next := Sent(slot, lane, hint);
            && next.operations.Get(lane).id == op.id && op.id.slot == OpSlot(index, lane)
            && OwedChange(slot, next, lane, op.id.generation, false)
            && !OwesLane(slot, lane, op.id.generation, false) && OwesLane(next, lane, op.id.generation, false)
  {
    hide Inv, EffectOf, Apply;
    assert LaneShape(slot, index, lane);
    var op := PreparedOp(slot.operations.Get(lane));
    var next := Sent(slot, lane, hint);
    GetSet(slot.operations, lane, Accept(op, op.id).0, lane);
    forall l: Lane, g: U32, c: bool | l != lane || g != op.id.generation || c
      ensures OwesLane(slot, l, g, c) == OwesLane(next, l, g, c)
    {
      GetSet(slot.operations, lane, Accept(op, op.id).0, l);
    }
  }
}
