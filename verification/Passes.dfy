/** What the visits of a pass did, and what they add up to over a run of passes. */
module Passes {
  import opened Wire
  import opened Transport
  import opened Machine
  import opened Operations
  import opened Slots
  import opened Kernel
  import opened Completions
  import opened ReadyRing
  import opened Turns

  datatype Attempt = Took(length: nat) | Blocked | Passed

  /** What the reservation's authority answers when work is to be entered. */
  datatype Access = Entered | Contended | Refused(error: Error)

  predicate Cancelling(slot: Slot, lane: Lane) {
    slot.operations.Get(lane).cancellation.Requested?
  }

  function Min(a: nat, b: nat): nat { if a < b then a else b }

  /** A first receive is hinted until the kernel refuses the hint once. */
  function Hint(slot: Slot, lane: Lane, hints: bool): bool
    requires slot.protocol.Some? ==> Inv(slot.protocol.value)
    requires Submittable(slot, lane)
  {
    var effect := EffectOf(slot.protocol.value, lane).value;
    effect.Receive? && effect.offset == 0 && hints
  }

  /** Deferred admission leaves a note for the authority's waiters. */
  function Marked(slot: Slot, deferred: bool): Slot {
    slot.(work := slot.work.(notify := slot.work.notify || deferred))
  }

  /** The slot after the reservation's authority answered a transfer to be submitted. */
  function Granted(slot: Slot, lane: Lane, deferred: bool, hints: bool, access: Access): Slot
    requires slot.protocol.Some? && Inv(slot.protocol.value) && Submittable(slot, lane)
  {
    var marked := Marked(slot, deferred);
    match access
    case Contended => marked.(contended := true)
    case Refused(error) => Shut(marked, if error == Error.Revoked then Revoke else Close(error))
    case Entered => Sent(marked, lane, Hint(slot, lane, hints))
  }

  /** The slot after its first pending lane was entered into the submission queue. */
  function Turned(slot: Slot, lane: Lane, deferred: bool, hints: bool): Slot
    requires slot.protocol.Some? && Inv(slot.protocol.value) && (Cancelling(slot, lane) || Submittable(slot, lane))
  {
    var next :=
      if Cancelling(slot, lane) then CancelSent(slot, lane)
      else Granted(slot, lane, deferred, hints, Entered);
    next.(nextLane := LaneAt(LaneNumber(lane) + 1))
  }

  predicate TookFirst(was: Slot, now: Slot, deferred: bool, hints: bool) {
    && PendingLane(was).Some? && was.protocol.Some? && Inv(was.protocol.value)
    && var lane := PendingLane(was).value;
       && (Cancelling(was, lane) || Submittable(was, lane))
       && now == Turned(was, lane, deferred, hints)
  }

  // --- Visits ---

  /** A visit to this slot would be denied: its next request has no byte budget, or
      no submission entry left beside the one reserved for cancellations. */
  predicate Denied(slot: Slot, bytesLeft: nat, queued: nat, entries: nat) {
    && !slot.contended && Refresh(slot) == slot
    && PendingLane(slot).Some?
    && if Cancelling(slot, PendingLane(slot).value) then queued >= entries
       else bytesLeft == 0 || queued + 1 >= entries
  }

  /** One link's turn: its slot before and after, and what came of it. */
  datatype Event = Event(index: nat, before: Slot, after: Slot, attempt: Attempt)

  /** What a visit can be: its first pending lane was entered; the lane was denied; or the
      link was contended, had nothing pending, or the authority turned it away. */
  ghost predicate Genuine(e: Event, deferred: bool, hints: bool) {
    var was := Refresh(e.before);
    && e.before.generation == e.after.generation
    && match e.attempt
       case Took(length) =>
         && Asked(was, length)
         && exists next :: TookFirst(was, next, deferred, hints) && e.after == Refresh(next)
       case Blocked => SameMarks(e.before, e.after) && e.after == was && !Unasked(was)
       case Passed =>
         && SameMarks(e.before, e.after) && PassedBy(was, e.after)
         && if Unasked(was) then e.after == was
            else exists access :: TurnedAway(was, access) && e.after == Refresh(Repelled(was, access, deferred, hints))
  }

  /** The first pending lane has a transfer to submit and the authority does not let it in. */
  predicate TurnedAway(was: Slot, access: Access) {
    && !access.Entered? && PendingLane(was).Some? && was.protocol.Some? && Inv(was.protocol.value)
    && Submittable(was, PendingLane(was).value)
  }

  function Repelled(was: Slot, access: Access, deferred: bool, hints: bool): Slot
    requires TurnedAway(was, access)
  {
    Granted(was, PendingLane(was).value, deferred, hints, access)
  }

  /** A cancellation moves no bytes; a transfer asks for some, and no more than the machine does. */
  predicate Asked(was: Slot, length: nat) {
    && PendingLane(was).Some? && was.protocol.Some? && Inv(was.protocol.value)
    && var lane := PendingLane(was).value;
       if Cancelling(was, lane) then length == 0
       else Submittable(was, lane) && 0 < length <= EffectOf(was.protocol.value, lane).value.length
  }

  /** The link is contended or has nothing pending, so a visit asks nothing for it. */
  predicate Unasked(slot: Slot) { slot.contended || PendingLane(slot).None? }

  /** Why a visit that was not denied entered nothing. */
  predicate PassedBy(was: Slot, now: Slot) {
    Unasked(was) || now.contended || (IsOpen(was) && IsClosed(now))
  }

  lemma GenuineVisit(index: nat, before: Slot, mid: Slot, attempt: Attempt, bytesLeft: nat, queued: nat, entries: nat,
                     deferred: bool, hints: bool)
    requires attempt.Took? ==> TookFirst(Refresh(before), mid, deferred, hints)
    requires attempt.Took? ==> Asked(Refresh(before), attempt.length)
    requires !attempt.Took? ==> SameMarks(Refresh(before), mid)
    requires attempt.Blocked? ==> Denied(Refresh(before), bytesLeft, queued, entries)
    requires attempt.Blocked? ==> mid == Refresh(before)
    requires attempt.Passed? && Unasked(Refresh(before)) ==> mid == Refresh(before)
    requires attempt.Passed? && !Unasked(Refresh(before)) ==>
               exists access :: TurnedAway(Refresh(before), access)
                 && mid == Repelled(Refresh(before), access, deferred, hints)
    requires attempt.Passed? ==> PassedBy(Refresh(before), mid)
    ensures Genuine(Event(index, before, Refresh(mid), attempt), deferred, hints)
  {
    RefreshMarks(before);
    RefreshMarks(mid);
    RefreshStands(mid);
    RefreshTwice(before);
    if attempt.Took? { TookMarks(Refresh(before), mid, deferred, hints); }
    hide Refresh, TookFirst, PendingLane, TurnedAway, Repelled, Asked;
  }

  lemma RefreshTwice(slot: Slot)
    ensures Refresh(Refresh(slot)) == Refresh(slot)
  {
  }

  lemma RefreshStands(slot: Slot)
    ensures Refresh(slot).contended == slot.contended && IsClosed(Refresh(slot)) == IsClosed(slot)
  {
  }

  lemma SubmittableIsOpen(slot: Slot, index: nat, lane: Lane)
    requires SlotInv(slot, index) && Submittable(slot, lane)
    ensures IsOpen(slot) && slot.resources && slot.alive && slot.protocol.Some? && Inv(slot.protocol.value)
  {
    hide Inv;
  }

  lemma ShutOwesSame(slot: Slot, input: Input)
    requires slot.protocol.Some? && Inv(slot.protocol.value)
    ensures SameOwed(slot, Shut(slot, input))
  {
    hide Apply, Inv;
  }

  /** Marks a pass leaves on a slot do not touch its operations. */
  lemma MarkedHolds(slot: Slot, marked: Slot, index: nat)
    requires SlotInv(slot, index)
    requires marked == slot.(contended := marked.contended, nextLane := marked.nextLane,
                             work := slot.work.(wake := marked.work.wake, notify := marked.work.notify))
    ensures SlotInv(marked, index) && SameOwed(slot, marked)
  {
    hide Inv;
  }

  lemma GrantedHolds(slot: Slot, index: nat, lane: Lane, deferred: bool, hints: bool, access: Access)
    requires SlotInv(slot, index) && slot.protocol.Some? && Inv(slot.protocol.value) && Submittable(slot, lane)
    ensures var (marked, granted) := (Marked(slot, deferred), Granted(slot, lane, deferred, hints, access));
            && Submittable(marked, lane) && marked.protocol == slot.protocol
            && (if access.Entered? then granted == Sent(marked, lane, Hint(marked, lane, hints))
                else SlotInv(granted, index) && SameOwed(marked, granted))
  {
    hide Inv, SlotInv, SameOwed, Shut, EffectOf, Sent;
    var marked := Marked(slot, deferred);
    MarkedHolds(slot, marked, index);
    match access {
      case Contended => MarkedHolds(marked, marked.(contended := true), index);
      case Refused(error) =>
        var input := if error == Error.Revoked then Revoke else Close(error);
        ShutHolds(marked, index, input);
        ShutOwesSame(marked, input);
      case Entered =>
    }
  }

  /** Being turned away leaves the marks, and is contention or closure. */
  lemma GrantedMarks(slot: Slot, index: nat, lane: Lane, deferred: bool, hints: bool, access: Access)
    requires SlotInv(slot, index) && slot.protocol.Some? && Inv(slot.protocol.value) && Submittable(slot, lane)
    requires !access.Entered?
    ensures var granted := Granted(slot, lane, deferred, hints, access);
            && SameMarks(slot, granted)
            && (granted.contended || (IsOpen(slot) && IsClosed(granted)))
  {
    SubmittableIsOpen(slot, index, lane);
    hide Inv, EffectOf, Apply, SlotInv;
    if access.Refused? {
      var input := if access.error == Error.Revoked then Revoke else Close(access.error);
      InputKeepsLanes(slot.protocol.value, input);
    }
  }

  /** The links that got a turn: visited and not denied. */
  function Served(trace: seq<Event>): set<nat> { set e | e in trace && !e.attempt.Blocked? :: e.index }

  function Reached(trace: seq<Event>): set<nat> { set e | e in trace :: e.index }

  /** How many requests the visits entered. */
  function Entries(trace: seq<Event>): nat {
    if trace == [] then 0
    else Entries(trace[..|trace| - 1]) + if trace[|trace| - 1].attempt.Took? then 1 else 0
  }

  /** Link `x` went from one slot value to the other by its own visits alone. */
  predicate SlotRun(trace: seq<Event>, x: nat, from: Slot, to: Slot) {
    if trace == [] then from == to
    else
      var (rest, last) := (trace[..|trace| - 1], trace[|trace| - 1]);
      if last.index != x then SlotRun(rest, x, from, to)
      else SlotRun(rest, x, from, last.before) && to == last.after
  }

  /** The trace accounts for every change of every slot. */
  ghost predicate TraceOf(trace: seq<Event>, from: seq<Slot>, to: seq<Slot>, deferred: bool, hints: bool) {
    && |from| == |to|
    && (forall e :: e in trace ==> e.index < |from| && Genuine(e, deferred, hints))
    && (forall x :: 0 <= x < |from| ==> SlotRun(trace, x, from[x], to[x]))
  }

  lemma EmptyTrace(slots: seq<Slot>, deferred: bool, hints: bool)
    ensures TraceOf([], slots, slots, deferred, hints) && Served([]) == {} && Reached([]) == {} && Entries([]) == 0
  {
  }

  lemma TraceGrows(trace: seq<Event>, from: seq<Slot>, mid: seq<Slot>, e: Event, deferred: bool, hints: bool)
    requires TraceOf(trace, from, mid, deferred, hints)
    requires e.index < |mid| && mid[e.index] == e.before && Genuine(e, deferred, hints)
    ensures TraceOf(trace + [e], from, mid[e.index := e.after], deferred, hints)
    ensures Served(trace + [e]) == if e.attempt.Blocked? then Served(trace) else Served(trace) + {e.index}
    ensures Reached(trace + [e]) == Reached(trace) + {e.index}
    ensures Entries(trace + [e]) == Entries(trace) + if e.attempt.Took? then 1 else 0
  {
    hide Genuine;
    var more := trace + [e];
    assert more[..|trace|] == trace;
    assert forall f :: f in more <==> f in trace || f == e;
    forall x | 0 <= x < |from| ensures SlotRun(more, x, from[x], mid[e.index := e.after][x]) {
    }
  }

  /** Visits to a link that asks for nothing enter nothing and only refresh it. */
  lemma {:induction false} QuietRun(trace: seq<Event>, x: nat, from: Slot, to: Slot, deferred: bool, hints: bool)
    requires SlotRun(trace, x, from, to) && PendingLane(Refresh(from)).None?
    requires forall e :: e in trace ==> Genuine(e, deferred, hints)
    ensures to == from || to == Refresh(from)
    ensures x in Reached(trace) ==> to == Refresh(from)
    ensures forall e :: e in trace && e.index == x ==> !e.attempt.Took?
    decreases |trace|
  {
    hide Refresh, PendingLane;
    if trace != [] {
      var (rest, last) := (trace[..|trace| - 1], trace[|trace| - 1]);
      assert forall e :: e in trace <==> e in rest || e == last;
      QuietRun(rest, x, from, if last.index == x then last.before else to, deferred, hints);
      RefreshTwice(from);
      assert Genuine(last, deferred, hints);
    }
  }

  lemma {:induction false} NoEntries(trace: seq<Event>)
    requires forall e :: e in trace ==> !e.attempt.Took?
    ensures Entries(trace) == 0
    decreases |trace|
  {
    if trace != [] {
      assert forall e :: e in trace[..|trace| - 1] ==> e in trace;
      NoEntries(trace[..|trace| - 1]);
    }
  }

  // --- What the rounds of a pass start from ---

  /** What the authority scan does to one link. */
  function Scanned(slot: Slot, revoked: bool): Slot
    requires SlotMachineInv(slot)
  {
    var free := slot.(contended := false);
    if revoked && IsOpen(free) then Shut(free, Revoke) else free
  }

  lemma ScannedMarks(slot: Slot, revoked: bool)
    requires SlotMachineInv(slot)
    ensures SameMarks(slot, Scanned(slot, revoked))
    ensures !IsOpen(slot) ==> Scanned(slot, revoked) == slot.(contended := false)
  {
    hide Inv, Apply;
  }

  /** Nothing happened to a link that is not open but its contention mark being cleared. */
  predicate Rested(was: seq<Slot>, now: seq<Slot>) {
    |was| == |now| && forall i :: 0 <= i < |was| && !IsOpen(was[i]) ==> now[i] == was[i].(contended := false)
  }

  lemma ScannedAll(was: seq<Slot>, now: seq<Slot>, revoked: set<nat>)
    requires |was| == |now|
    requires forall i :: 0 <= i < |was| ==> SlotMachineInv(was[i]) && now[i] == Scanned(was[i], i in revoked)
    ensures Steady(was, now) && Rested(was, now)
  {
    forall i | 0 <= i < |was|
      ensures SameMarks(was[i], now[i]) && (!IsOpen(was[i]) ==> now[i] == was[i].(contended := false))
    {
      ScannedMarks(was[i], i in revoked);
    }
  }

  // --- Runs of passes ---

  /** One pass: the ring; whether the kernel had taken all earlier requests; the slots when it
      began, the completions it consumed and the links found revoked; the slots its rounds
      began with, their visits, and the slots when it ended. */
  datatype Turnover = Turnover(
    pass: Pass, drained: bool, was: seq<Slot>, cqes: seq<Cqe>, revoked: set<nat>, scanned: seq<Slot>,
    trace: seq<Event>, now: seq<Slot>, deferred: bool, hints: bool)

  /** The rounds begin with what the completions and then the authority scan leave. */
  predicate Begins(was: seq<Slot>, cqes: seq<Cqe>, revoked: set<nat>, scanned: seq<Slot>) {
    var reaped := Ends(was, cqes);
    && |scanned| == |reaped|
    && forall i :: 0 <= i < |reaped| ==> SlotMachineInv(reaped[i]) && scanned[i] == Scanned(reaped[i], i in revoked)
  }

  /** Between passes a slot's turn marker moves only with a new connection. */
  predicate Kept(was: seq<Slot>, now: seq<Slot>) {
    && |was| == |now|
    && forall x :: 0 <= x < |was| ==> was[x].generation < now[x].generation || SameMarks(was[x], now[x])
  }

  lemma KeptOn(a: seq<Slot>, b: seq<Slot>, c: seq<Slot>)
    requires Kept(a, b) && Kept(b, c)
    ensures Kept(a, c)
  {
  }

  lemma KeptStill(slots: seq<Slot>, queue: seq<nat>)
    ensures Kept(slots, slots) && Joined(queue, queue)
  {
  }

  lemma KeptAt(was: seq<Slot>, index: nat, slot: Slot)
    requires index < |was| && (was[index].generation < slot.generation || SameMarks(was[index], slot))
    ensures Kept(was, was[index := slot])
  {
  }

  ghost predicate TurnoverInv(t: Turnover, links: nat) {
    && |t.was| == links && |t.pass.before| <= links
    && Attended(t.was, t.pass.before) && Begins(t.was, t.cqes, t.revoked, t.scanned) && Steady(t.was, t.scanned)
    && TraceOf(t.trace, t.scanned, t.now, t.deferred, t.hints)
    && t.pass.turns == Served(t.trace) && (t.drained ==> Fair(t.pass))
  }

  predicate Next(a: Turnover, b: Turnover) { Joined(a.pass.after, b.pass.before) && Kept(a.now, b.was) }

  ghost predicate RunOf(run: seq<Turnover>, links: nat) {
    && (forall i :: 0 <= i < |run| ==> TurnoverInv(run[i], links))
    && (forall i :: 0 <= i < |run| - 1 ==> Next(run[i], run[i + 1]))
  }

  /** The run began at one table and ring and has come to another. */
  predicate Leads(run: seq<Turnover>, was: seq<Slot>, queue: seq<nat>, slots: seq<Slot>, longer: seq<nat>) {
    if run == [] then Kept(was, slots) && Joined(queue, longer)
    else
      && Kept(was, run[0].was) && Joined(queue, run[0].pass.before)
      && Kept(run[|run| - 1].now, slots) && Joined(run[|run| - 1].pass.after, longer)
  }

  lemma LeadsOn(run: seq<Turnover>, was: seq<Slot>, queue: seq<nat>, mid: seq<Slot>, at: seq<nat>, slots: seq<Slot>,
                longer: seq<nat>)
    requires Leads(run, was, queue, mid, at) && Kept(mid, slots) && Joined(at, longer)
    ensures Leads(run, was, queue, slots, longer)
  {
    hide Kept, Joined;
    var (from, start) := if run == [] then (was, queue) else (run[|run| - 1].now, run[|run| - 1].pass.after);
    KeptOn(from, mid, slots);
    JoinedOn(start, at, longer);
  }

  lemma RunGrows(run: seq<Turnover>, t: Turnover, links: nat, was: seq<Slot>, queue: seq<nat>)
    requires RunOf(run, links) && TurnoverInv(t, links) && Leads(run, was, queue, t.was, t.pass.before)
    ensures RunOf(run + [t], links) && Leads(run + [t], was, queue, t.now, t.pass.after)
  {
    KeptStill(t.now, t.pass.after);
    hide TurnoverInv, Kept, Joined;
    var more := run + [t];
    forall i | 0 <= i < |more| - 1 ensures Next(more[i], more[i + 1]) {
      if i < |run| - 1 { assert Next(run[i], run[i + 1]); }
    }
  }

  /** The link wants to submit, nobody contends for its authority and it is not turned away. */
  predicate Willing(e: Event) {
    var was := Refresh(e.before);
    PendingLane(was).Some? && !was.contended && !e.after.contended && !(IsOpen(was) && IsClosed(e.after))
  }

  /** The link has something to do whenever a pass begins and is willing at every visit, and
      the kernel takes every request before the next pass. */
  predicate StaysRunnable(run: seq<Turnover>, x: nat) {
    && (forall i :: 0 <= i < |run| ==> run[i].drained && x < |run[i].was| && NeedsPass(run[i].was[x]))
    && (forall i, e :: 0 <= i < |run| && e in run[i].trace && e.index == x ==> Willing(e))
  }

  predicate Enters(t: Turnover, x: nat) { exists e :: e in t.trace && e.index == x && e.attempt.Took? }

  function PassesOf(run: seq<Turnover>): (passes: seq<Pass>)
    ensures |passes| == |run| && forall i :: 0 <= i < |run| ==> passes[i] == run[i].pass
  {
    seq(|run|, i requires 0 <= i < |run| => run[i].pass)
  }

  /** A willing link's turn that was not denied entered a request. */
  lemma ServedEnters(t: Turnover, links: nat, x: nat)
    requires TurnoverInv(t, links) && x in t.pass.turns && forall e :: e in t.trace && e.index == x ==> Willing(e)
    ensures Enters(t, x)
  {
    hide Refresh, PendingLane, SlotRun, Fair, Attended;
    var e :| e in t.trace && !e.attempt.Blocked? && e.index == x;
    assert Genuine(e, t.deferred, t.hints) && Willing(e);
  }

  /** Bounded wait: over any run of the driver a link that stays runnable has a request
      entered within as many passes as there are links. */
  lemma EnteredWithinPasses(run: seq<Turnover>, links: nat, x: nat) returns (i: nat)
    requires RunOf(run, links) && x < links <= |run| && StaysRunnable(run, x)
    ensures i < links && Enters(run[i], x)
  {
    hide NeedsPass, Refresh, PendingLane, SlotRun, Fair, Position, Enters, Willing, TraceOf, Served, Steady, Kept;
    assert TurnoverInv(run[0], links);
    var passes := PassesOf(run);
    assert x in passes[0].before;
    forall k | 0 <= k < |passes| ensures Fair(passes[k]) { assert TurnoverInv(run[k], links); }
    forall k | 0 <= k < |passes| - 1 ensures Joined(passes[k].after, passes[k + 1].before) {
      assert Next(run[k], run[k + 1]);
    }
    BoundedWait(passes, x);
    i :| 0 <= i <= Position(passes[0].before, x) && x in passes[i].turns;
    assert TurnoverInv(run[i], links);
    ServedEnters(run[i], links, x);
  }

  // --- Every lane in its turn ---

  /** The request entered was for this lane. */
  predicate EntersLane(t: Turnover, x: nat, lane: Lane) {
    exists e :: e in t.trace && e.index == x && e.attempt.Took? && PendingLane(Refresh(e.before)) == Some(lane)
  }

  predicate LaneStays(t: Turnover, x: nat, lane: Lane) {
    forall e :: e in t.trace && e.index == x ==> LanePending(Refresh(e.before), lane)
  }

  /** A visit that enters another lane brings the marker nearer to this one. */
  lemma VisitBrings(e: Event, deferred: bool, hints: bool, lane: Lane)
    requires Genuine(e, deferred, hints) && LanePending(Refresh(e.before), lane)
    ensures !e.attempt.Took? ==> LanesAway(e.after, lane) == LanesAway(e.before, lane)
    ensures e.attempt.Took? && PendingLane(Refresh(e.before)) != Some(lane) ==>
              LanesAway(e.after, lane) < LanesAway(e.before, lane)
  {
    RefreshMarks(e.before);
    hide LanePending, PendingLane, Refresh, TookFirst;
    if e.attempt.Took? {
      var was := Refresh(e.before);
      var next :| TookFirst(was, next, deferred, hints) && e.after == Refresh(next);
      RefreshMarks(next);
      TookMarks(was, next, deferred, hints);
      FirstPending(was, lane);
      if PendingLane(was) != Some(lane) { NextAway(was.nextLane, PendingLane(was).value, lane); }
    }
  }

  lemma TookMarks(was: Slot, now: Slot, deferred: bool, hints: bool)
    requires TookFirst(was, now, deferred, hints)
    ensures PendingLane(was).Some? && now.nextLane == LaneAt(LaneNumber(PendingLane(was).value) + 1)
    ensures now.generation == was.generation
  {
    hide PendingLane, Inv, Apply, EffectOf;
  }

  lemma RefreshMarks(slot: Slot)
    ensures SameMarks(slot, Refresh(slot))
  {
  }

  function Away(from: Lane, lane: Lane): nat { (3 + LaneNumber(lane) - LaneNumber(from)) % 3 }

  lemma NextAway(from: Lane, entered: Lane, lane: Lane)
    requires Away(from, entered) <= Away(from, lane) && entered != lane
    ensures Away(LaneAt(LaneNumber(entered) + 1), lane) < Away(from, lane)
  {
  }

  lemma {:induction false} TraceBrings(trace: seq<Event>, x: nat, from: Slot, to: Slot, deferred: bool, hints: bool,
                                       lane: Lane)
    requires SlotRun(trace, x, from, to)
    requires forall e :: e in trace ==> Genuine(e, deferred, hints)
    requires forall e :: e in trace && e.index == x ==> LanePending(Refresh(e.before), lane)
    requires forall e :: e in trace && e.index == x && e.attempt.Took? ==> PendingLane(Refresh(e.before)) != Some(lane)
    ensures LanesAway(to, lane) <= LanesAway(from, lane)
    ensures (exists e :: e in trace && e.index == x && e.attempt.Took?) ==> LanesAway(to, lane) < LanesAway(from, lane)
    decreases |trace|
  {
    hide Genuine, LanePending, PendingLane, Refresh, LanesAway;
    if trace != [] {
      var (rest, last) := (trace[..|trace| - 1], trace[|trace| - 1]);
      assert forall e :: e in trace <==> e in rest || e == last;
      TraceBrings(rest, x, from, if last.index == x then last.before else to, deferred, hints, lane);
      if last.index == x { VisitBrings(last, deferred, hints, lane); }
    }
  }

  lemma PassBrings(t: Turnover, links: nat, x: nat, lane: Lane)
    requires TurnoverInv(t, links) && x < links && LaneStays(t, x, lane) && !EntersLane(t, x, lane)
    ensures |t.now| == links && LanesAway(t.now[x], lane) <= LanesAway(t.was[x], lane)
    ensures Enters(t, x) ==> LanesAway(t.now[x], lane) < LanesAway(t.was[x], lane)
  {
    hide Genuine, LanePending, PendingLane, Refresh, Fair, Attended;
    TraceBrings(t.trace, x, t.scanned[x], t.now[x], t.deferred, t.hints, lane);
    assert SameMarks(t.was[x], t.scanned[x]);
  }

  /** The connection in slot `x` is the same at the start of every pass. */
  predicate SameConnection(run: seq<Turnover>, x: nat) {
    forall i, j :: 0 <= i <= j < |run| && x < |run[i].was| && x < |run[j].was| ==>
      run[i].was[x].generation == run[j].was[x].generation
  }

  lemma {:induction false} RunBrings(run: seq<Turnover>, links: nat, x: nat, lane: Lane, i: nat)
    requires RunOf(run, links) && x < links && SameConnection(run, x) && i < |run|
    requires forall k :: 0 <= k < i ==> LaneStays(run[k], x, lane) && !EntersLane(run[k], x, lane)
    ensures |run[0].was| == links == |run[i].was|
    ensures LanesAway(run[i].was[x], lane) <= LanesAway(run[0].was[x], lane)
    decreases i
  {
    hide LaneStays, EntersLane, LanesAway, SameConnection, Next, TurnoverInv;
    WasLength(run[0], links);
    if i > 0 {
      RunBrings(run, links, x, lane, i - 1);
      WasLength(run[i - 1], links);
      WasLength(run[i], links);
      PassBrings(run[i - 1], links, x, lane);
      NextMarks(run, links, x, i - 1);
      MarksAway(run[i - 1].now[x], run[i].was[x], lane);
    }
  }

  lemma TurnoverAt(run: seq<Turnover>, links: nat, i: nat)
    requires RunOf(run, links) && i < |run|
    ensures TurnoverInv(run[i], links)
  {
    hide TurnoverInv, Next;
  }

  lemma WasLength(t: Turnover, links: nat)
    requires TurnoverInv(t, links)
    ensures |t.was| == links
  {
  }

  lemma {:induction false} SlotRunGeneration(trace: seq<Event>, x: nat, from: Slot, to: Slot, deferred: bool,
                                             hints: bool)
    requires SlotRun(trace, x, from, to) && forall e :: e in trace ==> Genuine(e, deferred, hints)
    ensures from.generation == to.generation
    decreases |trace|
  {
    hide TookFirst, Refresh, PendingLane;
    if trace != [] {
      var (rest, last) := (trace[..|trace| - 1], trace[|trace| - 1]);
      assert forall e :: e in rest ==> e in trace;
      assert last in trace;
      SlotRunGeneration(rest, x, from, if last.index == x then last.before else to, deferred, hints);
    }
  }

  lemma TurnoverKeepsGeneration(t: Turnover, links: nat, x: nat)
    requires TurnoverInv(t, links) && x < links
    ensures |t.now| == links && t.was[x].generation == t.now[x].generation
  {
    hide Genuine, Fair, Attended;
    SlotRunGeneration(t.trace, x, t.scanned[x], t.now[x], t.deferred, t.hints);
    assert SameMarks(t.was[x], t.scanned[x]);
  }

  lemma {:induction false} LaneEnteredFrom(run: seq<Turnover>, links: nat, x: nat, lane: Lane) returns (at: nat)
    requires RunOf(run, links) && x < links && StaysRunnable(run, x) && SameConnection(run, x)
    requires forall i :: 0 <= i < |run| ==> LaneStays(run[i], x, lane)
    requires |run| > 0 && x < |run[0].was| && (LanesAway(run[0].was[x], lane) + 1) * links <= |run|
    ensures at < (LanesAway(run[0].was[x], lane) + 1) * links && EntersLane(run[at], x, lane)
    decreases LanesAway(run[0].was[x], lane)
  {
    hide TurnoverInv, Next, LaneStays, EntersLane, Enters, LanesAway, Willing, NeedsPass, RunOf, SameConnection;
    hide StaysRunnable;
    var away := LanesAway(run[0].was[x], lane);
    Product(away, links, 0);
    var i := EnteredWithinPasses(run, links, x);
    if k :| 0 <= k <= i && EntersLane(run[k], x, lane) {
      at := k;
    } else {
      RunBrings(run, links, x, lane, i);
      TurnoverAt(run, links, i);
      PassBrings(run[i], links, x, lane);
      var next := LanesAway(run[i].now[x], lane);
      Product(away, links, next);
      var rest := run[i + 1..];
      NextMarks(run, links, x, i);
      assert LanesAway(rest[0].was[x], lane) == next by { MarksAway(run[i].now[x], rest[0].was[x], lane); }
      RestRuns(run, links, x, i + 1);
      at := LaneEnteredFrom(rest, links, x, lane);
      assert rest[at] == run[i + 1 + at];
      at := i + 1 + at;
    }
  }

  /** Over any run of the driver a lane that stays pending on a runnable link has its own
      request entered within three times as many passes as there are links. */
  lemma LaneEnteredWithinPasses(run: seq<Turnover>, links: nat, x: nat, lane: Lane) returns (at: nat)
    requires RunOf(run, links) && x < links && 3 * links <= |run| && StaysRunnable(run, x) && SameConnection(run, x)
    requires forall i :: 0 <= i < |run| ==> LaneStays(run[i], x, lane)
    ensures at < 3 * links && EntersLane(run[at], x, lane)
  {
    assert x < |run[0].was| && LanesAway(run[0].was[x], lane) < 3;
    hide TurnoverInv, Next, Willing, NeedsPass, LaneStays, EntersLane, SameConnection, RunOf, LanesAway;
    Monotone(LanesAway(run[0].was[x], lane) + 1, 3, links);
    at := LaneEnteredFrom(run, links, x, lane);
  }

  lemma Product(away: nat, links: nat, next: nat)
    ensures links <= (away + 1) * links
    ensures next < away ==> (next + 1) * links + links <= (away + 1) * links && 2 * links <= (away + 1) * links
  {
    assert (away + 1) * links == away * links + links;
    if next < away {
      Monotone(next + 1, away, links);
      Monotone(1, away, links);
    }
  }

  lemma {:induction false} Monotone(a: nat, b: nat, n: nat)
    requires a <= b
    ensures a * n <= b * n
    decreases b
  {
    if a < b {
      Monotone(a, b - 1, n);
      assert b * n == (b - 1) * n + n;
    }
  }

  lemma MarksAway(a: Slot, b: Slot, lane: Lane)
    requires SameMarks(a, b)
    ensures LanesAway(a, lane) == LanesAway(b, lane)
  {
  }

  lemma NextMarks(run: seq<Turnover>, links: nat, x: nat, i: nat)
    requires RunOf(run, links) && x < links && SameConnection(run, x) && i + 1 < |run|
    ensures |run[i].now| == links == |run[i + 1].was| && SameMarks(run[i].now[x], run[i + 1].was[x])
  {
    assert TurnoverInv(run[i], links) && TurnoverInv(run[i + 1], links);
    TurnoverKeepsGeneration(run[i], links, x);
    assert Next(run[i], run[i + 1]);
    hide TurnoverInv;
    assert run[i].was[x].generation == run[i + 1].was[x].generation;
  }

  lemma RestRuns(run: seq<Turnover>, links: nat, x: nat, from: nat)
    requires RunOf(run, links) && StaysRunnable(run, x) && SameConnection(run, x) && from <= |run|
    ensures RunOf(run[from..], links) && StaysRunnable(run[from..], x) && SameConnection(run[from..], x)
  {
    hide TurnoverInv, Next, Willing, NeedsPass;
    var rest := run[from..];
    forall i | 0 <= i < |rest| - 1 ensures Next(rest[i], rest[i + 1]) { assert Next(run[from + i], run[from + i + 1]); }
  }
}
