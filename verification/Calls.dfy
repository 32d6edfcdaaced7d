/** What each call on the driver does, and what any sequence of calls adds up to. */
module Calls {
  import opened Wire
  import opened Transport
  import opened Machine
  import opened Operations
  import opened Slots
  import opened Kernel
  import opened ReadyRing
  import opened Turns
  import opened Passes
  import opened Shutdown
  import opened Completions

  datatype Budget = Budget(completions: nat, submissions: nat, bytes: nat)

  /** What the codec made of the owner's value. */
  datatype Coded = Fits(length: nat) | Refused(error: Error)

  /** How a poll by the link's future ends. */
  datatype Polled = Ready | Pending | Fails(error: Error)

  /** What the future polls for: to be asked for a frame; a payload to admit, which the codec
      may refuse; or its local endpoint, whose own answer it brings along. */
  datatype Poll = Source | Frame(contract: Contract, refused: Option<Error>) | Endpoint(answer: Polled)

  /** An empty slot that still has a generation to give out. */
  predicate Free(slot: Slot) { slot.protocol.None? && slot.generation != U64_MAX }

  /** What the host and the owners may ask of the driver. */
  datatype Call =
    | Attach(contract: Contract, direction: Direction, refused: Option<nat>)
    | Export(index: nat, contract: Contract, sequence: U64, coded: Coded, revoked: (bool, bool))
    | Import(index: nat, lost: bool)
    | Look(index: nat, poll: Poll, revoked: (bool, bool), anew: bool)
    | Drop(index: nat)
    | Stop
    | Dispatch(records: nat)
    | Advance(budget: Budget, deferred: bool, cqes: seq<Cqe>)

  /** A pass whose budget is not refused. */
  predicate IsPass(call: Call) {
    call.Advance? && call.budget.completions > 0 && call.budget.submissions > 0 && call.budget.bytes > 0
  }

  function PassCount(calls: seq<Call>): nat {
    if calls == [] then 0 else PassCount(calls[..|calls| - 1]) + if IsPass(calls[|calls| - 1]) then 1 else 0
  }

  /** What an owner call's first check leaves. */
  function Checked(slot: Slot, revoked: bool): Slot
    requires SlotMachineInv(slot)
  {
    if revoked && IsOpen(slot) then WithInput(slot, Revoke) else slot
  }

  /** What stopping the driver does to one link. */
  function Cancelled(slot: Slot): Slot
    requires SlotMachineInv(slot)
  {
    Refresh(if slot.protocol.Some? then Shut(slot, Close(Error.Closed)).(contended := false) else slot)
  }

  lemma ShutKeepsMarks(slot: Slot, input: Input)
    requires slot.protocol.Some? && Inv(slot.protocol.value)
    ensures Shut(slot, input).contended == slot.contended && SameMarks(slot, Shut(slot, input))
  {
  }

  lemma CancelledKeeps(was: seq<Slot>, now: seq<Slot>)
    requires |was| == |now|
    requires forall i :: 0 <= i < |was| ==> SlotMachineInv(was[i]) && now[i] == Cancelled(was[i])
    ensures Kept(was, now)
  {
    hide Refresh, Shut, Inv;
    forall i | 0 <= i < |was| ensures SameMarks(was[i], now[i]) {
      if was[i].protocol.Some? {
        ShutKeepsMarks(was[i], Close(Error.Closed));
        RefreshMarks(Shut(was[i], Close(Error.Closed)).(contended := false));
      } else {
        RefreshMarks(was[i]);
      }
    }
  }

  /** How far `i` lies ahead of the cursor, going round. */
  function Offset(cursor: nat, i: nat, links: nat): int {
    if i >= cursor then i - cursor else i + links - cursor
  }

  function Wrapped(cursor: nat, steps: nat, links: nat): int {
    if cursor + steps < links then cursor + steps else cursor + steps - links
  }

  /** The slots within `steps` of the cursor had their recorded work dispatched; the
      others are as they were. */
  predicate DispatchedFrom(was: seq<Slot>, now: seq<Slot>, cursor: nat, steps: nat) {
    && |now| == |was|
    && forall i :: 0 <= i < |was| ==>
         now[i] == if Offset(cursor, i, |was|) < steps then Dispatched(was[i], was[i].work) else was[i]
  }

  lemma NextDispatched(was: seq<Slot>, now: seq<Slot>, cursor: nat, steps: nat)
    requires DispatchedFrom(was, now, cursor, steps) && cursor < |was| && steps < |was|
    ensures var index := Wrapped(cursor, steps, |was|);
            && 0 <= index < |was| && now[index] == was[index]
            && DispatchedFrom(was, now[index := Dispatched(was[index], was[index].work)], cursor, steps + 1)
  {
    hide Dispatched;
    WrappedOffset(cursor, steps, |was|);
  }

  lemma NextWrapped(cursor: nat, steps: nat, links: nat)
    requires cursor < links && steps < links
    ensures Wrapped(cursor, steps + 1, links)
            == if Wrapped(cursor, steps, links) + 1 == links then 0 else Wrapped(cursor, steps, links) + 1
  {
  }

  lemma WrappedOffset(cursor: nat, steps: nat, links: nat)
    requires cursor < links && steps < links
    ensures 0 <= Wrapped(cursor, steps, links) < links
    ensures Offset(cursor, Wrapped(cursor, steps, links), links) == steps
    ensures forall i :: 0 <= i < links && Offset(cursor, i, links) == steps ==> i == Wrapped(cursor, steps, links)
  {
  }

  /** A recorded slot is dispatched by the call or comes strictly nearer the cursor. */
  lemma DispatchIsFair(cursor: nat, steps: nat, links: nat, i: nat)
    requires cursor < links && 0 < steps <= links && i < links && Offset(cursor, i, links) >= steps
    ensures Offset(Wrapped(cursor, steps, links), i, links) == Offset(cursor, i, links) - steps
  {
  }

  lemma DispatchedKeeps(was: seq<Slot>, now: seq<Slot>, cursor: nat, steps: nat)
    requires DispatchedFrom(was, now, cursor, steps)
    ensures Kept(was, now)
  {
    hide Offset;
  }

  predicate AllDone(slots: seq<Slot>) { forall i :: 0 <= i < |slots| ==> SlotDone(slots[i]) }

  lemma DoneIsStill(slot: Slot, rested: Slot, index: nat)
    requires SlotInv(slot, index) && SlotDone(slot) && rested == slot.(contended := false)
    ensures PendingLane(Refresh(rested)).None? && (Abandoned(slot) ==> NeedsPass(slot))
    ensures SlotDone(rested) && !IsOpen(slot)
    ensures SlotDone(Refresh(rested)) <==> !Abandoned(slot)
  {
    hide Inv;
    RefreshKeepsDone(rested, index);
    forall lane: Lane ensures !LanePending(Refresh(rested), lane) {
      match lane case Data => case CreditSend => case CreditReceive =>
    }
  }

  /** From a complete state a pass enters nothing, and what it leaves is complete exactly
      when no link was abandoned. */
  lemma DonePass(was: seq<Slot>, queue: seq<nat>, scanned: seq<Slot>, now: seq<Slot>, trace: seq<Event>,
                 submissions: nat,
                 deferred: bool, hints: bool)
    requires AllSlots(was) && AllDone(was) && Attended(was, queue)
    requires Rested(was, scanned) && TraceOf(trace, scanned, now, deferred, hints)
    requires Entries(trace) < submissions ==> forall x :: x in queue ==> x in Reached(trace)
    requires submissions > 0
    ensures AllDone(now) <==> forall i :: 0 <= i < |was| ==> !Abandoned(was[i])
    ensures Entries(trace) == 0
  {
    hide SlotInv, SlotDone, NeedsPass, Genuine, SlotRun, Refresh, Abandoned, Unasked, IsOpen, PendingLane, Entries;
    hide Reached;
    forall i | 0 <= i < |was|
      ensures scanned[i] == was[i].(contended := false) && PendingLane(Refresh(scanned[i])).None?
      ensures Abandoned(was[i]) ==> i in queue
      ensures SlotDone(scanned[i]) && (SlotDone(Refresh(scanned[i])) <==> !Abandoned(was[i]))
    {
      assert SlotInv(was[i], i) && SlotDone(was[i]);
      DoneIsStill(was[i], was[i].(contended := false), i);
    }
    forall i | 0 <= i < |was|
      ensures now[i] == scanned[i] || now[i] == Refresh(scanned[i])
      ensures i in Reached(trace) ==> now[i] == Refresh(scanned[i])
    {
      QuietRun(trace, i, scanned[i], now[i], deferred, hints);
    }
    forall e | e in trace ensures !e.attempt.Took? {
      QuietRun(trace, e.index, scanned[e.index], now[e.index], deferred, hints);
    }
    NoEntries(trace);
    forall i | 0 <= i < |was|
      ensures SlotDone(now[i]) <==> !Abandoned(was[i])
    {
    }
  }

  lemma NothingDispatched(slot: Slot)
    requires slot.work.IsEmpty()
    ensures Dispatched(slot, slot.work) == slot
  {
  }

  // --- What owners' calls do to their link ---

  /** A link after an owner's call, and the error the call returns. */
  datatype Answer = Answer(slot: Slot, error: Option<Error>)

  /** The owner offers a frame; `revoked` is what authority says before and after the codec. */
  function Given(slot: Slot, contract: Contract, sequence: U64, coded: Coded, revoked: (bool, bool)): Answer
    requires HasMachine(slot)
  {
    var m := slot.protocol.value;
    if m.closed.Some? then Answer(slot, m.closed)
    else if revoked.0 then Answer(WithInput(slot, Revoke), Some(Error.Revoked))
    else if m.contract != contract || EffectOf(m, Data) != Some(Provide) then Answer(slot, Some(Protocol))
    else if coded.Refused? then Answer(slot, Some(coded.error))
    else if revoked.1 then Answer(WithInput(slot, Revoke), Some(Error.Revoked))
    else
      Answer(WithInput(slot, Provided(sequence, coded.length)), Apply(m, Provided(sequence, coded.length)).error)
  }

  /** The owner reports that the payload was admitted. */
  function Received(slot: Slot, revoked: bool): Answer
    requires HasMachine(slot)
  {
    var m := slot.protocol.value;
    if m.closed.Some? then Answer(slot, m.closed)
    else if revoked then Answer(WithInput(slot, Revoke), Some(Error.Revoked))
    else Answer(WithInput(slot, Input.Admitted), Apply(m, Input.Admitted).error)
  }

  /** A link after its future polled it. */
  datatype Glance = Glance(slot: Slot, polled: Polled)

  /** What an open link has for its future. */
  function Found(m: State, poll: Poll): Polled
    requires Inv(m)
  {
    match poll
    case Source => if EffectOf(m, Data) == Some(Provide) then Ready else Pending
    case Frame(contract, refused) =>
      if m.contract != contract then Fails(Protocol)
      else if EffectOf(m, Data).None? || !EffectOf(m, Data).value.Admit? then Pending
      else if refused.Some? then Fails(refused.value)
      else Ready
    case Endpoint(answer) => answer
  }

  /** The future finds nothing for it: it registers unless its own waker is there, and then
      looks once more. */
  function Parked(slot: Slot, revoked: bool, anew: bool): Glance
    requires HasMachine(slot)
  {
    var parked := slot.(waker := true);
    if slot.waker && !anew then Glance(slot, Pending)
    else if revoked then Glance(WithInput(parked, Revoke), Fails(Error.Revoked))
    else Glance(parked, Pending)
  }

  /** The future polls; `revoked` is what authority says at its first and second check, `anew`
      that the waker registered, if any, is not its own. */
  function Looked(slot: Slot, poll: Poll, revoked: (bool, bool), anew: bool): Glance
    requires HasMachine(slot)
  {
    var m := slot.protocol.value;
    var open := if poll.Endpoint? then slot.(waker := true) else slot;
    if m.closed.Some? then Glance(open, Fails(m.closed.value))
    else if revoked.0 then Glance(WithInput(open, Revoke), Fails(Error.Revoked))
    else
      var found := Found(m, poll);
      if found.Pending? && !poll.Endpoint? then Parked(slot, revoked.1, anew)
      else if revoked.1 && (poll.Endpoint? || (poll.Frame? && found.Ready?)) then
        Glance(WithInput(open, Revoke), Fails(Error.Revoked))
      else Glance(open, found)
  }

  /** The link once the owner's loop has dealt with a failed poll. */
  function LookedOut(glance: Glance): Slot
    requires HasMachine(glance.slot)
  {
    if glance.polled.Fails? then Concluded(Answer(glance.slot, Some(glance.polled.error))) else glance.slot
  }

  /** A turn of the owner's loop closes the link on an error. */
  function Concluded(answer: Answer): Slot
    requires HasMachine(answer.slot)
  {
    if answer.error.None? then answer.slot
    else Shut(answer.slot, Close(answer.error.value)).(contended := false)
  }

  /** An owner's call has no hand in the link's operations, resources, place or identity. */
  predicate OwnerOnly(was: Slot, now: Slot) {
    && now.operations == was.operations && now.resources == was.resources && now.hints == was.hints
    && now.alive == was.alive && now.waker == was.waker && SameMarks(was, now)
    && now.work.(wake := was.work.wake) == was.work
  }

  /** A failed turn leaves the link closed with the error, a closed link keeps its first reason
      and loses only its contention mark, and a successful turn leaves it open. */
  predicate TurnOf(was: Slot, now: Slot, error: Option<Error>)
    requires HasMachine(was)
  {
    && HasMachine(now) && OwnerOnly(was, now)
    && (IsClosed(was) ==> error == was.protocol.value.closed && now == was.(contended := false))
    && now.protocol.value.closed == error
  }

  lemma ClosedShut(slot: Slot, error: Error)
    requires HasMachine(slot) && IsClosed(slot)
    ensures Shut(slot, Close(error)) == slot
  {
  }

  lemma OpenShut(slot: Slot, error: Error)
    requires HasMachine(slot) && IsOpen(slot)
    ensures var now := Shut(slot, Close(error));
            HasMachine(now) && now.protocol.value.closed == Some(error) && OwnerOnly(slot, now)
  {
    hide Inv;
    ApplyKeepsInv(slot.protocol.value, Close(error));
  }

  lemma RevokedInput(slot: Slot)
    requires HasMachine(slot) && IsOpen(slot)
    ensures var now := WithInput(slot, Revoke);
            HasMachine(now) && now.protocol.value.closed == Some(Error.Revoked) && OwnerOnly(slot, now)
  {
    hide Inv;
    ApplyKeepsInv(slot.protocol.value, Revoke);
  }

  lemma OwnerInputs(slot: Slot, input: Input)
    requires HasMachine(slot) && IsOpen(slot) && (input.Provided? || input.Admitted?)
    ensures var (now, error) := (WithInput(slot, input), Apply(slot.protocol.value, input).error);
            HasMachine(now) && now.protocol.value.closed == error && OwnerOnly(slot, now)
  {
    ApplyKeepsInv(slot.protocol.value, input);
    assert Apply(slot.protocol.value, input).error == Apply(slot.protocol.value, input).next.closed;
  }

  lemma ConcludedOf(slot: Slot, answer: Answer)
    requires HasMachine(slot) && HasMachine(answer.slot) && OwnerOnly(slot, answer.slot)
    requires IsClosed(slot) ==> answer == Answer(slot, slot.protocol.value.closed)
    requires answer.slot.protocol.value.closed in {None, answer.error}
    ensures TurnOf(slot, Concluded(answer), answer.error)
  {
    hide Inv, Shut, Apply;
    if answer.error.Some? {
      if IsClosed(answer.slot) {
        ClosedShut(answer.slot, answer.error.value);
      } else {
        OpenShut(answer.slot, answer.error.value);
      }
    }
  }

  lemma GivenTurns(slot: Slot, contract: Contract, sequence: U64, coded: Coded, revoked: (bool, bool))
    requires HasMachine(slot)
    ensures var answer := Given(slot, contract, sequence, coded, revoked);
            && HasMachine(answer.slot) && OwnerOnly(slot, answer.slot) && TurnOf(slot, Concluded(answer), answer.error)
            && (answer.error.None? ==> answer.slot == WithInput(slot, Provided(sequence, coded.length)))
  {
    hide Inv, Apply, EffectOf, Shut, Concluded, TurnOf;
    if IsOpen(slot) {
      RevokedInput(slot);
      if coded.Fits? { OwnerInputs(slot, Provided(sequence, coded.length)); }
    }
    ConcludedOf(slot, Given(slot, contract, sequence, coded, revoked));
  }

  lemma ReceivedTurns(slot: Slot, revoked: bool)
    requires HasMachine(slot)
    ensures var answer := Received(slot, revoked);
            && HasMachine(answer.slot) && OwnerOnly(slot, answer.slot) && TurnOf(slot, Concluded(answer), answer.error)
            && (answer.error.None? ==> answer.slot == WithInput(slot, Input.Admitted))
  {
    hide Inv, Apply, Shut, Concluded, TurnOf;
    if IsOpen(slot) {
      RevokedInput(slot);
      OwnerInputs(slot, Input.Admitted);
    }
    ConcludedOf(slot, Received(slot, revoked));
  }

  /** The link's waker is registered or was before; the rest of the slot is as it was. */
  predicate Registers(was: Slot, now: Slot) { now == was.(waker := now.waker) && (was.waker ==> now.waker) }

  function Failure(polled: Polled): Option<Error> {
    if polled.Fails? then Some(polled.error) else None
  }

  /** A poll may register the future's waker; apart from that a failed one is a failed turn and
      any other leaves the open link as it was, with a waker if the future is to wait. */
  lemma LookedTurns(slot: Slot, poll: Poll, revoked: (bool, bool), anew: bool) returns (parked: Slot)
    requires HasMachine(slot)
    ensures Registers(slot, parked) && HasMachine(parked)
    ensures var glance := Looked(slot, poll, revoked, anew);
            && HasMachine(glance.slot) && OwnerOnly(parked, glance.slot)
            && (IsClosed(slot) ==> glance == Glance(parked, Fails(slot.protocol.value.closed.value)))
            && glance.slot.protocol.value.closed in {None, Failure(glance.polled)}
            && (glance.polled.Fails? ==> TurnOf(parked, LookedOut(glance), Some(glance.polled.error)))
            && (!glance.polled.Fails? ==> glance.slot == parked && IsOpen(parked))
            && (glance.polled.Pending? ==> parked.waker)
  {
    hide Inv, Apply, EffectOf, Shut, Concluded, TurnOf, OwnerOnly;
    var glance := Looked(slot, poll, revoked, anew);
    parked := slot.(waker := glance.slot.waker);
    if IsOpen(slot) {
      RevokedInput(parked);
      SameOwner(parked);
    } else {
      SameOwner(parked);
    }
    if glance.polled.Fails? { ConcludedOf(parked, Answer(glance.slot, Some(glance.polled.error))); }
  }

  lemma SameOwner(slot: Slot)
    ensures OwnerOnly(slot, slot)
  {
  }

  // --- The driver's calls as a relation between its states ---

  /** All of the driver that its calls change, with what the kernel owes it. */
  datatype View = View(
    bytes: nat, admitting: bool, hints: bool, queued: nat, cursor: nat, slots: seq<Slot>, queue: seq<nat>,
    kernel: set<U64>)

  ghost predicate Sound(s: View) {
    && ValidCapacity(s.bytes) && s.cursor < |s.slots|
    && AllSlots(s.slots) && KernelInv(s.slots, s.kernel) && Attended(s.slots, s.queue)
  }

  /** What a call did: dispatched records over so many slots, or made a pass. */
  datatype Report = Quiet | Dispatches(records: nat, steps: nat) | MadePass(t: Turnover)

  /** The completions, requests and dispatched records of one call. */
  function Work(report: Report): nat {
    match report
    case Quiet => 0
    case Dispatches(records, _) => records
    case MadePass(t) => |t.cqes| + Entries(t.trace)
  }

  predicate Holds(s: View, index: nat) { index < |s.slots| && s.slots[index].alive && HasMachine(s.slots[index]) }

  function AtIndex(s: View, index: nat, slot: Slot): View
    requires index < |s.slots|
  {
    s.(slots := s.slots[index := slot], queue := Enqueued(s.queue, index))
  }

  /** The first slot free for a new link. */
  predicate FirstFree(slots: seq<Slot>, i: nat) {
    i < |slots| && Free(slots[i]) && forall j :: 0 <= j < i ==> !Free(slots[j])
  }

  predicate Attaches(a: View, i: nat, contract: Contract, direction: Direction, b: View) {
    && FirstFree(a.slots, i) && ValidCapacity(a.bytes)
    && b == AtIndex(a, i, Attached(a.slots[i], contract, direction, a.bytes))
  }

  /** The nonempty records of the slots within `steps` of the cursor. */
  function Recorded(slots: seq<Slot>, cursor: nat, steps: nat): nat
    requires cursor < |slots| && steps <= |slots|
  {
    if steps == 0 then 0
    else
      WrappedOffset(cursor, steps - 1, |slots|);
      Recorded(slots, cursor, steps - 1)
      + if slots[Wrapped(cursor, steps - 1, |slots|)].work.IsEmpty() then 0 else 1
  }

  /** A pass over state `a`: which completions it consumes, its visits, and what they leave. */
  ghost predicate PassOf(a: View, budget: Budget, deferred: bool, cqes: seq<Cqe>, t: Turnover, b: View) {
    && TurnoverInv(t, |a.slots|) && t.deferred == deferred && t.hints == b.hints && t.drained == (a.queued == 0)
    && b.hints == HintsLeft(a.slots, t.cqes, a.hints)
    && t.was == a.slots && t.pass.before == a.queue && t.now == b.slots && t.pass.after == b.queue
    && t.cqes == cqes[..Min(|cqes|, budget.completions)]
    && Entries(t.trace) <= budget.submissions
    && (Entries(t.trace) < budget.submissions ==> forall x :: x in a.queue ==> x in Reached(t.trace))
    && a.kernel - Tokens(t.cqes) <= b.kernel && |b.kernel| == |a.kernel| - |t.cqes| + Entries(t.trace)
    && WindsAll(a.slots, b.slots, |t.cqes| + Entries(t.trace))
    && b.queued <= a.queued + Entries(t.trace)
    && b.bytes == a.bytes && b.admitting == a.admitting && b.cursor == a.cursor
  }

  ghost predicate StepOf(a: View, call: Call, report: Report, b: View) {
    match call
    case Attach(contract, direction, refused) =>
      report.Quiet?
      && if a.admitting && refused.None? && exists i: nat :: FirstFree(a.slots, i) then
           exists i: nat :: Attaches(a, i, contract, direction, b)
         else b == a
    case Export(index, contract, sequence, coded, revoked) =>
      report.Quiet?
      && if Holds(a, index) then
           var answer := Given(a.slots[index], contract, sequence, coded, revoked);
           HasMachine(answer.slot) && b == AtIndex(a, index, Concluded(answer))
         else b == a
    case Import(index, lost) =>
      report.Quiet?
      && if Holds(a, index) then
           var answer := Received(a.slots[index], lost);
           HasMachine(answer.slot) && b == AtIndex(a, index, Concluded(answer))
         else b == a
    case Look(index, poll, revoked, anew) =>
      report.Quiet?
      && if Holds(a, index) then
           var glance := Looked(a.slots[index], poll, revoked, anew);
           && HasMachine(glance.slot)
           && b == if glance.polled.Fails? then AtIndex(a, index, LookedOut(glance))
                   else a.(slots := a.slots[index := glance.slot])
         else b == a
    case Drop(index) =>
      report.Quiet? && b == if Holds(a, index) then AtIndex(a, index, Dropped(a.slots[index])) else a
    case Stop =>
      && report.Quiet? && b == a.(admitting := false, slots := b.slots, queue := b.queue)
      && Joined(a.queue, b.queue) && |b.slots| == |a.slots|
      && forall i :: 0 <= i < |a.slots| ==> SlotMachineInv(a.slots[i]) && b.slots[i] == Cancelled(a.slots[i])
    case Dispatch(records) =>
      && report.Dispatches? && report.steps <= |a.slots| && a.cursor < |a.slots|
      && report.records == Recorded(a.slots, a.cursor, report.steps) <= records
      && (report.steps < |a.slots| ==> report.records == records)
      && DispatchedFrom(a.slots, b.slots, a.cursor, report.steps) && WindsAll(a.slots, b.slots, report.records)
      && b == a.(slots := b.slots, cursor := b.cursor) && b.cursor == Wrapped(a.cursor, report.steps, |a.slots|)
    case Advance(budget, deferred, cqes) =>
      if IsPass(call) then report.MadePass? && PassOf(a, budget, deferred, Answers(a.slots, cqes), report.t, b)
      else report.Quiet? && b == a
  }

  /** A sequence of calls, what each did, and the states between them. */
  ghost predicate Runs(states: seq<View>, calls: seq<Call>, reports: seq<Report>) {
    && |states| == |calls| + 1 && |reports| == |calls|
    && (forall i :: 0 <= i < |states| ==> Sound(states[i]))
    && forall i :: 0 <= i < |calls| ==> StepOf(states[i], calls[i], reports[i], states[i + 1])
  }

  lemma NoCalls(s: View)
    requires Sound(s)
    ensures Runs([s], [], [])
  {
  }

  lemma RunsOn(states: seq<View>, calls: seq<Call>, reports: seq<Report>, k: nat, report: Report, now: View)
    requires k < |calls| && Runs(states, calls[..k], reports) && Sound(now)
    requires StepOf(states[k], calls[k], report, now)
    ensures Runs(states + [now], calls[..k + 1], reports + [report])
  {
    hide Sound, StepOf;
    var (more, said) := (states + [now], reports + [report]);
    forall i | 0 <= i < k + 1 ensures StepOf(more[i], calls[..k + 1][i], said[i], more[i + 1]) {
      if i < k { assert StepOf(states[i], calls[..k][i], reports[i], states[i + 1]); }
    }
  }

  // --- What links and ring keep from pass to pass ---

  lemma StepKeeps(a: View, call: Call, report: Report, b: View)
    requires Sound(a) && StepOf(a, call, report, b) && !IsPass(call)
    ensures Joined(a.queue, b.queue) && Kept(a.slots, b.slots)
  {
    hide Dispatched, Attended, AllSlots, KernelInv, Cancelled, Given, Received, Concluded, TurnOf, Kept, Joined;
    hide Enqueued;
    KeptStill(a.slots, a.queue);
    match call {
      case Attach(contract, direction, refused) =>
        if b != a {
          var i: nat :| Attaches(a, i, contract, direction, b);
          KeptAt(a.slots, i, b.slots[i]);
          JoinedPush(a.queue, a.queue, i);
        }
      case Export(index, contract, sequence, coded, revoked) =>
        if Holds(a, index) {
          GivenTurns(a.slots[index], contract, sequence, coded, revoked);
          TurnKeeps(a, index, b.slots[index], Given(a.slots[index], contract, sequence, coded, revoked).error);
        }
      case Import(index, lost) =>
        if Holds(a, index) {
          ReceivedTurns(a.slots[index], lost);
          TurnKeeps(a, index, b.slots[index], Received(a.slots[index], lost).error);
        }
      case Look(index, poll, revoked, anew) =>
        if Holds(a, index) {
          LookedKeeps(a.slots[index], poll, revoked, anew);
          KeptAt(a.slots, index, b.slots[index]);
          JoinedPush(a.queue, a.queue, index);
        }
      case Drop(index) =>
        if Holds(a, index) {
          DroppedKeeps(a.slots[index]);
          KeptAt(a.slots, index, b.slots[index]);
          JoinedPush(a.queue, a.queue, index);
        }
      case Stop => CancelledKeeps(a.slots, b.slots);
      case Dispatch(_) => DispatchedKeeps(a.slots, b.slots, a.cursor, report.steps);
      case Advance(_, _, _) =>
    }
  }

  lemma TurnKeeps(a: View, index: nat, slot: Slot, error: Option<Error>)
    requires index < |a.slots| && HasMachine(a.slots[index]) && TurnOf(a.slots[index], slot, error)
    ensures Kept(a.slots, a.slots[index := slot]) && Joined(a.queue, Enqueued(a.queue, index))
  {
    KeptAt(a.slots, index, slot);
    KeptStill(a.slots, a.queue);
    JoinedPush(a.queue, a.queue, index);
  }

  lemma DroppedKeeps(slot: Slot)
    requires HasMachine(slot)
    ensures SameMarks(slot, Dropped(slot))
  {
  }

  lemma LookedKeeps(slot: Slot, poll: Poll, revoked: (bool, bool), anew: bool)
    requires HasMachine(slot)
    ensures var glance := Looked(slot, poll, revoked, anew);
            && HasMachine(glance.slot) && SameMarks(slot, glance.slot)
            && (glance.polled.Fails? ==> SameMarks(slot, LookedOut(glance)))
  {
    hide Looked, LookedOut, Inv;
    var parked := LookedTurns(slot, poll, revoked, anew);
  }

  function Turnovers(reports: seq<Report>): seq<Turnover> {
    if reports == [] then []
    else
      var last := reports[|reports| - 1];
      Turnovers(reports[..|reports| - 1]) + if last.MadePass? then [last.t] else []
  }

  /** The passes of any sequence of calls form one run of passes. */
  lemma {:induction false} PassesRun(states: seq<View>, calls: seq<Call>, reports: seq<Report>)
    requires Runs(states, calls, reports)
    ensures var run := Turnovers(reports);
            && RunOf(run, |states[0].slots|) && |run| == PassCount(calls)
            && |states[|calls|].slots| == |states[0].slots|
            && Leads(run, states[0].slots, states[0].queue, states[|calls|].slots, states[|calls|].queue)
    decreases |calls|
  {
    var n := |calls|;
    if n == 0 {
      KeptStill(states[0].slots, states[0].queue);
    } else {
      assert calls[..n - 1] + [calls[n - 1]] == calls;
      RunsBefore(states, calls, reports);
      PassesRun(states[..n], calls[..n - 1], reports[..n - 1]);
      var (a, b) := (states[n - 1], states[n]);
      assert StepOf(a, calls[n - 1], reports[n - 1], states[n - 1 + 1]) && Sound(a);
      var run := Turnovers(reports[..n - 1]);
      if IsPass(calls[n - 1]) {
        TurnoverOf(a, calls[n - 1], reports[n - 1], b);
        hide Runs, StepOf, RunOf, TurnoverInv, Leads, Sound;
        RunGrows(run, reports[n - 1].t, |a.slots|, states[0].slots, states[0].queue);
      } else {
        StepKeeps(a, calls[n - 1], reports[n - 1], b);
        NoPassMade(a, calls[n - 1], reports[n - 1], b);
        hide Runs, StepOf, RunOf, TurnoverInv, Leads, Sound;
        LeadsOn(run, states[0].slots, states[0].queue, a.slots, a.queue, b.slots, b.queue);
        KeptSize(a.slots, b.slots);
      }
    }
  }

  lemma RunsBefore(states: seq<View>, calls: seq<Call>, reports: seq<Report>)
    requires Runs(states, calls, reports) && calls != []
    ensures Runs(states[..|calls|], calls[..|calls| - 1], reports[..|calls| - 1])
  {
    hide StepOf, Sound;
    var n := |calls|;
    forall i | 0 <= i < n - 1 ensures StepOf(states[..n][i], calls[..n - 1][i], reports[..n - 1][i],
                                             states[..n][i + 1]) {
      assert StepOf(states[i], calls[i], reports[i], states[i + 1]);
    }
  }

  lemma TurnoverOf(a: View, call: Call, report: Report, b: View)
    requires StepOf(a, call, report, b) && IsPass(call)
    ensures report.MadePass? && TurnoverInv(report.t, |a.slots|) && |b.slots| == |a.slots|
    ensures report.t.was == a.slots && report.t.pass.before == a.queue
    ensures report.t.now == b.slots && report.t.pass.after == b.queue
  {
    hide TurnoverInv, WindsAll;
    assert TurnoverInv(report.t, |a.slots|);
    TurnoverSize(report.t, |a.slots|);
  }

  lemma TurnoverSize(t: Turnover, links: nat)
    requires TurnoverInv(t, links)
    ensures |t.now| == links
  {
    hide Attended, Fair, SlotRun, Genuine, Scanned, Ends;
  }

  lemma NoPassMade(a: View, call: Call, report: Report, b: View)
    requires StepOf(a, call, report, b) && !IsPass(call)
    ensures !report.MadePass?
  {
  }

  lemma KeptSize(was: seq<Slot>, now: seq<Slot>)
    requires Kept(was, now)
    ensures |was| == |now|
  {
  }

  // --- A stopped driver ---

  /** Admission has stopped and no link is open. */
  predicate Stopped(s: View) { !s.admitting && AllShut(s.slots) }

  /** The call drops a future still held. */
  predicate Drops(s: View, call: Call) { call.Drop? && Holds(s, call.index) }

  predicate NoNewTransfers(before: set<U64>, after: set<U64>) {
    forall token :: token in after && !TokenCancels(token) ==> token in before
  }

  lemma TurnWinds(was: Slot, now: Slot, error: Option<Error>)
    requires HasMachine(was) && TurnOf(was, now, error)
    ensures Winds(was, now, 0)
  {
    if ShutSlot(was) { MarkedWinds(was, now); }
  }

  lemma DroppedDebt(slot: Slot)
    requires HasMachine(slot) && ShutSlot(slot)
    ensures ShutSlot(Dropped(slot)) && SlotDebt(Dropped(slot)) <= SlotDebt(slot) + 2
  {
    ClosedShut(slot, Error.Closed);
  }

  lemma DropDebt(slots: seq<Slot>, index: nat)
    requires index < |slots| && HasMachine(slots[index]) && AllShut(slots)
    ensures AllShut(slots[index := Dropped(slots[index])])
    ensures Debt(slots[index := Dropped(slots[index])]) <= Debt(slots) + 2
  {
    hide SlotDebt, Dropped, Inv;
    DroppedDebt(slots[index]);
    DebtAt(slots, index, Dropped(slots[index]));
  }

  lemma CancelledWinds(slot: Slot)
    requires SlotMachineInv(slot)
    ensures Winds(slot, Cancelled(slot), 0)
  {
    hide Inv, Refresh, Winds, SlotDebt;
    if ShutSlot(slot) {
      var marked := if slot.protocol.Some? then slot.(contended := false) else slot;
      if slot.protocol.Some? { ClosedShut(slot, Error.Closed); }
      MarkedWinds(slot, marked);
      RefreshWinds(marked);
      WindsOn(slot, marked, Refresh(marked), 0, 0);
    } else {
      ShutAside(slot, Cancelled(slot));
    }
  }

  lemma ShutAside(was: Slot, now: Slot)
    requires !ShutSlot(was)
    ensures Winds(was, now, 0)
  {
  }

  lemma {:induction false} WindsEach(was: seq<Slot>, now: seq<Slot>)
    requires |was| == |now| && forall i :: 0 <= i < |was| ==> Winds(was[i], now[i], 0)
    ensures WindsAll(was, now, 0)
    decreases |was|
  {
    hide SlotDebt;
    if was != [] {
      WindsEach(was[1..], now[1..]);
      assert was == [was[0]] + was[1..] && now == [now[0]] + now[1..];
      assert Winds(was[0], now[0], 0);
      if AllShut(was) {
        assert AllShut(was[1..]);
        assert ShutSlot(was[0]) && ShutSlot(now[0]);
        forall i | 0 <= i < |now| ensures ShutSlot(now[i]) { assert Winds(was[i], now[i], 0) && ShutSlot(was[i]); }
      }
    }
  }

  lemma LookedWinds(slot: Slot, poll: Poll, revoked: (bool, bool), anew: bool)
    requires HasMachine(slot)
    ensures var glance := Looked(slot, poll, revoked, anew);
            HasMachine(glance.slot) && Winds(slot, LookedOut(glance), 0)
  {
    hide Looked, Inv, TurnOf, OwnerOnly, Winds, SlotDebt, Concluded;
    var parked := LookedTurns(slot, poll, revoked, anew);
    var glance := Looked(slot, poll, revoked, anew);
    ParkedWinds(slot, parked);
    if glance.polled.Fails? {
      TurnWinds(parked, LookedOut(glance), Some(glance.polled.error));
      WindsOn(slot, parked, LookedOut(glance), 0, 0);
    }
  }

  lemma ParkedWinds(slot: Slot, parked: Slot)
    requires Registers(slot, parked)
    ensures Winds(slot, parked, 0)
  {
  }

  lemma TurnStops(a: View, index: nat, slot: Slot, error: Option<Error>)
    requires index < |a.slots| && HasMachine(a.slots[index]) && TurnOf(a.slots[index], slot, error)
    ensures WindsAll(a.slots, a.slots[index := slot], 0)
  {
    hide Winds, TurnOf;
    TurnWinds(a.slots[index], slot, error);
    WindsAt(a.slots, index, slot, 0);
  }

  /** Every call but a drop winds the table down by the work it did. */
  lemma StepWinds(a: View, call: Call, report: Report, b: View)
    requires StepOf(a, call, report, b) && !a.admitting && !Drops(a, call)
    ensures WindsAll(a.slots, b.slots, Work(report)) && !b.admitting
  {
    hide WindsAll, Dispatched, Cancelled, Given, Received, Concluded, TurnOf, Winds, TurnoverInv, Dropped, Looked;
    WindsStill(a.slots);
    match call {
      case Attach(_, _, _) =>
      case Export(index, contract, sequence, coded, revoked) =>
        if Holds(a, index) {
          GivenTurns(a.slots[index], contract, sequence, coded, revoked);
          TurnStops(a, index, b.slots[index], Given(a.slots[index], contract, sequence, coded, revoked).error);
        }
      case Import(index, lost) =>
        if Holds(a, index) {
          ReceivedTurns(a.slots[index], lost);
          TurnStops(a, index, b.slots[index], Received(a.slots[index], lost).error);
        }
      case Look(index, poll, revoked, anew) =>
        if Holds(a, index) {
          LookedWinds(a.slots[index], poll, revoked, anew);
          WindsAt(a.slots, index, b.slots[index], 0);
        }
      case Drop(index) =>
      case Stop =>
        forall i | 0 <= i < |a.slots| ensures Winds(a.slots[i], b.slots[i], 0) { CancelledWinds(a.slots[i]); }
        WindsEach(a.slots, b.slots);
      case Dispatch(_) =>
      case Advance(_, _, _) =>
    }
  }

  lemma StepStops(a: View, call: Call, report: Report, b: View)
    requires Sound(a) && Sound(b) && StepOf(a, call, report, b) && Stopped(a)
    ensures Stopped(b) && Work(report) + Debt(b.slots) <= Debt(a.slots) + if Drops(a, call) then 2 else 0
    ensures NoNewTransfers(a.kernel, b.kernel)
  {
    if Drops(a, call) {
      hide Dropped, SlotDebt, Debt;
      DropDebt(a.slots, call.index);
    } else {
      hide Debt, Winds, KernelInv, AllShut;
      StepWinds(a, call, report, b);
      hide StepOf;
      NoNewTransfer(a.slots, b.slots, a.kernel, b.kernel, Work(report));
    }
  }

  function Total(reports: seq<Report>, n: nat): nat
    requires n <= |reports|
  {
    if n == 0 then 0 else Total(reports, n - 1) + Work(reports[n - 1])
  }

  /** How many of the first `n` calls drop a future. */
  function DropCount(states: seq<View>, calls: seq<Call>, n: nat): nat
    requires n <= |calls| < |states|
  {
    if n == 0 then 0 else DropCount(states, calls, n - 1) + if Drops(states[n - 1], calls[n - 1]) then 1 else 0
  }

  /** Once stopped, a driver stays stopped whatever is called, and everything it still completes,
      cancels or dispatches adds up to at most the debt it had and two steps a future dropped. */
  lemma {:induction false} StoppedRun(states: seq<View>, calls: seq<Call>, reports: seq<Report>, k: nat, n: nat)
    requires Runs(states, calls, reports) && k <= n <= |calls| && Stopped(states[k])
    ensures Stopped(states[n])
    ensures Total(reports, n) - Total(reports, k) + Debt(states[n].slots)
            <= Debt(states[k].slots) + 2 * (DropCount(states, calls, n) - DropCount(states, calls, k))
    decreases n
  {
    hide Sound, StepOf, Debt, Work, Drops;
    if k < n {
      StoppedRun(states, calls, reports, k, n - 1);
      assert StepOf(states[n - 1], calls[n - 1], reports[n - 1], states[n - 1 + 1]);
      StepStops(states[n - 1], calls[n - 1], reports[n - 1], states[n]);
    }
  }

  /** Between any two states of a stopped driver's run the kernel comes to owe no transfer it
      did not owe before. */
  lemma {:induction false} NoTransferEver(states: seq<View>, calls: seq<Call>, reports: seq<Report>, k: nat, i: nat,
                                          j: nat)
    requires Runs(states, calls, reports) && k <= i <= j <= |calls| && Stopped(states[k])
    ensures NoNewTransfers(states[i].kernel, states[j].kernel)
    decreases j
  {
    hide Sound, StepOf, Debt, Work, Drops;
    if i < j {
      NoTransferEver(states, calls, reports, k, i, j - 1);
      StoppedRun(states, calls, reports, k, j - 1);
      assert StepOf(states[j - 1], calls[j - 1], reports[j - 1], states[j - 1 + 1]);
      StepStops(states[j - 1], calls[j - 1], reports[j - 1], states[j]);
    }
  }

  lemma CancelledIsShut(slot: Slot)
    requires SlotMachineInv(slot)
    ensures ShutSlot(Cancelled(slot))
  {
    hide Inv;
  }

  /** After `cancel_all`, whatever the owners and the host go on to call, no data operation is
      ever submitted again. */
  lemma NoTransferAfterStop(states: seq<View>, calls: seq<Call>, reports: seq<Report>, k: nat, i: nat, j: nat)
    requires Runs(states, calls, reports) && k < i <= j <= |calls| && calls[k].Stop?
    ensures Stopped(states[i]) && NoNewTransfers(states[i].kernel, states[j].kernel)
  {
    var (a, b) := (states[k], states[k + 1]);
    assert StepOf(a, calls[k], reports[k], b);
    hide Runs, Cancelled, ShutSlot;
    forall x | 0 <= x < |b.slots| ensures ShutSlot(b.slots[x]) { CancelledIsShut(a.slots[x]); }
    StoppedRun(states, calls, reports, k + 1, i);
    NoTransferEver(states, calls, reports, k + 1, i, j);
  }

  // --- When complete stays complete ---

  /** What `shutdown_complete` answers. */
  predicate ShutDown(s: View) { !s.admitting && s.kernel == {} && AllDone(s.slots) }

  /** The calls that look over every link. */
  predicate Sweeps(call: Call) { IsPass(call) || call.Stop? }

  predicate AnyAbandoned(slots: seq<Slot>) { exists i :: 0 <= i < |slots| && Abandoned(slots[i]) }

  lemma CancelledDone(slot: Slot, index: nat)
    requires SlotInv(slot, index) && SlotDone(slot) && SlotMachineInv(slot)
    ensures SlotDone(Cancelled(slot)) <==> !Abandoned(slot)
  {
    hide Inv;
    var marked := if slot.protocol.Some? then slot.(contended := false) else slot;
    if slot.protocol.Some? { ClosedShut(slot, Error.Closed); }
    RefreshKeepsDone(marked, index);
  }

  lemma DroppedDone(slot: Slot, index: nat)
    requires SlotInv(slot, index) && SlotDone(slot) && HasMachine(slot) && slot.alive
    ensures SlotDone(Dropped(slot))
  {
    DropUndoesDone(slot, index);
  }

  lemma TurnDone(was: Slot, now: Slot, error: Option<Error>)
    requires HasMachine(was) && TurnOf(was, now, error) && SlotDone(was)
    ensures SlotDone(now)
  {
  }

  lemma LookedDone(slot: Slot, poll: Poll, revoked: (bool, bool), anew: bool)
    requires HasMachine(slot) && SlotDone(slot)
    ensures var glance := Looked(slot, poll, revoked, anew);
            HasMachine(glance.slot) && SlotDone(LookedOut(glance))
  {
    hide Looked, Inv, TurnOf, Concluded;
    var parked := LookedTurns(slot, poll, revoked, anew);
    var glance := Looked(slot, poll, revoked, anew);
    if glance.polled.Fails? { TurnDone(parked, LookedOut(glance), Some(glance.polled.error)); }
  }

  lemma DispatchDone(was: seq<Slot>, now: seq<Slot>, cursor: nat, steps: nat)
    requires DispatchedFrom(was, now, cursor, steps) && AllDone(was)
    ensures now == was
  {
    hide Offset, Dispatched;
    forall i | 0 <= i < |was| ensures now[i] == was[i] { NothingDispatched(was[i]); }
  }

  lemma NothingOwed(slots: seq<Slot>, kernel: set<U64>, cqes: seq<Cqe>)
    requires KernelInv(slots, kernel) && kernel == {}
    ensures Answers(slots, cqes) == []
  {
    AnswersDelivered(slots, kernel, cqes);
  }

  /** From a table where all is done a pass enters nothing, and leaves all done exactly when no
      link is abandoned. */
  lemma PassCompletes(a: View, budget: Budget, deferred: bool, t: Turnover, b: View)
    requires Sound(a) && PassOf(a, budget, deferred, [], t, b) && AllDone(a.slots) && budget.submissions > 0
    ensures (AllDone(b.slots) <==> !AnyAbandoned(a.slots)) && Entries(t.trace) == 0
  {
    hide AllSlots, KernelInv, Attended, AllDone, Begins, TraceOf, Fair, Steady, Served, Reached, WindsAll, Abandoned;
    hide Entries;
    BeginsRested(t.was, t.revoked, t.scanned);
    DonePass(a.slots, a.queue, t.scanned, b.slots, t.trace, budget.submissions, t.deferred, t.hints);
  }

  lemma CompletePass(a: View, call: Call, report: Report, b: View)
    requires Sound(a) && StepOf(a, call, report, b) && ShutDown(a) && IsPass(call)
    ensures ShutDown(b) <==> !AnyAbandoned(a.slots)
  {
    hide AllSlots, KernelInv, Attended, AllDone, Begins, TraceOf, Fair, Steady, Served, Reached, WindsAll, Abandoned;
    hide Entries;
    hide TurnoverInv, AnyAbandoned;
    NothingOwed(a.slots, a.kernel, call.cqes);
    PassCompletes(a, call.budget, call.deferred, report.t, b);
    assert |b.kernel| == 0;
  }

  lemma BeginsRested(was: seq<Slot>, revoked: set<nat>, scanned: seq<Slot>)
    requires Begins(was, [], revoked, scanned)
    ensures Rested(was, scanned)
  {
    hide Scanned;
    assert Ends(was, []) == was;
    ScannedAll(was, scanned, revoked);
  }

  lemma CompleteStep(a: View, call: Call, report: Report, b: View)
    requires Sound(a) && StepOf(a, call, report, b) && ShutDown(a)
    ensures ShutDown(b) <==> !(Sweeps(call) && AnyAbandoned(a.slots))
  {
    if IsPass(call) {
      hide *;
      hide Sound, ShutDown, StepOf, AnyAbandoned;
      CompletePass(a, call, report, b);
    } else {
      hide Given, Received, Looked, Concluded, TurnOf, Dropped, Cancelled, SlotDone, Abandoned, Inv, SlotInv, KernelInv;
      hide Attended;
      match call {
        case Attach(_, _, _) =>
        case Export(index, contract, sequence, coded, revoked) =>
          if Holds(a, index) {
            GivenTurns(a.slots[index], contract, sequence, coded, revoked);
            TurnDone(a.slots[index], b.slots[index], Given(a.slots[index], contract, sequence, coded, revoked).error);
          }
        case Import(index, lost) =>
          if Holds(a, index) {
            ReceivedTurns(a.slots[index], lost);
            TurnDone(a.slots[index], b.slots[index], Received(a.slots[index], lost).error);
          }
        case Look(index, poll, revoked, anew) =>
          if Holds(a, index) { LookedDone(a.slots[index], poll, revoked, anew); }
        case Drop(index) =>
          if Holds(a, index) { DroppedDone(a.slots[index], index); }
        case Stop =>
          forall i | 0 <= i < |a.slots| ensures SlotDone(b.slots[i]) <==> !Abandoned(a.slots[i]) {
            assert SlotInv(a.slots[i], i) && SlotDone(a.slots[i]);
            CancelledDone(a.slots[i], i);
          }
        case Dispatch(_) => DispatchDone(a.slots, b.slots, a.cursor, report.steps);
        case Advance(_, _, _) =>
      }
    }
  }

  /** From a complete state shutdown stays complete over any calls if and only if no pass and no
      further stop begins while a link is abandoned. */
  lemma {:induction false} CompleteRun(states: seq<View>, calls: seq<Call>, reports: seq<Report>, n: nat)
    requires Runs(states, calls, reports) && ShutDown(states[0]) && n <= |calls|
    ensures (forall i :: 0 <= i <= n ==> ShutDown(states[i]))
            <==> forall i :: 0 <= i < n && Sweeps(calls[i]) ==> !AnyAbandoned(states[i].slots)
    decreases n
  {
    hide Sound, StepOf, ShutDown, Sweeps, AnyAbandoned;
    if n > 0 {
      CompleteRun(states, calls, reports, n - 1);
      assert StepOf(states[n - 1], calls[n - 1], reports[n - 1], states[n - 1 + 1]);
      if ShutDown(states[n - 1]) { CompleteStep(states[n - 1], calls[n - 1], reports[n - 1], states[n]); }
    }
  }
}
