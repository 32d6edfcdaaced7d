/** The static stream's waiters: who wakes a parked send or receive, step by step. */
module Wakeups {
  import opened Wire

  datatype Interest = Sends | Receives

  /** The state's `changed` bits: which interests an access may have unblocked. */
  datatype Bits = Bits(send: bool, receive: bool) {
    predicate Has(interest: Interest) { if interest.Sends? then send else receive }
  }

  const NONE: Bits := Bits(false, false)

  datatype Slot = Slot(interest: Option<Interest>, waker: bool, woken: bool)

  /** A strict call leaves the wake-ups to maintenance; every other call dispatches them. */
  datatype Style = Strict | Dispatching

  /** Rounds 1 and 2 are the two accesses of one poll; 0 is any other call. */
  datatype Pc =
    | Resting
    | TryFirst(round: nat)
    | Mark(round: nat)
    | TrySecond(round: nat)
    | Inside(style: Style, round: nat)
    | Accessed(style: Style, round: nat, ready: bool)
    | Taken(bits: Bits, round: nat, ready: bool)
    | Swap(bits: Bits, round: nat, ready: bool)
    | Visit(bits: Bits, seen: bool, at: nat, round: nat, ready: bool)
    | SetInterest
    | SetWaker
    | Parked

  /** Threads below `|slots|` are the pending futures, each with its own claimed slot;
      `possible` says whose operation would succeed now. */
  datatype System = System(
    roles: seq<Interest>, holder: Option<nat>, changed: Bits, contended: bool, slots: seq<Slot>, possible: seq<bool>,
    pcs: seq<Pc>)

  datatype Start = Poll | With | TryWith | TryStrict | Cancel

  /** What an access does under the lock: the new bits and what is possible afterwards. */
  datatype Choice = Choice(start: Start, changed: Bits, possible: seq<bool>)

  predicate Includes(a: Bits, b: Bits) { (b.send ==> a.send) && (b.receive ==> a.receive) }

  /** Whatever an access makes possible for a pending future it records in the changed bits. */
  predicate Honest(s: System, choice: Choice)
    requires Shaped(s)
  {
    && |choice.possible| == |s.possible| && Includes(choice.changed, s.changed)
    && forall w :: 0 <= w < |s.possible| && choice.possible[w] && !s.possible[w] && !s.pcs[w].Resting? ==>
         choice.changed.Has(s.roles[w])
  }

  predicate Shaped(s: System) {
    |s.roles| == |s.slots| == |s.possible| <= |s.pcs|
  }

  predicate Enabled(s: System, t: nat, choice: Choice)
    requires Shaped(s)
  {
    && t < |s.pcs|
    && match s.pcs[t]
       case Resting =>
         (match choice.start
          case Poll => t < |s.slots|
          case With => s.holder.None?
          case TryWith => true
          case TryStrict => s.holder.None?
          case Cancel => false)
       case Inside(_, round) =>
         Honest(s, choice)
         && (round > 0 && t < |s.slots| && !s.possible[t] ==>
              choice.changed == s.changed && choice.possible == s.possible)
       case SetInterest => t < |s.slots|
       case SetWaker => t < |s.slots|
       case Parked => t < |s.slots| && (choice.start.Poll? || choice.start.Cancel?)
       case _ => true
  }

  function At(s: System, t: nat, pc: Pc): System
    requires t < |s.pcs|
  {
    s.(pcs := s.pcs[t := pc])
  }

  /** After a dispatched access: a ready or plain call is over, an unready poll registers
      and tries again, and after that it parks. */
  function After(round: nat, ready: bool): Pc {
    if round == 0 || ready then Resting else if round == 1 then SetInterest else Parked
  }

  function Next(s: System, t: nat, choice: Choice): System
    requires Shaped(s) && Enabled(s, t, choice)
  {
    match s.pcs[t]
    case Resting =>
      (match choice.start
       case Poll => At(s, t, TryFirst(1))
       case With => At(s.(holder := Some(t)), t, Inside(Dispatching, 0))
       case TryWith => At(s, t, TryFirst(0))
       case TryStrict => At(s.(holder := Some(t)), t, Inside(Strict, 0))
       case Cancel => s)
    case TryFirst(round) =>
      if s.holder.None? then At(s.(holder := Some(t)), t, Inside(Dispatching, round)) else At(s, t, Mark(round))
    case Mark(round) => At(s.(contended := true), t, TrySecond(round))
    case TrySecond(round) =>
      if s.holder.None? then At(s.(holder := Some(t)), t, Inside(Dispatching, round))
      else At(s, t, After(round, false))
    case Inside(style, round) =>
      At(s.(changed := choice.changed, possible := choice.possible), t,
         Accessed(style, round, t < |s.slots| && s.possible[t]))
    case Accessed(style, round, ready) =>
      if style.Strict? then At(s.(holder := None), t, Resting)
      else At(s.(changed := NONE), t, Taken(s.changed, round, ready))
    case Taken(bits, round, ready) => At(s.(holder := None), t, Swap(bits, round, ready))
    case Swap(bits, round, ready) => At(s.(contended := false), t, Visit(bits, s.contended, 0, round, ready))
    case Visit(bits, seen, at, round, ready) =>
      if at >= |s.slots| then At(s, t, After(round, ready))
      else
        At(s.(slots := s.slots[at := Visited(s.slots[at], bits, seen)]), t, Visit(bits, seen, at + 1, round, ready))
    case SetInterest => At(s.(slots := s.slots[t := s.slots[t].(interest := Some(s.roles[t]))]), t, SetWaker)
    case SetWaker => At(s.(slots := s.slots[t := s.slots[t].(waker := true, woken := false)]), t, TryFirst(2))
    case Parked =>
      if choice.start.Poll? then At(s, t, TryFirst(1))
      else At(s.(slots := s.slots[t := s.slots[t].(waker := false)]), t, Resting)
  }

  /** A visited slot is woken when its interest changed or anyone reported contention. */
  function Visited(slot: Slot, bits: Bits, seen: bool): Slot {
    if (seen || (slot.interest.Some? && bits.Has(slot.interest.value))) && slot.waker
    then slot.(waker := false, woken := true) else slot
  }

  // --- Invariant ---

  predicate Locks(pc: Pc) { pc.Inside? || pc.Accessed? || pc.Taken? }

  predicate Registered(s: System, w: nat)
    requires Shaped(s) && w < |s.slots|
  {
    s.slots[w].interest == Some(s.roles[w]) && (s.slots[w].waker || s.slots[w].woken)
  }

  /** The thread will still wake slot `w` for a change of `interest`. */
  predicate Bears(pc: Pc, w: nat, interest: Interest) {
    match pc
    case Taken(bits, _, _) => bits.Has(interest)
    case Swap(bits, _, _) => bits.Has(interest)
    case Visit(bits, seen, at, _, _) => at <= w && (seen || bits.Has(interest))
    case _ => false
  }

  predicate Sweeps(pc: Pc, w: nat) { pc.Visit? && pc.seen && pc.at <= w }

  predicate Borne(pcs: seq<Pc>, w: nat, interest: Interest) {
    exists t :: 0 <= t < |pcs| && Bears(pcs[t], w, interest)
  }

  predicate Swept(pcs: seq<Pc>, w: nat) { exists t :: 0 <= t < |pcs| && Sweeps(pcs[t], w) }

  /** The contention this future reported is still on record or being acted on. */
  predicate Flagged(s: System, w: nat)
    requires Shaped(s) && w < |s.slots|
  {
    s.slots[w].woken || s.contended || Swept(s.pcs, w)
  }

  /** No lost wake-up for one future. */
  predicate Covered(s: System, w: nat)
    requires Shaped(s) && w < |s.slots|
  {
    || s.slots[w].woken || !s.possible[w] || s.contended || s.changed.Has(s.roles[w])
    || Borne(s.pcs, w, s.roles[w])
  }

  predicate FutureInv(s: System, w: nat)
    requires Shaped(s) && w < |s.slots|
  {
    match s.pcs[w]
    case TryFirst(round) => round == 2 ==> Registered(s, w)
    case Mark(round) => round == 2 ==> Registered(s, w)
    case TrySecond(round) => round == 2 ==> Registered(s, w) && Flagged(s, w)
    case Inside(_, round) => round == 2 ==> Registered(s, w)
    case Accessed(_, round, ready) => round == 2 && !ready ==> Registered(s, w) && Covered(s, w)
    case Taken(_, round, ready) => round == 2 && !ready ==> Registered(s, w) && Covered(s, w)
    case Swap(_, round, ready) => round == 2 && !ready ==> Registered(s, w) && Covered(s, w)
    case Visit(_, _, _, round, ready) => round == 2 && !ready ==> Registered(s, w) && Covered(s, w)
    case Parked => Registered(s, w) && Covered(s, w)
    case SetWaker => s.slots[w].interest == Some(s.roles[w])
    case _ => true
  }

  predicate Calling(pc: Pc) {
    pc.TryFirst? || pc.Mark? || pc.TrySecond? || pc.Inside? || pc.Accessed? || pc.Taken? || pc.Swap? || pc.Visit?
  }

  predicate RoundsInv(s: System, t: nat)
    requires t < |s.pcs|
  {
    var pc := s.pcs[t];
    && (Calling(pc) ==> pc.round <= 2 && (pc.round > 0 ==> t < |s.slots|))
    && ((pc.Inside? || pc.Accessed?) && pc.style.Strict? ==> pc.round == 0)
    && (pc.SetInterest? || pc.SetWaker? || pc.Parked? ==> t < |s.slots|)
    && (Locks(pc) <==> s.holder == Some(t))
  }

  predicate SystemInv(s: System) {
    && Shaped(s)
    && (s.holder.Some? ==> s.holder.value < |s.pcs|)
    && (forall t :: 0 <= t < |s.pcs| ==> RoundsInv(s, t))
    && (forall w :: 0 <= w < |s.slots| ==> FutureInv(s, w))
  }

  // --- One step leaves every future registered, covered and flagged ---

  /** A step of thread `t` loses none of what protects future `w`. */
  predicate Keeps(s: System, now: System, w: nat)
    requires Shaped(s) && Shaped(now) && w < |s.slots| == |now.slots|
  {
    && now.roles[w] == s.roles[w] && now.slots[w].interest == s.slots[w].interest
    && (Registered(s, w) ==>
      Registered(now, w) && (Covered(s, w) && !s.pcs[w].Resting? ==> Covered(now, w))
        && (Flagged(s, w) ==> Flagged(now, w)))
  }

  lemma BorneStays(pcs: seq<Pc>, t: nat, pc: Pc, w: nat, interest: Interest)
    requires t < |pcs|
    ensures Bears(pc, w, interest) || (Borne(pcs, w, interest) && !Bears(pcs[t], w, interest)) ==>
              Borne(pcs[t := pc], w, interest)
    ensures Sweeps(pc, w) || (Swept(pcs, w) && !Sweeps(pcs[t], w)) ==> Swept(pcs[t := pc], w)
  {
    var now := pcs[t := pc];
    if Bears(pc, w, interest) { assert Bears(now[t], w, interest); }
    if Borne(pcs, w, interest) && !Bears(pcs[t], w, interest) {
      var o :| 0 <= o < |pcs| && Bears(pcs[o], w, interest);
      assert Bears(now[o], w, interest);
    }
    if Sweeps(pc, w) { assert Sweeps(now[t], w); }
    if Swept(pcs, w) && !Sweeps(pcs[t], w) {
      var o :| 0 <= o < |pcs| && Sweeps(pcs[o], w);
      assert Sweeps(now[o], w);
    }
  }

  /** Steps that only move the program counter or the lock. */
  lemma MovesKeep(s: System, t: nat, choice: Choice, w: nat)
    requires SystemInv(s) && Enabled(s, t, choice) && w < |s.slots|
    requires s.pcs[t].Resting? || s.pcs[t].TryFirst? || s.pcs[t].Mark? || s.pcs[t].TrySecond? || s.pcs[t].Taken?
    ensures Shaped(Next(s, t, choice)) && Keeps(s, Next(s, t, choice), w)
  {
    BorneStays(s.pcs, t, Next(s, t, choice).pcs[t], w, s.roles[w]);
    hide Borne, Swept, After;
  }

  /** An access records what it makes possible; dispatching callers take those records. */
  lemma AccessKeeps(s: System, t: nat, choice: Choice, w: nat)
    requires SystemInv(s) && Enabled(s, t, choice) && w < |s.slots|
    requires s.pcs[t].Inside? || s.pcs[t].Accessed?
    ensures Shaped(Next(s, t, choice)) && Keeps(s, Next(s, t, choice), w)
  {
    BorneStays(s.pcs, t, Next(s, t, choice).pcs[t], w, s.roles[w]);
    hide Borne, Swept;
  }

  /** Dispatching: contention is swapped out before the slots are visited one by one. */
  lemma DispatchKeeps(s: System, t: nat, choice: Choice, w: nat)
    requires SystemInv(s) && Enabled(s, t, choice) && w < |s.slots|
    requires s.pcs[t].Swap? || s.pcs[t].Visit?
    ensures Shaped(Next(s, t, choice)) && Keeps(s, Next(s, t, choice), w)
  {
    BorneStays(s.pcs, t, Next(s, t, choice).pcs[t], w, s.roles[w]);
    hide Borne, Swept, After;
  }

  /** A future's own registration and cancellation concern only its own slot. */
  lemma OwnKeeps(s: System, t: nat, choice: Choice, w: nat)
    requires SystemInv(s) && Enabled(s, t, choice) && w < |s.slots| && w != t
    requires s.pcs[t].SetInterest? || s.pcs[t].SetWaker? || s.pcs[t].Parked?
    ensures Shaped(Next(s, t, choice)) && Keeps(s, Next(s, t, choice), w)
  {
    BorneStays(s.pcs, t, Next(s, t, choice).pcs[t], w, s.roles[w]);
    hide Borne, Swept;
  }

  lemma OthersKeep(s: System, t: nat, choice: Choice, w: nat)
    requires SystemInv(s) && Enabled(s, t, choice) && w < |s.slots| && w != t
    ensures Shaped(Next(s, t, choice)) && Keeps(s, Next(s, t, choice), w)
  {
    hide SystemInv, Next, Keeps;
    match s.pcs[t] {
      case Resting => MovesKeep(s, t, choice, w);
      case TryFirst(_) => MovesKeep(s, t, choice, w);
      case Mark(_) => MovesKeep(s, t, choice, w);
      case TrySecond(_) => MovesKeep(s, t, choice, w);
      case Inside(_, _) => AccessKeeps(s, t, choice, w);
      case Accessed(_, _, _) => AccessKeeps(s, t, choice, w);
      case Taken(_, _, _) => MovesKeep(s, t, choice, w);
      case Swap(_, _, _) => DispatchKeeps(s, t, choice, w);
      case Visit(_, _, _, _, _) => DispatchKeeps(s, t, choice, w);
      case SetInterest => OwnKeeps(s, t, choice, w);
      case SetWaker => OwnKeeps(s, t, choice, w);
      case Parked => OwnKeeps(s, t, choice, w);
    }
  }

  lemma OtherFuture(s: System, t: nat, choice: Choice, w: nat)
    requires SystemInv(s) && Enabled(s, t, choice) && w < |s.slots| && w != t
    ensures Shaped(Next(s, t, choice)) && FutureInv(Next(s, t, choice), w)
  {
    OthersKeep(s, t, choice, w);
    assert FutureInv(s, w);
    assert Next(s, t, choice).pcs[w] == s.pcs[w];
    hide SystemInv, Next, Registered, Covered, Flagged;
  }

  /** The stepping future itself: registered before its second attempt, covered or flagged
      before it parks. */
  lemma OwnFuture(s: System, t: nat, choice: Choice)
    requires SystemInv(s) && Enabled(s, t, choice) && t < |s.slots|
    ensures Shaped(Next(s, t, choice)) && FutureInv(Next(s, t, choice), t)
  {
    assert FutureInv(s, t) && RoundsInv(s, t);
    var pc := s.pcs[t];
    if pc.Resting? || pc.TryFirst? || pc.Mark? || pc.TrySecond? || pc.Taken? {
      MovesKeep(s, t, choice, t);
      if pc.TrySecond? && pc.round == 2 { FlaggedCovers(s, t); }
    } else if pc.Inside? || pc.Accessed? {
      AccessKeeps(s, t, choice, t);
    } else if pc.Swap? || pc.Visit? {
      DispatchKeeps(s, t, choice, t);
    }
    hide Borne, Swept;
  }

  lemma FlaggedCovers(s: System, w: nat)
    requires Shaped(s) && w < |s.slots| && Flagged(s, w)
    ensures Covered(s, w)
  {
    if Swept(s.pcs, w) {
      var t :| 0 <= t < |s.pcs| && Sweeps(s.pcs[t], w);
      assert Bears(s.pcs[t], w, s.roles[w]);
    }
  }

  lemma OwnRounds(s: System, t: nat, choice: Choice)
    requires SystemInv(s) && Enabled(s, t, choice)
    ensures RoundsInv(Next(s, t, choice), t)
  {
    assert RoundsInv(s, t);
    hide FutureInv, Honest, Visited, SystemInv;
  }

  lemma OtherRounds(s: System, t: nat, choice: Choice, o: nat)
    requires SystemInv(s) && Enabled(s, t, choice) && o < |s.pcs| && o != t
    ensures RoundsInv(Next(s, t, choice), o)
  {
    assert RoundsInv(s, t) && RoundsInv(s, o);
    hide FutureInv, Honest, After;
  }

  lemma NextHolds(s: System, t: nat, choice: Choice)
    requires SystemInv(s) && Enabled(s, t, choice)
    ensures SystemInv(Next(s, t, choice))
  {
    var now := Next(s, t, choice);
    assert |now.pcs| == |s.pcs| && |now.slots| == |s.slots| && Shaped(now) && now.holder in {s.holder, Some(t), None};
    forall o | 0 <= o < |now.pcs| ensures RoundsInv(now, o) {
      if o == t { OwnRounds(s, t, choice); } else { OtherRounds(s, t, choice, o); }
    }
    forall w | 0 <= w < |now.slots| ensures FutureInv(now, w) {
      if w == t { OwnFuture(s, t, choice); } else { OtherFuture(s, t, choice, w); }
    }
  }

  // --- Runs ---

  function Fresh(roles: seq<Interest>, possible: seq<bool>, others: nat): System {
    System(roles, None, NONE, false, seq(|roles|, _ => Slot(None, false, false)), possible,
           seq(|roles| + others, _ => Resting))
  }

  predicate StepOf(s: System, t: nat, choice: Choice, after: System) {
    Shaped(s) && Enabled(s, t, choice) && after == Next(s, t, choice)
  }

  predicate RunOf(states: seq<System>, steps: seq<(nat, Choice)>) {
    && |states| == |steps| + 1
    && forall i :: 0 <= i < |steps| ==> StepOf(states[i], steps[i].0, steps[i].1, states[i + 1])
  }

  lemma {:induction false} RunHolds(roles: seq<Interest>, possible: seq<bool>, others: nat, states: seq<System>,
                                    steps: seq<(nat, Choice)>, i: nat)
    requires |roles| == |possible| && RunOf(states, steps) && states[0] == Fresh(roles, possible, others)
    requires i < |states|
    ensures SystemInv(states[i])
    decreases i
  {
    if i > 0 {
      RunHolds(roles, possible, others, states, steps, i - 1);
      assert StepOf(states[i - 1], steps[i - 1].0, steps[i - 1].1, states[i]);
      hide SystemInv, Next;
      NextHolds(states[i - 1], steps[i - 1].0, steps[i - 1].1);
    }
  }

  /** In every interleaving a parked future whose operation would now succeed has been
      woken since it registered, or a dispatch under way will still reach its slot, or a
      change or contention is on record for the next dispatching call. */
  lemma NoLostWakeup(roles: seq<Interest>, possible: seq<bool>, others: nat, states: seq<System>,
                     steps: seq<(nat, Choice)>, i: nat, w: nat)
    requires |roles| == |possible| && RunOf(states, steps) && states[0] == Fresh(roles, possible, others)
    requires i < |states| && w < |roles| && Shaped(states[i]) && w < |states[i].slots|
    requires states[i].pcs[w].Parked? && states[i].possible[w]
    ensures var s := states[i];
            s.slots[w].woken || Borne(s.pcs, w, s.roles[w]) || s.changed.Has(s.roles[w]) || s.contended
  {
    RunHolds(roles, possible, others, states, steps, i);
    assert FutureInv(states[i], w);
  }

  // --- Maintenance ---

  /** One dispatching call that touches nothing, run alone from start to end. */
  function Maintained(s: System): (now: System)
    requires Shaped(s)
  {
    s.(changed := NONE, contended := false,
       slots := seq(|s.slots|, w requires 0 <= w < |s.slots| => Visited(s.slots[w], s.changed, s.contended)))
  }

  /** The slots before `at` are visited, the rest as they were. */
  function Upto(s: System, at: nat): seq<Slot>
    requires at <= |s.slots|
  {
    seq(|s.slots|, w requires 0 <= w < |s.slots| =>
      if w < at then Visited(s.slots[w], s.changed, s.contended) else s.slots[w])
  }

  /** The idle thread `t` can run `maintain` to its end, step by step, and gets there. */
  lemma MaintainRuns(s: System, t: nat, quiet: Choice)
    requires Shaped(s) && t < |s.pcs| && s.pcs[t].Resting? && s.holder.None?
    requires quiet == Choice(With, s.changed, s.possible)
    ensures Enabled(s, t, quiet)
    ensures var inside := Next(s, t, quiet);
            && Shaped(inside) && Enabled(inside, t, quiet)
            && var accessed := Next(inside, t, quiet);
               && Shaped(accessed) && Enabled(accessed, t, quiet)
               && var taken := Next(accessed, t, quiet);
                  && Shaped(taken) && Enabled(taken, t, quiet)
                  && var swap := Next(taken, t, quiet);
                     && Shaped(swap) && Enabled(swap, t, quiet)
                     && VisitsTo(s, t, 0, Next(swap, t, quiet))
  {
    assert Upto(s, 0) == s.slots;
  }

  /** Maintenance of `s` by `t` with the slots before `at` visited. */
  predicate VisitsTo(s: System, t: nat, at: nat, now: System)
    requires Shaped(s) && t < |s.pcs| && at <= |s.slots|
  {
    && now.roles == s.roles && now.possible == s.possible && now.holder.None?
    && now.changed == NONE && !now.contended && now.slots == Upto(s, at)
    && |now.pcs| == |s.pcs| && (exists ready :: now.pcs[t] == Visit(s.changed, s.contended, at, 0, ready))
    && forall o :: 0 <= o < |s.pcs| && o != t ==> now.pcs[o] == s.pcs[o]
  }

  lemma VisitRuns(s: System, t: nat, at: nat, now: System, quiet: Choice)
    requires Shaped(s) && t < |s.pcs| && at <= |s.slots| && VisitsTo(s, t, at, now) && s.pcs[t].Resting?
    ensures Shaped(now) && Enabled(now, t, quiet)
    ensures at < |s.slots| ==> VisitsTo(s, t, at + 1, Next(now, t, quiet))
    ensures at == |s.slots| ==> Next(now, t, quiet) == Maintained(s).(holder := None)
  {
    if at < |s.slots| {
      var ready :| now.pcs[t] == Visit(s.changed, s.contended, at, 0, ready);
      assert Upto(s, at)[at := Visited(s.slots[at], s.changed, s.contended)] == Upto(s, at + 1);
      assert Next(now, t, quiet).pcs[t] == Visit(s.changed, s.contended, at + 1, 0, ready);
    } else {
      assert Upto(s, at) == Maintained(s).slots;
      assert Next(now, t, quiet).pcs == s.pcs;
    }
  }

  /** With nobody else mid-call, one `maintain` wakes every parked future whose operation
      would succeed: strict calls only postpone the wake-up. */
  lemma MaintainWakes(s: System, w: nat)
    requires SystemInv(s) && w < |s.slots| && s.pcs[w].Parked? && s.possible[w]
    requires forall t :: 0 <= t < |s.pcs| ==> s.pcs[t].Resting? || s.pcs[t].Parked?
    ensures Maintained(s).slots[w].woken
  {
    assert FutureInv(s, w);
    assert !Borne(s.pcs, w, s.roles[w]);
  }
}
