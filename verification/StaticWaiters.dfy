/** The static stream's pending operations: every access under its lock is a step the
    wake-up protocol allows. */
module StaticWaiters {
  import opened Wire
  import opened RetainedLog
  import opened StaticStream
  import opened Wakeups

  /** A future's operation: a send, or a receive on the subscription it borrows. */
  datatype Waiter = Sender | Receiver(index: nat, id: nat)

  datatype Call<T> =
    | CallJoin(required: bool)
    | CallSend(value: T)
    | CallReceive(index: nat, id: nat)
    | CallLeave(index: nat, id: nat)
    | CallClose(reason: CloseReason)
    | CallNothing

  function Role(waiter: Waiter): Interest { if waiter.Sender? then Sends else Receives }

  function Roles(waiters: seq<Waiter>): seq<Interest> {
    seq(|waiters|, w requires 0 <= w < |waiters| => Role(waiters[w]))
  }

  /** The operation would complete now, with a value or an error, instead of waiting. */
  predicate CanEnd<T>(m: Stream<T>, waiter: Waiter) {
    m.closed
    || match waiter
       case Sender => |m.log.sent| >= U64_MAX || !IsFull(m.log)
       case Receiver(index, id) => !Receive(m.log, index, id).1.Nothing?
  }

  function Possible<T>(m: Stream<T>, waiters: seq<Waiter>): seq<bool> {
    seq(|waiters|, w requires 0 <= w < |waiters| => CanEnd(m, waiters[w]))
  }

  /** The call a future makes at each of its attempts. */
  predicate Attempts<T>(call: Call<T>, waiter: Waiter) {
    match waiter
    case Sender => call.CallSend?
    case Receiver(index, id) => call == CallReceive(index, id)
  }

  /** A pending receive borrows its subscription, so nobody can be dropping that one. */
  predicate Borrows<T>(s: System, waiters: seq<Waiter>, call: Call<T>)
    requires Shaped(s) && s.roles == Roles(waiters)
  {
    call.CallLeave? ==>
      forall w :: 0 <= w < |waiters| && waiters[w] == Receiver(call.index, call.id) ==> s.pcs[w].Resting?
  }

  /** The stream as its users see it: its log, and whether it is closed. */
  datatype Stream<T> = Stream(log: Log<T>, closed: bool)

  /** A closed stream refuses everything but a leave. */
  function Effect<T>(m: Stream<T>, call: Call<T>): Stream<T> {
    match call
    case CallJoin(required) => if m.closed then m else m.(log := Join(m.log, required).0)
    case CallSend(value) => if m.closed then m else m.(log := Send(m.log, value).0)
    case CallReceive(index, id) => if m.closed then m else m.(log := Receive(m.log, index, id).0)
    case CallLeave(index, id) => m.(log := Leave(m.log, index, id))
    case CallClose(_) => m.(closed := true)
    case CallNothing => m
  }

  /** The bits a call leaves. */
  function Record<T>(m: Stream<T>, bits: Bits, call: Call<T>): Bits {
    match call
    case CallSend(value) => if !m.closed && Send(m.log, value).1.Accepted? then bits.(receive := true) else bits
    case CallReceive(index, id) =>
      if !m.closed && Receive(m.log, index, id).1.Received? then bits.(send := true) else bits
    case CallLeave(index, id) => if Keyed(m.log, index, id) then bits.(send := true) else bits
    case CallClose(_) => Bits(true, true)
    case _ => bits
  }

  /** A refused sender can only be unblocked by a receive that returned something, a leave
      or the close, and all mark senders changed. */
  lemma UnblocksSend<T>(m: Stream<T>, bits: Bits, call: Call<T>)
    requires LogInv(m.log) && !CanEnd(m, Sender) && CanEnd(Effect(m, call), Sender)
    ensures Record(m, bits, call).send
  {
    var l := m.log;
    var k :| 0 <= k < |l.cursors| && Live(l.cursors[k]) && l.cursors[k].value.required
             && l.cursors[k].value.next <= |l.sent| - l.capacity;
    var now := Effect(m, call).log;
    assert k < |now.cursors| && (now.cursors[k] == l.cursors[k] && now.sent == l.sent ==> IsFull(now));
  }

  /** An empty-handed receiver can only be unblocked by an accepted send or the close, which
      mark receivers changed, or by its own subscription's end. */
  lemma UnblocksReceive<T>(m: Stream<T>, bits: Bits, call: Call<T>, index: nat, id: nat)
    requires LogInv(m.log) && !CanEnd(m, Receiver(index, id)) && CanEnd(Effect(m, call), Receiver(index, id))
    requires call != CallLeave(index, id)
    ensures Record(m, bits, call).receive
  {
    assert CursorInv(m.log, m.log.cursors[index]);
  }

  /** A failing attempt changes nothing. */
  lemma FailedAttempt<T>(m: Stream<T>, bits: Bits, call: Call<T>, waiter: Waiter)
    requires LogInv(m.log) && Attempts(call, waiter) && !CanEnd(m, waiter)
    ensures Effect(m, call) == m && Record(m, bits, call) == bits
  {
  }

  lemma RecordsMore<T>(m: Stream<T>, bits: Bits, call: Call<T>)
    requires LogInv(m.log)
    ensures Includes(Record(m, bits, call), bits) && LogInv(Effect(m, call).log)
  {
    match call
    case CallJoin(required) => ApplyKeepsLog(m.log, DoJoin(required));
    case CallSend(value) => ApplyKeepsLog(m.log, DoSend(value));
    case CallReceive(index, id) => ApplyKeepsLog(m.log, DoReceive(index, id));
    case CallLeave(index, id) => ApplyKeepsLog(m.log, DoLeave(index, id));
    case _ =>
  }

  /** What an access tells the wake-up protocol. */
  function Told<T>(m: Stream<T>, bits: Bits, call: Call<T>, waiters: seq<Waiter>): Choice {
    Choice(With, Record(m, bits, call), Possible(Effect(m, call), waiters))
  }

  /** The protocol's state agrees with the stream on what each future could do. */
  predicate Agrees<T>(s: System, m: Stream<T>, waiters: seq<Waiter>) {
    Shaped(s) && s.roles == Roles(waiters) && s.possible == Possible(m, waiters)
  }

  /** Thread `t` is under the lock and makes `call`, its own if it is a future's attempt. */
  predicate Calls<T>(s: System, t: nat, waiters: seq<Waiter>, call: Call<T>)
    requires Shaped(s) && s.roles == Roles(waiters)
  {
    && t < |s.pcs| && s.pcs[t].Inside? && Borrows(s, waiters, call)
    && (s.pcs[t].round > 0 ==> t < |waiters| && Attempts(call, waiters[t]))
  }

  /** What a call does under the lock is a step the protocol allows: all it makes possible
      for a pending future is in its changed bits, and a failing attempt leaves no trace. */
  lemma AccessIsHonest<T>(s: System, t: nat, m: Stream<T>, waiters: seq<Waiter>, call: Call<T>)
    requires LogInv(m.log) && Agrees(s, m, waiters) && Calls(s, t, waiters, call)
    ensures Enabled(s, t, Told(m, s.changed, call, waiters))
    ensures Agrees(Next(s, t, Told(m, s.changed, call, waiters)), Effect(m, call), waiters)
  {
    hide Record, Effect, CanEnd, Attempts;
    var choice := Told(m, s.changed, call, waiters);
    forall w | 0 <= w < |waiters| && choice.possible[w] && !s.possible[w] && !s.pcs[w].Resting?
      ensures choice.changed.Has(s.roles[w])
    {
      assert CanEnd(Effect(m, call), waiters[w]) && !CanEnd(m, waiters[w]);
      match waiters[w]
      case Sender => UnblocksSend(m, s.changed, call);
      case Receiver(index, id) => UnblocksReceive(m, s.changed, call, index, id);
    }
    RecordsMore(m, s.changed, call);
    if s.pcs[t].round > 0 && t < |waiters| && !s.possible[t] {
      assert !CanEnd(m, waiters[t]);
      FailedAttempt(m, s.changed, call, waiters[t]);
    }
  }

  // --- The ring itself ---

  /** One access by thread `t` to the ring: its real bits and what its waiters can do
      afterwards are the protocol's next state. */
  method Access<T>(ring: Ring<T>, call: Call<T>, waiters: seq<Waiter>, ghost s: System, ghost t: nat)
    returns (ghost choice: Choice)
    requires ring.Valid() && Agrees(s, Stream(ring.Model(), ring.closed.Some?), waiters)
    requires s.changed == ring.changed && Calls(s, t, waiters, call)
    modifies ring, ring.values, ring.cursors
    ensures ring.Valid() && Enabled(s, t, choice) && Next(s, t, choice).changed == ring.changed
    ensures Agrees(Next(s, t, choice), Stream(ring.Model(), ring.closed.Some?), waiters)
  {
    ghost var m := Stream(ring.Model(), ring.closed.Some?);
    AccessIsHonest(s, t, m, waiters, call);
    Perform(ring, call);
    choice := Told(m, s.changed, call, waiters);
  }

  /** A dispatching call then takes the bits with it before it unlocks. */
  method Take<T>(ring: Ring<T>, waiters: seq<Waiter>, ghost s: System, ghost t: nat, ghost choice: Choice)
    returns (bits: Bits)
    requires ring.Valid() && Agrees(s, Stream(ring.Model(), ring.closed.Some?), waiters) && s.changed == ring.changed
    requires t < |s.pcs| && s.pcs[t].Accessed? && s.pcs[t].style.Dispatching?
    modifies ring`changed
    ensures ring.Valid() && Enabled(s, t, choice) && Next(s, t, choice).changed == ring.changed
    ensures Next(s, t, choice).pcs[t] == Taken(bits, s.pcs[t].round, s.pcs[t].ready)
    ensures Agrees(Next(s, t, choice), Stream(ring.Model(), ring.closed.Some?), waiters)
  {
    bits := ring.TakeChanged();
  }

  method Perform<T>(ring: Ring<T>, call: Call<T>)
    requires ring.Valid()
    modifies ring, ring.values, ring.cursors
    ensures ring.Valid()
    ensures var was := Stream(old(ring.Model()), old(ring.closed).Some?);
            && Stream(ring.Model(), ring.closed.Some?) == Effect(was, call)
            && ring.changed == Record(was, old(ring.changed), call)
  {
    match call {
      case CallJoin(required) => var answer := ring.Subscribe(required);
      case CallSend(value) => var answer := ring.SendNow(value);
      case CallReceive(index, id) => var answer := ring.RecvNow(index, id);
      case CallLeave(index, id) =>
        if index < ring.cursors.Length {
          ring.DropReceiver(index, id);
        }
      case CallClose(reason) => ring.Close(reason);
      case CallNothing =>
    }
  }

  // --- Runs ---

  /** One step of a thread: under the lock it makes a call, elsewhere it only moves. */
  datatype Turn<T> = Turn(t: nat, call: Call<T>, start: Start)

  ghost predicate StepOf<T>(waiters: seq<Waiter>, s: System, m: Stream<T>, turn: Turn<T>, now: System,
                            after: Stream<T>) {
    && Shaped(s) && s.roles == Roles(waiters) && turn.t < |s.pcs|
    && if s.pcs[turn.t].Inside? then
         && Calls(s, turn.t, waiters, turn.call) && after == Effect(m, turn.call)
         && Enabled(s, turn.t, Told(m, s.changed, turn.call, waiters))
         && now == Next(s, turn.t, Told(m, s.changed, turn.call, waiters))
       else
         && after == m && Enabled(s, turn.t, Choice(turn.start, s.changed, s.possible))
         && now == Next(s, turn.t, Choice(turn.start, s.changed, s.possible))
  }

  ghost predicate RunOf<T>(waiters: seq<Waiter>, states: seq<(System, Stream<T>)>, turns: seq<Turn<T>>) {
    && |states| == |turns| + 1
    && forall i :: 0 <= i < |turns| ==>
         StepOf(waiters, states[i].0, states[i].1, turns[i], states[i + 1].0, states[i + 1].1)
  }

  lemma {:induction false} RunAgrees<T>(waiters: seq<Waiter>, m: Stream<T>, others: nat,
                                        states: seq<(System, Stream<T>)>,
                                        turns: seq<Turn<T>>, i: nat)
    requires LogInv(m.log) && RunOf(waiters, states, turns) && i < |states|
    requires states[0] == (Fresh(Roles(waiters), Possible(m, waiters), others), m)
    ensures SystemInv(states[i].0) && Agrees(states[i].0, states[i].1, waiters) && LogInv(states[i].1.log)
    decreases i
  {
    if i > 0 {
      RunAgrees(waiters, m, others, states, turns, i - 1);
      var (s, m, turn) := (states[i - 1].0, states[i - 1].1, turns[i - 1]);
      assert StepOf(waiters, s, m, turn, states[i - 1 + 1].0, states[i - 1 + 1].1);
      hide RunOf, SystemInv, Record, Effect, CanEnd, Attempts;
      if s.pcs[turn.t].Inside? {
        AccessIsHonest(s, turn.t, m, waiters, turn.call);
        RecordsMore(m, s.changed, turn.call);
        NextHolds(s, turn.t, Told(m, s.changed, turn.call, waiters));
      } else {
        NextHolds(s, turn.t, Choice(turn.start, s.changed, s.possible));
        hide Enabled;
      }
    }
  }

  /** No lost wake-up on the stream itself: in every interleaving of its calls, a parked send
      or receive that could now complete has been woken, will be by a dispatch under way, or
      its change or contention is on record. */
  lemma NoLostStreamWakeup<T>(waiters: seq<Waiter>, m: Stream<T>, others: nat, states: seq<(System, Stream<T>)>,
                              turns: seq<Turn<T>>, i: nat, w: nat)
    requires LogInv(m.log) && RunOf(waiters, states, turns) && i < |states|
    requires states[0] == (Fresh(Roles(waiters), Possible(m, waiters), others), m)
    requires w < |waiters| && Agrees(states[i].0, states[i].1, waiters)
    requires states[i].0.pcs[w].Parked? && CanEnd(states[i].1, waiters[w])
    ensures var s := states[i].0;
            s.slots[w].woken || Borne(s.pcs, w, s.roles[w]) || s.changed.Has(s.roles[w]) || s.contended
  {
    hide RunOf, CanEnd;
    RunAgrees(waiters, m, others, states, turns, i);
    assert FutureInv(states[i].0, w);
  }
}
