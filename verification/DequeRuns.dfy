/** One subscriber of the owned stream over any sequence of calls on it, with publishers out
    of allowance, revoked grants and deferred maintenance. */
module DequeRuns {
  import opened Wire
  import opened RetainedLog
  import opened StaticStream
  import opened DynamicStream

  /** What users, publishers and the host may call while the stream is open. */
  datatype Call<T> =
    | Join(required: bool)
    | Send(owner: nat, value: T)
    | Prepare(owner: nat, value: T)
    | Commit(at: nat, deferred: bool)
    | Discard(at: nat)
    | Receive(index: nat, id: nat)
    | TryReceive(index: nat, id: nat)
    | Leave(index: nat, id: nat)
    | Revoke(index: nat)
    | Maintain
    | Delegate(owner: nat, items: nat)
    | Return(owner: nat, items: nat)

  /** The call neither ends nor revokes the subscription at `index`. */
  predicate Spared<T>(call: Call<T>, index: nat) {
    (call.Leave? ==> call.index != index) && (call.Revoke? ==> call.index != index)
  }

  // --- Prepared payloads ---

  /** A prepared publication: its publisher and its payload. */
  datatype Held<T> = Held(owner: nat, value: T)

  function Values<T>(hand: seq<Held<T>>): multiset<T> {
    if hand == [] then multiset{} else multiset{hand[0].value} + Values(hand[1..])
  }

  function HeldBy<T>(hand: seq<Held<T>>, owner: nat): multiset<T> {
    if hand == [] then multiset{}
    else (if hand[0].owner == owner then multiset{hand[0].value} else multiset{}) + HeldBy(hand[1..], owner)
  }

  /** The stream counts as prepared exactly what is in hand, publisher by publisher. */
  predicate InHand<T>(hand: seq<Held<T>>, bags: seq<multiset<T>>) {
    && (forall k :: 0 <= k < |hand| ==> hand[k].owner < |bags|)
    && forall p :: 0 <= p < |bags| ==> bags[p] == HeldBy(hand, p)
  }

  lemma {:induction false} HandJoins<T>(a: seq<Held<T>>, b: seq<Held<T>>, owner: nat)
    ensures Values(a + b) == Values(a) + Values(b) && HeldBy(a + b, owner) == HeldBy(a, owner) + HeldBy(b, owner)
    decreases |a|
  {
    if a == [] {
      assert a + b == b;
    } else {
      assert (a + b)[1..] == a[1..] + b;
      HandJoins(a[1..], b, owner);
    }
  }

  lemma OneHeld<T>(held: Held<T>, owner: nat)
    ensures Values([held]) == multiset{held.value}
    ensures HeldBy([held], owner) == if held.owner == owner then multiset{held.value} else multiset{}
  {
    assert [held][1..] == [];
  }

  function Added<T>(hand: seq<Held<T>>, owner: nat, value: T): seq<Held<T>> { hand + [Held(owner, value)] }

  function Removed<T>(hand: seq<Held<T>>, at: nat): seq<Held<T>>
    requires at < |hand|
  {
    hand[..at] + hand[at + 1..]
  }

  lemma AddedInHand<T>(hand: seq<Held<T>>, bags: seq<multiset<T>>, owner: nat, value: T)
    requires InHand(hand, bags) && owner < |bags|
    ensures InHand(Added(hand, owner, value), Bag(bags, owner, value))
    ensures Values(Added(hand, owner, value)) == Values(hand) + multiset{value}
  {
    forall p: nat ensures HeldBy(Added(hand, owner, value), p)
                          == HeldBy(hand, p) + if owner == p then multiset{value} else multiset{} {
      HandJoins(hand, [Held(owner, value)], p);
      OneHeld(Held(owner, value), p);
    }
    HandJoins(hand, [Held(owner, value)], owner);
    OneHeld(Held(owner, value), owner);
  }

  lemma Regroup<T>(a: multiset<T>, b: multiset<T>, c: multiset<T>)
    ensures a + (b + c) == (a + b) + c
  {
  }

  lemma RemovedRest<T>(hand: seq<Held<T>>, at: nat)
    requires 0 < at < |hand|
    ensures Removed(hand, at) != [] && Removed(hand, at)[0] == hand[0] && hand[at] == hand[1..][at - 1]
    ensures Removed(hand, at)[1..] == Removed(hand[1..], at - 1)
  {
  }

  lemma {:induction false} RemovedValues<T>(hand: seq<Held<T>>, at: nat)
    requires at < |hand|
    ensures Values(hand) == Values(Removed(hand, at)) + multiset{hand[at].value}
    decreases at
  {
    if at == 0 {
      assert Removed(hand, at) == hand[1..];
    } else {
      RemovedRest(hand, at);
      RemovedValues(hand[1..], at - 1);
      hide Removed;
      Regroup(multiset{hand[0].value}, Values(Removed(hand[1..], at - 1)), multiset{hand[at].value});
    }
  }

  lemma {:induction false} RemovedHolds<T>(hand: seq<Held<T>>, at: nat, owner: nat)
    requires at < |hand|
    ensures HeldBy(hand, owner)
            == HeldBy(Removed(hand, at), owner)
               + if hand[at].owner == owner then multiset{hand[at].value} else multiset{}
    decreases at
  {
    if at == 0 {
      assert Removed(hand, at) == hand[1..];
    } else {
      RemovedRest(hand, at);
      RemovedHolds(hand[1..], at - 1, owner);
      hide Removed;
      Regroup(if hand[0].owner == owner then multiset{hand[0].value} else multiset{},
              HeldBy(Removed(hand[1..], at - 1), owner),
              if hand[at].owner == owner then multiset{hand[at].value} else multiset{});
    }
  }

  lemma RemovedInHand<T>(hand: seq<Held<T>>, bags: seq<multiset<T>>, at: nat)
    requires InHand(hand, bags) && at < |hand|
    ensures hand[at].owner < |bags| && hand[at].value in bags[hand[at].owner]
    ensures InHand(Removed(hand, at), Unbag(bags, hand[at].owner, hand[at].value))
    ensures Values(hand) == Values(Removed(hand, at)) + multiset{hand[at].value}
  {
    hide HeldBy, Values;
    RemovedValues(hand, at);
    RemovedHolds(hand, at, hand[at].owner);
    forall p | 0 <= p < |bags|
      ensures bags[p] == HeldBy(Removed(hand, at), p)
                         + if hand[at].owner == p then multiset{hand[at].value} else multiset{}
    {
      RemovedHolds(hand, at, p);
    }
  }

  /** The payloads a call hands to the stream. */
  function Offered<T>(call: Call<T>): multiset<T> {
    if call.Send? || call.Prepare? then multiset{call.value} else multiset{}
  }

  function AllOffered<T>(calls: seq<Call<T>>): multiset<T> {
    if calls == [] then multiset{} else AllOffered(calls[..|calls| - 1]) + Offered(calls[|calls| - 1])
  }

  /** No payload is lost or made: what was sent, in hand or offered before is sent, in hand or
      given back after. */
  predicate Conserves<T>(sent: seq<T>, hand: seq<Held<T>>, offered: multiset<T>, now: seq<T>, left: seq<Held<T>>,
                         back: multiset<T>) {
    multiset(sent) + Values(hand) + offered == multiset(now) + Values(left) + back
  }

  lemma ConservesOn<T>(a: seq<T>, x: seq<Held<T>>, offered: multiset<T>, b: seq<T>, y: seq<Held<T>>, back: multiset<T>,
                       more: multiset<T>, c: seq<T>, z: seq<Held<T>>, given: multiset<T>)
    requires Conserves(a, x, offered, b, y, back) && Conserves(b, y, more, c, z, given)
    ensures Conserves(a, x, offered + more, c, z, back + given)
  {
    hide Values;
    assert multiset(a) + Values(x) + (offered + more) == (multiset(a) + Values(x) + offered) + more;
    assert multiset(b) + Values(y) + back + more == (multiset(b) + Values(y) + more) + back;
  }

  // --- Runs of the log ---

  lemma {:induction false} RunOn<T>(l: Log<T>, ops: seq<Op<T>>, more: seq<Op<T>>, index: nat, id: nat)
    ensures RunLog(l, ops + more) == RunLog(RunLog(l, ops), more)
    ensures Items(l, ops + more, index, id) == Items(l, ops, index, id) + Items(RunLog(l, ops), more, index, id)
    decreases |ops|
  {
    hide Apply, RetainedLog.Receive;
    if ops == [] {
      assert ops + more == more;
    } else {
      assert (ops + more)[1..] == ops[1..] + more;
      RunOn(Apply(l, ops[0]), ops[1..], more, index, id);
    }
  }

  lemma RunOne<T>(l: Log<T>, op: Op<T>, index: nat, id: nat)
    ensures RunLog(l, []) == l && Items(l, [], index, id) == []
    ensures RunLog(l, [op]) == Apply(l, op)
    ensures Items(l, [op], index, id)
            == if Asks(op, index, id) && RetainedLog.Receive(l, index, id).1.Received?
               then [RetainedLog.Receive(l, index, id).1.item] else []
  {
    hide Apply, RetainedLog.Receive;
    assert [op][1..] == [];
  }

  lemma RunTwo<T>(l: Log<T>, first: Op<T>, second: Op<T>, index: nat, id: nat)
    requires !Asks(second, index, id)
    ensures RunLog(l, [first, second]) == Apply(Apply(l, first), second)
    ensures Items(l, [first, second], index, id) == Items(l, [first], index, id)
  {
    hide Apply, RetainedLog.Receive;
    RunOne(l, first, index, id);
    RunOne(Apply(l, first), second, index, id);
    assert [first] + [second] == [first, second];
    RunOn(l, [first], [second], index, id);
  }

  /** The operations a log undergoes in one call, as far as one subscription can tell. */
  ghost predicate Plays<T>(was: Log<T>, now: Log<T>, ops: seq<Op<T>>, items: seq<Item<T>>, index: nat, id: nat) {
    RunLog(was, ops) == now && Items(was, ops, index, id) == items && Keeps(ops, index)
  }

  /** The eviction that explains what a call gave up, if any. */
  lemma EvictionOf<T>(was: Log<T>, now: Log<T>, index: nat, id: nat) returns (ops: seq<Op<T>>)
    requires Evicted(was, now)
    ensures Plays(was, now, ops, [], index, id) && |ops| <= 1 && (ops != [] ==> ops[0].DoEvict?)
  {
    hide Evict, Apply;
    if now == was {
      ops := [];
    } else {
      var sequence :| now == Evict(was, sequence);
      ops := [DoEvict(sequence)];
      RunOne(was, ops[0], index, id);
      AppliesEvict(was, sequence);
    }
  }

  lemma AppliesEvict<T>(l: Log<T>, sequence: nat)
    ensures Apply(l, DoEvict(sequence)) == Evict(l, sequence)
  {
  }

  /** One operation, then perhaps an eviction. */
  lemma ThenEvicts<T>(was: Log<T>, op: Op<T>, now: Log<T>, index: nat, id: nat) returns (ops: seq<Op<T>>)
    requires Evicted(Apply(was, op), now)
    requires (op.DoLeave? ==> op.index != index) && (op.DoRevoke? ==> op.index != index)
    ensures Plays(was, now, ops, Items(was, [op], index, id), index, id)
  {
    hide Apply, Evicted, Items, RunLog, RetainedLog.Receive;
    var rest := EvictionOf(Apply(was, op), now, index, id);
    RunOne(was, op, index, id);
    if rest == [] {
      ops := [op];
      RunOne(now, op, index, id);
      assert RunLog(Apply(was, op), []) == Apply(was, op) by { RunOne(Apply(was, op), op, index, id); }
    } else {
      ops := [op, rest[0]];
      RunTwo(was, op, rest[0], index, id);
      RunOne(Apply(was, op), rest[0], index, id);
      assert rest == [rest[0]];
    }
  }

  /** A send, perhaps after an eviction. */
  lemma SendOf<T>(was: Log<T>, value: T, now: Log<T>, index: nat, id: nat) returns (ops: seq<Op<T>>)
    requires Sent(was, value, now)
    ensures Plays(was, now, ops, [], index, id)
  {
    hide Evict, RetainedLog.Send;
    if (now, Accepted) == RetainedLog.Send(was, value) {
      ops := [DoSend(value)];
      RunOne(was, ops[0], index, id);
    } else {
      var sequence :| (now, Accepted) == RetainedLog.Send(Evict(was, sequence), value);
      ops := [DoEvict(sequence), DoSend(value)];
      RunOne(was, ops[0], index, id);
      RunTwo(was, ops[0], ops[1], index, id);
    }
  }

  // --- Runs of the deque ---

  /** What a call without an item for anybody does to the log. */
  lemma NothingHappens<T>(l: Log<T>, index: nat, id: nat)
    ensures Plays<T>(l, l, [], [], index, id) && Evicted(l, l)
  {
  }

  lemma OneOp<T>(was: Log<T>, op: Op<T>, index: nat, id: nat)
    requires (op.DoLeave? ==> op.index != index) && (op.DoRevoke? ==> op.index != index)
    ensures Plays(was, Apply(was, op), [op], if Asks(op, index, id) then ItemOf(was, index, id) else [], index, id)
  {
    RunOne(was, op, index, id);
  }

  function ItemOf<T>(l: Log<T>, index: nat, id: nat): seq<Item<T>> {
    if RetainedLog.Receive(l, index, id).1.Received? then [RetainedLog.Receive(l, index, id).1.item] else []
  }

  /** A receive by the subscription watched, or by another. */
  method ReceiveStep<T>(deque: Deque<T>, i: nat, k: nat, strict: bool, index: nat, id: nat)
    returns (items: seq<Item<T>>, ghost ops: seq<Op<T>>)
    requires deque.Valid() && !deque.closed
    modifies deque
    ensures deque.Valid() && !deque.closed && Plays(old(deque.Model()), deque.Model(), ops, items, index, id)
    ensures deque.sent == old(deque.sent) && deque.bags == old(deque.bags)
  {
    hide Balanced, Retains, LogInv, Unread, Conserved, Evicted, Plays, RetainedLog.Receive;
    ghost var (was, revoked) := (deque.Model(), IsRevoked(deque.subscribers, i));
    var answer;
    if strict {
      answer := deque.TryReceive(i, k);
      NothingHappens(deque.Model(), index, id);
    } else {
      answer := deque.ReceiveNow(i, k);
    }
    items := if (i, k) == (index, id) && answer.Answered? && answer.value.Received? then [answer.value.item] else [];
    if revoked {
      ops := EvictionOf(was, deque.Model(), index, id);
    } else {
      ops := ThenEvicts(was, DoReceive(i, k), deque.Model(), index, id);
      RunOne(was, DoReceive(i, k), index, id);
    }
  }

  /** A publication in one call or in two: a refused payload is given back, an admitted one is
      sent, and one that must wait stays in hand. */
  method SendStep<T>(deque: Deque<T>, call: Call<T>, hand: seq<Held<T>>, index: nat, id: nat)
    returns (left: seq<Held<T>>, back: multiset<T>, ghost ops: seq<Op<T>>)
    requires deque.Valid() && !deque.closed && InHand(hand, deque.bags)
    requires call.Send? || call.Prepare? ==> call.owner < |deque.accounts|
    requires call.Send? || call.Prepare? || ((call.Commit? || call.Discard?) && call.at < |hand|)
    modifies deque
    ensures deque.Valid() && !deque.closed && Plays(old(deque.Model()), deque.Model(), ops, [], index, id)
    ensures InHand(left, deque.bags) && Conserves(old(deque.sent), hand, Offered(call), deque.sent, left, back)
  {
    hide Balanced, Retains, LogInv, Unread, Conserved, Evicted, Shifted, IsFull, Needs, Plays, Evict, InHand, Values;
    hide Sent;
    hide Bag, Unbag, Added, Removed;
    ghost var (was, bags) := (deque.Model(), deque.bags);
    BagSize(deque.bags, deque.accounts);
    hide Bagged;
    NothingHappens(was, index, id);
    left, back, ops := hand, multiset{}, [];
    match call {
      case Send(owner, value) =>
        var admission := deque.SendNow(owner, value);
        if admission.Admitted? {
          ops := SendOf(was, value, deque.Model(), index, id);
          SentOne(was, value, deque.Model());
        } else {
          ops := EvictionOf(was, deque.Model(), index, id);
          EvictedSame(was, deque.Model());
          back := multiset{value};
        }
      case Prepare(owner, value) =>
        var admission := deque.Reserve(owner, value);
        ops := EvictionOf(was, deque.Model(), index, id);
        EvictedSame(was, deque.Model());
        if admission.Admitted? {
          AddedInHand(hand, bags, owner, value);
          left := Added(hand, owner, value);
        } else {
          back := multiset{value};
        }
      case Commit(at, deferred) =>
        RemovedInHand(hand, bags, at);
        var admission := deque.Commit(hand[at].owner, hand[at].value, deferred);
        if admission.Admitted? {
          SentNow(was, hand[at].value, deque.Model());
          ops := SendOf(was, hand[at].value, deque.Model(), index, id);
          SentOne(was, hand[at].value, deque.Model());
          left := Removed(hand, at);
        }
      case Discard(at) =>
        RemovedInHand(hand, bags, at);
        deque.Discard(hand[at].owner, hand[at].value);
        left, back := Removed(hand, at), multiset{hand[at].value};
    }
  }

  lemma SentNow<T>(was: Log<T>, value: T, now: Log<T>)
    requires (now, Accepted) == RetainedLog.Send(was, value)
    ensures Sent(was, value, now)
  {
  }

  lemma SentOne<T>(was: Log<T>, value: T, now: Log<T>)
    requires Sent(was, value, now)
    ensures now.sent == was.sent + [value] && multiset(now.sent) == multiset(was.sent) + multiset{value}
  {
  }

  lemma EvictedSame<T>(was: Log<T>, now: Log<T>)
    requires Evicted(was, now)
    ensures now.sent == was.sent
  {
  }

  /** One call, and the item it hands the subscription if it is that one's receive. */
  method Step<T>(deque: Deque<T>, call: Call<T>, hand: seq<Held<T>>, index: nat, id: nat)
    returns (items: seq<Item<T>>, left: seq<Held<T>>, back: multiset<T>, ghost ops: seq<Op<T>>)
    requires deque.Valid() && !deque.closed && Spared(call, index) && !deque.latest && InHand(hand, deque.bags)
    modifies deque
    ensures deque.Valid() && !deque.closed && Plays(old(deque.Model()), deque.Model(), ops, items, index, id)
    ensures InHand(left, deque.bags) && Conserves(old(deque.sent), hand, Offered(call), deque.sent, left, back)
  {
    hide Balanced, Retains, LogInv, Unread, Conserved, Evicted, Shifted, Plays, RetainedLog.Join, RetainedLog.Leave;
    hide InHand, Values, Bagged;
    ghost var was := deque.Model();
    NothingHappens(was, index, id);
    items, left, back, ops := [], hand, Offered(call), [];
    if call.Send? || call.Prepare? {
      if call.owner < |deque.accounts| {
        left, back, ops := SendStep(deque, call, hand, index, id);
      }
    } else if call.Commit? || call.Discard? {
      if call.at < |hand| {
        left, back, ops := SendStep(deque, call, hand, index, id);
      }
    } else if call.Join? {
      var answer := deque.Subscribe(call.required);
      OneOp(was, DoJoin(call.required), index, id);
      ops := [DoJoin(call.required)];
      JoinSends(was, call.required);
    } else {
      items, ops := OtherStep(deque, call, index, id);
    }
  }

  lemma JoinSends<T>(l: Log<T>, required: bool)
    ensures RetainedLog.Join(l, required).0.sent == l.sent
  {
  }

  /** A call that publishes nothing. */
  method OtherStep<T>(deque: Deque<T>, call: Call<T>, index: nat, id: nat)
    returns (items: seq<Item<T>>, ghost ops: seq<Op<T>>)
    requires deque.Valid() && !deque.closed && Spared(call, index) && !deque.latest
    requires call.Receive? || call.TryReceive? || call.Leave? || call.Revoke? || call.Maintain? || call.Delegate?
             || call.Return?
    modifies deque
    ensures deque.Valid() && !deque.closed && Plays(old(deque.Model()), deque.Model(), ops, items, index, id)
    ensures deque.sent == old(deque.sent) && deque.bags == old(deque.bags)
  {
    hide Balanced, Retains, LogInv, Unread, Conserved, Evicted, Shifted, Plays, RetainedLog.Leave, Bagged;
    ghost var was := deque.Model();
    NothingHappens(was, index, id);
    items, ops := [], [];
    if call.Receive? {
      items, ops := ReceiveStep(deque, call.index, call.id, false, index, id);
    } else if call.TryReceive? {
      items, ops := ReceiveStep(deque, call.index, call.id, true, index, id);
    } else if call.Leave? {
      if call.index < |deque.subscribers| && deque.subscribers[call.index].Some?
         && deque.subscribers[call.index].value.id == call.id {
        deque.DropReceiver(call.index, call.id);
        OneOp(was, DoLeave(call.index, call.id), index, id);
        ops := [DoLeave(call.index, call.id)];
      }
    } else if call.Revoke? {
      deque.RevokeGrant(call.index);
      OneOp(was, DoRevoke(call.index), index, id);
      ops := [DoRevoke(call.index)];
    } else if call.Maintain? {
      deque.Maintain();
      ops := EvictionOf(was, deque.Model(), index, id);
    } else if call.owner < |deque.accounts| {
      if call.Delegate? {
        var reserved := deque.Delegate(call.owner, call.items);
      } else if call.items <= deque.accounts[call.owner].reserved {
        deque.Return(call.owner, call.items);
      }
    }
  }

  lemma PlaysOn<T>(l: Log<T>, mid: Log<T>, ops: seq<Op<T>>, items: seq<Item<T>>, now: Log<T>, more: seq<Op<T>>,
                   next: seq<Item<T>>, index: nat, id: nat)
    requires Plays(l, mid, ops, items, index, id) && Plays(mid, now, more, next, index, id)
    ensures Plays(l, now, ops + more, items + next, index, id)
  {
    hide RunLog, Items;
    RunOn(l, ops, more, index, id);
  }

  /** Whatever is called on the open stream, the items one subscription receives tile what was
      sent from where it stood to where it now stands, each with its own value or inside a
      reported gap; a required subscription's contain no gap, though publishers evict for
      want of allowance, others come, go and are revoked, and retirement is deferred. And no
      payload is lost: each one offered is sent, still in hand or given back. */
  method Serve<T>(deque: Deque<T>, calls: seq<Call<T>>, hand: seq<Held<T>>, index: nat, id: nat)
    returns (items: seq<Item<T>>, left: seq<Held<T>>, back: multiset<T>)
    requires deque.Valid() && !deque.closed && !deque.latest && Keyed(deque.Model(), index, id)
             && InHand(hand, deque.bags)
    requires forall k :: 0 <= k < |calls| ==> Spared(calls[k], index)
    modifies deque
    ensures deque.Valid() && !deque.closed && Keyed(deque.Model(), index, id) && old(deque.sent) <= deque.sent
    ensures Tiles(deque.sent, items, old(deque.subscribers)[index].value.next, deque.subscribers[index].value.next)
    ensures old(deque.subscribers)[index].value.required && !old(deque.subscribers)[index].value.revoked ==>
              NoGaps(items)
    ensures InHand(left, deque.bags) && Conserves(old(deque.sent), hand, AllOffered(calls), deque.sent, left, back)
  {
    ghost var (was, ops) := (deque.Model(), []);
    NothingHappens(was, index, id);
    items, left, back := [], hand, multiset{};
    assert Conserves(deque.sent, hand, multiset{}, deque.sent, left, back);
    assert LogInv(was) && calls[..0] == [];
    hide Balanced, Retains, LogInv, Unread, Conserved, Plays, Spared, Tiles, NoGaps, InHand, Values, Offered, Bagged;
    hide Conserves;
    for k := 0 to |calls|
      invariant deque.Valid() && !deque.closed && Plays(was, deque.Model(), ops, items, index, id)
      invariant InHand(left, deque.bags) && Conserves(was.sent, hand, AllOffered(calls[..k]), deque.sent, left, back)
    {
      ghost var mid := deque.Model();
      var next, given;
      ghost var more;
      assert calls[..k + 1][..k] == calls[..k];
      ghost var holding := left;
      next, left, given, more := Step(deque, calls[k], left, index, id);
      ConservesOn(was.sent, hand, AllOffered(calls[..k]), mid.sent, holding, back, Offered(calls[k]), deque.sent, left,
                  given);
      back := back + given;
      PlaysOn(was, mid, ops, items, deque.Model(), more, next, index, id);
      items, ops := items + next, ops + more;
    }
    assert calls[..|calls|] == calls;
    SeesEverything(was, deque.Model(), ops, items, index, id);
  }

  lemma SeesEverything<T>(l: Log<T>, end: Log<T>, ops: seq<Op<T>>, items: seq<Item<T>>, index: nat, id: nat)
    requires LogInv(l) && !l.latest && Keyed(l, index, id) && Plays(l, end, ops, items, index, id)
    ensures Keyed(end, index, id) && l.sent <= end.sent
    ensures Tiles(end.sent, items, l.cursors[index].value.next, end.cursors[index].value.next)
    ensures l.cursors[index].value.required && !l.cursors[index].value.revoked ==> NoGaps(items)
  {
    hide RunLog, Items, Tiles, NoGaps;
    CursorSeesEverything(l, ops, index, id);
  }
}
