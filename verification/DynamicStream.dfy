/** The owned stream: a deque of leased entries, retired as readers consume them. */
module DynamicStream {
  import opened Wire
  import opened RetainedLog
  import opened StaticStream

  /** `owner` is the grant whose item allowance the entry's lease is charged to. */
  datatype Entry<T> = Entry(sequence: nat, value: T, owner: nat)

  /** One publisher's item allowance: everything charged, and how much of it prepared
      publications and child grants hold. */
  datatype Account = Account(limit: nat, used: nat, prepared: nat, reserved: nat)

  datatype Admission = Admitted | Refused(sending: Sending) | MaintenanceRequired | StreamClosed

  function Min(a: nat, b: nat): nat { if a < b then a else b }

  function Owned<T>(entries: seq<Entry<T>>, owner: nat): nat {
    if entries == [] then 0 else Owned(entries[1..], owner) + if entries[0].owner == owner then 1 else 0
  }

  function OwnedSpare<T>(retired: Option<Entry<T>>, owner: nat): nat {
    if retired.Some? && retired.value.owner == owner then 1 else 0
  }

  /** Every live cursor has passed `sequence`. */
  predicate Consumed(cursors: seq<Option<Cursor>>, sequence: nat) {
    forall k :: 0 <= k < |cursors| && Live(cursors[k]) ==> cursors[k].value.next > sequence
  }

  /** The entries are the newest of the log, in order. */
  ghost predicate Retains<T>(entries: seq<Entry<T>>, sent: seq<T>) {
    && |entries| <= |sent|
    && forall k :: 0 <= k < |entries| ==>
         entries[k].sequence == |sent| - |entries| + k && entries[k].value == sent[|sent| - |entries| + k]
  }

  /** No live cursor is behind the first entry, unless that is all it is still owed. */
  predicate Unread(cursors: seq<Option<Cursor>>, head: nat, oldest: nat) {
    && oldest <= head
    && (head == oldest || forall k :: 0 <= k < |cursors| && Live(cursors[k]) ==> cursors[k].value.next >= head)
  }

  /** An allowance is exactly its retained and retired entries, its prepared publications
      and its children's reservations, and stays within its limit. */
  predicate Balanced<T>(accounts: seq<Account>, entries: seq<Entry<T>>, retired: Option<Entry<T>>) {
    forall p :: 0 <= p < |accounts| ==>
      accounts[p].used == Owned(entries, p) + OwnedSpare(retired, p) + accounts[p].prepared + accounts[p].reserved
      <= accounts[p].limit
  }

  /** Drops an entry's lease. */
  function Freed<T>(accounts: seq<Account>, entry: Entry<T>): seq<Account> {
    if entry.owner < |accounts| && accounts[entry.owner].used > 0
    then accounts[entry.owner := accounts[entry.owner].(used := accounts[entry.owner].used - 1)]
    else accounts
  }

  class Deque<T> {
    const latest: bool
    const capacity: nat
    var entries: seq<Entry<T>>
    var subscribers: seq<Option<Cursor>>
    var tail: nat
    var nextCursor: nat
    var closed: bool
    var needsRoom: bool
    var retired: Option<Entry<T>>
    var accounts: seq<Account>
    ghost var sent: seq<T>
    ghost var floor: nat
    /** The admitted sequences whose entry and lease are gone. */
    ghost var dropped: set<nat>
    /** Each publisher's prepared payloads, neither admitted nor given back yet. */
    ghost var bags: seq<multiset<T>>

    ghost function Model(): Log<T>
      reads this
    {
      Log(latest, capacity, sent, floor, subscribers, nextCursor)
    }

    function Head(): nat
      reads this
    {
      Less(tail, |entries|)
    }

    ghost predicate Valid()
      reads this
    {
      && LogInv(Model()) && tail == |sent| <= U64_MAX && nextCursor <= U64_MAX
      && |entries| <= capacity && Retains(entries, sent)
      && Unread(subscribers, Head(), Oldest(Model()))
      && (if closed then entries == [] && subscribers == [] && retired.None? else latest ==> |entries| == Min(tail, 1))
      && (latest ==> !needsRoom) && (!latest ==> retired.None?)
      && (retired.Some? ==> retired.value.sequence < Head() && retired.value.value == sent[retired.value.sequence])
      && Balanced(accounts, entries, retired)
      && Conserved(dropped, Head(), retired) && Bagged(bags, accounts)
    }

    constructor (latest: bool, capacity: nat, slots: nat, limits: seq<nat>)
      requires 0 < capacity && (latest ==> capacity == 1)
      ensures Valid() && Model() == Empty(latest, capacity, slots) && !closed && !needsRoom && retired.None?
      ensures bags == seq(|limits|, _ => multiset{})
      ensures |accounts| == |limits| && forall p :: 0 <= p < |limits| ==> accounts[p] == Account(limits[p], 0, 0, 0)
    {
      this.latest, this.capacity := latest, capacity;
      entries, subscribers, tail, nextCursor := [], seq(slots, _ => None), 0, 0;
      closed, needsRoom, retired, sent, floor, dropped := false, false, None, [], 0, {};
      accounts := seq(|limits|, p requires 0 <= p < |limits| => Account(limits[p], 0, 0, 0));
      bags := seq(|limits|, _ => multiset{});
    }

    method Subscribe(required: bool) returns (answer: Answer<Joining>)
      requires Valid()
      modifies `subscribers, `nextCursor
      ensures Valid()
      ensures latest && required ==> answer == Answered(InvalidConfig) && Model() == old(Model())
      ensures !(latest && required) && closed ==> answer == Ended(Closed) && Model() == old(Model())
      ensures !closed ==> answer.Answered? && (Model(), answer.value) == Join(old(Model()), required)
    {
      hide Balanced, Retains;
      if latest && required {
        return Answered(InvalidConfig);
      }
      if closed {
        return Ended(Closed);
      }
      var index := 0;
      while index < |subscribers| && subscribers[index].Some?
        invariant index <= |subscribers| && Vacant(subscribers, 0) == Vacant(subscribers, index)
      {
        index := index + 1;
      }
      if index == |subscribers| || nextCursor >= U64_MAX {
        return Answered(NoRoom);
      }
      ApplyKeepsLog(Model(), DoJoin(required));
      var id := nextCursor;
      nextCursor := nextCursor + 1;
      subscribers := subscribers[index := Some(Cursor(id, if latest then Less(tail, 1) else tail, required, false))];
      return Answered(Joined(index, id));
    }

    /** Whether a required subscriber has not read `sequence`. */
    method RequiredNeeds(sequence: nat) returns (needed: bool)
      ensures needed == Needs(subscribers, sequence)
    {
      var k := 0;
      while k < |subscribers|
        invariant k <= |subscribers|
        invariant forall j :: 0 <= j < k ==>
          !(Live(subscribers[j]) && subscribers[j].value.required && subscribers[j].value.next <= sequence)
      {
        if Live(subscribers[k]) && subscribers[k].value.required && subscribers[k].value.next <= sequence {
          return true;
        }
        k := k + 1;
      }
      return false;
    }

    /** Takes the first entry out and drops its lease: only when no reader is owed it, or
        on the log's own account. */
    method PopFront()
      requires Valid() && entries != [] && !latest
      requires Consumed(subscribers, Head()) || !Needs(subscribers, Head())
      modifies `entries, `accounts, `floor, `dropped
      ensures Valid() && entries == old(entries)[1..] && accounts == Freed(old(accounts), old(entries)[0])
      ensures dropped == old(dropped) + {old(entries)[0].sequence} && old(entries)[0].sequence !in old(dropped)
      ensures Model() == if Consumed(subscribers, old(Head())) then old(Model()) else Evict(old(Model()), old(Head()))
    {
      hide Needs, Bagged;
      var head := Head();
      HeadEntry();
      ConservedPop(dropped, head, retired);
      FreedBags(bags, accounts, entries[0]);
      PopKeeps(accounts, entries, retired);
      PopRetains(entries, sent);
      ghost var was := Model();
      accounts := Freed(accounts, entries[0]);
      dropped := dropped + {entries[0].sequence};
      entries := entries[1..];
      if !Consumed(subscribers, head) {
        ApplyKeepsLog(was, DoEvict(head));
        floor := Max(floor, head + 1);
      }
    }

    /** Retires from the front what every live cursor has read; the log is unchanged. */
    method RetireConsumed()
      requires Valid()
      modifies `entries, `accounts, `floor, `dropped
      ensures Valid() && Model() == old(Model()) && |accounts| == |old(accounts)| && old(dropped) <= dropped
      ensures !latest && entries != [] && |old(entries)| <= capacity ==> !Consumed(subscribers, Head())
      ensures Spares(old(accounts), accounts)
    {
      if latest {
        return;
      }
      hide Balanced, Retains, LogInv, Evict, Bagged;
      SparesSame(accounts);
      for turn := 0 to capacity
        invariant Valid() && Model() == old(Model()) && |entries| <= capacity - turn && old(dropped) <= dropped
        invariant Spares(old(accounts), accounts)
      {
        if entries == [] || !Consumed(subscribers, entries[0].sequence) {
          HeadEntry();
          return;
        }
        HeadEntry();
        FreedSpares(old(accounts), accounts, entries[0]);
        PopFront();
      }
    }

    lemma HeadEntry()
      requires Valid()
      ensures entries != [] ==> entries[0].sequence == Head() && entries[0].value == sent[Head()]
    {
      hide Balanced, LogInv;
    }

    /** Deferred work: the retired snapshot is dropped, consumed entries are retired, and
        one entry is given up if a strict send found no room. */
    method Maintain()
      requires Valid()
      modifies `entries, `accounts, `floor, `retired, `needsRoom, `dropped
      ensures Valid() && retired.None? && !needsRoom && Spares(old(accounts), accounts) && old(dropped) <= dropped
      ensures !latest && entries != [] ==> old(needsRoom) || !Consumed(subscribers, Head())
      ensures old(needsRoom) ==> |entries| < capacity || Needs(subscribers, Head())
      ensures !old(needsRoom) ==> Model() == old(Model())
      ensures Evicted(old(Model()), Model())
    {
      hide Bagged, Conserved, Balanced;
      SparesSame(accounts);
      if latest {
        DropRetired();
      }
      RetireConsumed();
      if needsRoom && |entries| == capacity {
        HeadEntry();
        var needed := RequiredNeeds(entries[0].sequence);
        needsRoom := false;
        if !needed {
          GiveUpFront(old(accounts));
        }
      } else {
        needsRoom := false;
      }
    }

    method DropRetired()
      requires Valid()
      modifies `retired, `accounts, `dropped
      ensures Valid() && retired.None? && Spares(old(accounts), accounts)
      ensures dropped == old(dropped) + if old(retired).Some? then {old(retired).value.sequence} else {}
      ensures old(retired).Some? ==> old(retired).value.sequence !in old(dropped)
    {
      SparesSame(accounts);
      if retired.Some? {
        dropped := dropped + {retired.value.sequence};
        FreedBags(bags, accounts, retired.value);
        FreedSpares(accounts, accounts, retired.value);
        RetiredFreed(accounts, entries, retired.value);
        accounts := Freed(accounts, retired.value);
        retired := None;
      }
    }

    method GiveUpFront(ghost before: seq<Account>)
      requires Valid() && entries != [] && !latest && !Needs(subscribers, Head()) && Spares(before, accounts)
      modifies `entries, `accounts, `floor, `dropped
      ensures Valid() && entries == old(entries)[1..] && Spares(before, accounts) && old(dropped) <= dropped
      ensures Model() == old(Model()) || Model() == Evict(old(Model()), old(Head()))
    {
      hide Needs, Balanced, Retains, LogInv, Evict;
      FreedSpares(before, accounts, entries[0]);
      PopFront();
    }

    /** A send that finds the ring full of entries a required reader still needs. */
    method FindsFull() returns (full: bool)
      requires Valid() && !closed
      ensures full == IsFull(Model())
      ensures full ==> |entries| == capacity
      ensures |entries| == capacity && !full ==> !Needs(subscribers, Head())
    {
      hide Balanced;
      HeadEntry();
      FullMeans(Model(), Head(), |entries|);
      if |entries| != capacity {
        return false;
      }
      full := RequiredNeeds(entries[0].sequence);
    }

    /** Charges the publisher for one item, reclaiming its own or older entries if its
        allowance is used up. */
    method Reserve(owner: nat, ghost value: T) returns (admission: Admission)
      requires Valid() && owner < |accounts|
      modifies `entries, `accounts, `floor, `retired, `needsRoom, `dropped, `bags
      ensures bags == if admission.Admitted? then Bag(old(bags), owner, value) else old(bags)
      ensures Valid() && |accounts| == |old(accounts)| && (admission.Admitted? ==> !closed && tail < U64_MAX)
      ensures Evicted(old(Model()), Model()) && old(dropped) <= dropped
      ensures admission.Admitted? ==> Shifted(old(accounts), accounts, owner, 1) && !IsFull(Model())
      ensures old(retired).None? ==> retired.None?
      ensures !old(needsRoom) ==> !needsRoom
      ensures !admission.Admitted? ==> Spares(old(accounts), accounts)
      ensures (admission.StreamClosed? <==> old(closed)) && !admission.MaintenanceRequired?
      ensures !closed && (old(accounts)[owner].used < old(accounts)[owner].limit) && !old(needsRoom) ==>
                && Model() == old(Model())
                && admission == if old(tail) >= U64_MAX then Refused(Exhausted)
                                else if IsFull(old(Model())) then Refused(Full) else Admitted
      ensures admission == Refused(Full) && !IsFull(Model()) ==>
                && accounts[owner].used == accounts[owner].limit
                && (latest || forall k :: 0 <= k < |entries| && entries[k].owner == owner ==>
                                Needs(subscribers, entries[k].sequence))
    {
      hide Balanced, Retains, LogInv, Evict, IsFull, Unread, Bagged, Bag, Conserved, Needs;
      SparesSame(accounts);
      if latest {
        Maintain();
      }
      for attempt := 0 to capacity + 1
        invariant Valid() && Spares(old(accounts), accounts) && owner < |accounts| == |old(accounts)|
        invariant Evicted(old(Model()), Model()) && old(dropped) <= dropped && bags == old(bags)
        invariant (old(retired).None? ==> retired.None?) && (!old(needsRoom) ==> !needsRoom)
        invariant attempt == 0 ==> accounts[owner].used <= old(accounts)[owner].used
        invariant attempt == 0 && !old(needsRoom) ==> Model() == old(Model())
        invariant attempt > 0 ==> old(accounts)[owner].used >= old(accounts)[owner].limit && !closed
        invariant attempt + |entries| <= capacity || (entries == [] && accounts[owner].used == accounts[owner].limit)
      {
        if closed {
          return StreamClosed;
        }
        if tail == U64_MAX {
          return Refused(Exhausted);
        }
        var full := FindsFull();
        if full {
          return Refused(Full);
        }
        if accounts[owner].used < accounts[owner].limit {
          ChargeKeeps(accounts, entries, retired, owner);
          ChargedBags(bags, accounts, owner, value);
          accounts := Charged(accounts, owner);
          bags := Bag(bags, owner, value);
          return Admitted;
        }
        WithinLimit(owner);
        if latest {
          return Refused(Full);
        }
        ghost var was := Model();
        var given := GiveUpOwned(owner, old(accounts));
        if !given {
          return Refused(Full);
        }
        EvictedOn(old(Model()), was, Model());
      }
      return Refused(Full);
    }

    /** Gives up the front entry if the publisher's own earliest one is not needed. */
    method GiveUpOwned(owner: nat, ghost before: seq<Account>) returns (given: bool)
      requires Valid() && !latest && Spares(before, accounts)
      modifies `entries, `accounts, `floor, `dropped
      ensures Valid() && Spares(before, accounts) && old(dropped) <= dropped && Evicted(old(Model()), Model())
      ensures given ==> old(entries) != [] && entries == old(entries)[1..]
      ensures !given ==> accounts == old(accounts) && entries == old(entries) && Model() == old(Model())
      ensures !given ==> forall k :: 0 <= k < |entries| && entries[k].owner == owner ==>
                           Needs(subscribers, entries[k].sequence)
    {
      hide Balanced, Retains, LogInv, Evict, Unread, Bagged, Conserved, Needs;
      var own := FirstOwned(owner);
      if own == |entries| {
        return false;
      }
      var needed := RequiredNeeds(entries[own].sequence);
      if needed {
        NewerIsNeeded(owner, own);
        return false;
      }
      OlderIsUnneeded(own);
      GiveUpFront(before);
      return true;
    }

    lemma WithinLimit(owner: nat)
      requires Valid() && owner < |accounts|
      ensures accounts[owner].used <= accounts[owner].limit
    {
    }

    /** Whoever needs an entry needs every later one. */
    lemma NewerIsNeeded(owner: nat, own: nat)
      requires Valid() && own < |entries| && Needs(subscribers, entries[own].sequence)
      requires forall k :: 0 <= k < own ==> entries[k].owner != owner
      ensures forall k :: 0 <= k < |entries| && entries[k].owner == owner ==> Needs(subscribers, entries[k].sequence)
    {
      hide Balanced, LogInv, Unread;
    }

    /** The publisher's own earliest entry, or the number of entries if it has none. */
    method FirstOwned(owner: nat) returns (k: nat)
      ensures k <= |entries| && (k < |entries| ==> entries[k].owner == owner)
      ensures forall j :: 0 <= j < k ==> entries[j].owner != owner
    {
      k := 0;
      while k < |entries| && entries[k].owner != owner
        invariant k <= |entries| && forall j :: 0 <= j < k ==> entries[j].owner != owner
      {
        k := k + 1;
      }
    }

    /** Checking a later entry is enough: whoever needs the first one needs every later one. */
    lemma OlderIsUnneeded(k: nat)
      requires Valid() && k < |entries| && !Needs(subscribers, entries[k].sequence)
      ensures !Needs(subscribers, Head())
    {
      hide Balanced, LogInv, Unread;
      assert Head() <= entries[k].sequence;
    }

    /** Admits a prepared publication under the lock. `deferred` forbids reclamation. */
    method Commit(owner: nat, value: T, deferred: bool) returns (admission: Admission)
      requires Valid() && owner < |accounts| && value in bags[owner]
      modifies `entries, `accounts, `tail, `sent, `retired, `needsRoom, `dropped, `bags
      ensures bags == if admission.Admitted? then Unbag(old(bags), owner, value) else old(bags)
      ensures Valid() && |accounts| == |old(accounts)| && old(dropped) <= dropped
      ensures admission.StreamClosed? <==> closed
      ensures !closed ==>
                && (admission.Refused? ==> (old(Model()), admission.sending) == Send(old(Model()), value))
                && (admission.Admitted? ==> (Model(), Accepted) == Send(old(Model()), value))
      ensures !admission.Admitted? ==> accounts == old(accounts) && Model() == old(Model()) && entries == old(entries)
      ensures !admission.Admitted? ==> dropped == old(dropped) && retired == old(retired)
      ensures admission.Admitted? ==> Shifted(old(accounts), accounts, owner, -1)
      ensures admission.MaintenanceRequired? <==>
                && deferred && !closed && old(tail) < U64_MAX && !IsFull(old(Model()))
                && |old(entries)| == capacity && (!latest || old(retired).Some?)
      ensures admission.MaintenanceRequired? && !latest ==> needsRoom && !Needs(subscribers, Head())
      ensures !deferred ==> !admission.MaintenanceRequired? && retired == old(retired) && needsRoom == old(needsRoom)
    {
      hide Balanced, Retains, LogInv, IsFull, Unread, Needs, Bagged, Unbag;
      if closed {
        return StreamClosed;
      }
      if tail >= U64_MAX {
        return Refused(Exhausted);
      }
      var full := FindsFull();
      if full {
        return Refused(Full);
      }
      if |entries| == capacity && deferred && (!latest || retired.Some?) {
        if !latest {
          needsRoom := true;
        }
        return MaintenanceRequired;
      }
      if |entries| < capacity {
        PushBack(owner, value);
      } else {
        PushOver(owner, value, deferred);
      }
      return Admitted;
    }

    /** Moves the lease into a new last entry while there is room. */
    method PushBack(owner: nat, value: T)
      requires Valid() && !closed && tail < U64_MAX && !IsFull(Model())
      requires owner < |accounts| && value in bags[owner] && |entries| < capacity
      modifies `entries, `accounts, `tail, `sent, `bags
      ensures bags == Unbag(old(bags), owner, value)
      ensures Valid() && (Model(), Accepted) == Send(old(Model()), value)
      ensures Shifted(old(accounts), accounts, owner, -1)
    {
      hide Bagged, Unbag, Conserved;
      ghost var was := Model();
      ApplyKeepsLog(was, DoSend(value));
      PushUnread(was, Head(), |entries|, value);
      assert Send(was, value) == (was.(sent := was.sent + [value]), Accepted);
      HeadEntry();
      MovedBags(bags, accounts, owner, value);
      PushAccounts(accounts, entries, retired, tail, value, owner, false, capacity);
      PushShifts(accounts, entries, false, owner);
      PushRetains(entries, sent, value, owner, capacity);
      hide Needs, IsFull, LogInv, Balanced, Retains, Unread, Oldest, Freed, Moved, Send, Evict, Consumed, Shifted;
      entries, accounts := entries + [Entry(tail, value, owner)], Moved(accounts, owner);
      bags := Unbag(bags, owner, value);
      tail, sent := tail + 1, sent + [value];
    }

    /** A full deque loses its first entry to the new last one; it is kept as the retired
        snapshot when reclamation is deferred. */
    method PushOver(owner: nat, value: T, deferred: bool)
      requires Valid() && !closed && tail < U64_MAX && !IsFull(Model()) && |entries| == capacity
      requires owner < |accounts| && value in bags[owner] && (deferred ==> latest && retired.None?)
      modifies `entries, `accounts, `tail, `sent, `retired, `dropped, `bags
      ensures bags == Unbag(old(bags), owner, value)
      ensures Valid() && (Model(), Accepted) == Send(old(Model()), value)
      ensures Shifted(old(accounts), accounts, owner, -1)
      ensures dropped == old(dropped) + if deferred then {} else {old(entries)[0].sequence}
      ensures old(entries)[0].sequence !in old(dropped)
      ensures retired == if deferred then Some(old(entries)[0]) else old(retired)
    {
      hide Needs, IsFull, LogInv, Balanced, Retains, Unread, Oldest, Freed, Moved, Send, Evict, Consumed, Shifted;
      hide Conserved;
      hide Bagged, Unbag;
      OverHolds(owner, value, deferred);
      if deferred {
        retired := Some(entries[0]);
        accounts := Moved(accounts, owner);
      } else {
        accounts := Moved(Freed(accounts, entries[0]), owner);
        dropped := dropped + {entries[0].sequence};
      }
      entries := entries[1..] + [Entry(tail, value, owner)];
      bags := Unbag(bags, owner, value);
      tail, sent := tail + 1, sent + [value];
    }

    lemma OverHolds(owner: nat, value: T, deferred: bool)
      requires Valid() && !closed && tail < U64_MAX && !IsFull(Model()) && |entries| == capacity
      requires owner < |accounts| && value in bags[owner] && (deferred ==> latest && retired.None?)
      ensures |sent| == tail && Head() + |entries| == tail && entries != []
      ensures entries[0].sequence == Head() && Head() !in dropped && entries[0].value == sent[Head()]
      ensures var was := Model();
              var now := was.(sent := was.sent + [value]);
              && Send(was, value) == (now, Accepted) && LogInv(now) && Unread(subscribers, Head() + 1, Oldest(now))
      ensures var moved := Moved(if deferred then accounts else Freed(accounts, entries[0]), owner);
              var kept := entries[1..] + [Entry(tail, value, owner)];
              var left := if deferred then Some(entries[0]) else retired;
              && Balanced(moved, kept, left) && Shifted(accounts, moved, owner, -1) && Retains(kept, sent + [value])
              && Conserved(if deferred then dropped else dropped + {Head()}, Head() + 1, left)
              && Bagged(Unbag(bags, owner, value), moved)
    {
      HeadEntry();
      var was := Model();
      ApplyKeepsLog(was, DoSend(value));
      PushUnread(was, Head(), |entries|, value);
      assert Send(was, value) == (was.(sent := was.sent + [value]), Accepted);
      hide LogInv, Balanced, Retains, Unread, Conserved, Oldest, Shifted, Needs, Bagged, Unbag;
      FreedBags(bags, accounts, entries[0]);
      MovedBags(bags, if deferred then accounts else Freed(accounts, entries[0]), owner, value);
      PushAccounts(accounts, entries, retired, tail, value, owner, deferred, capacity);
      PushShifts(accounts, entries, !deferred, owner);
      PushRetains(entries, sent, value, owner, capacity);
      ConservedPush(dropped, Head(), retired, entries[0], deferred);
    }

    /** One subscriber's next item; its revoked grant ends the subscription first. */
    method TryReceive(index: nat, id: nat) returns (answer: Answer<Receiving<T>>)
      requires Valid()
      modifies `subscribers
      ensures Valid()
      ensures IsRevoked(old(subscribers), index) ==> answer == Ended(Revoked) && Model() == old(Model())
      ensures !IsRevoked(old(subscribers), index) && closed ==> answer == Ended(Closed) && Model() == old(Model())
      ensures !IsRevoked(old(subscribers), index) && !closed ==>
                answer.Answered? && (Model(), answer.value) == Receive(old(Model()), index, id)
      ensures answer.Answered? && answer.value.Received? ==>
                && index < |old(subscribers)| && old(subscribers)[index].Some?
                && ItemAmong(answer.value.item, old(subscribers)[index].value, latest, entries, tail)
    {
      hide Balanced, Bagged, Conserved;
      if IsRevoked(subscribers, index) {
        return Ended(Revoked);
      }
      if closed {
        return Ended(Closed);
      }
      if index >= |subscribers| || subscribers[index].None? || subscribers[index].value.id != id {
        return Answered(NoCursor);
      }
      ApplyKeepsLog(Model(), DoReceive(index, id));
      ReadsInside(Model(), index, Head());
      var cursor := subscribers[index].value;
      var next := if latest then Max(cursor.next, Less(tail, 1)) else cursor.next;
      var head := if entries == [] then tail else entries[0].sequence;
      if next < head {
        subscribers := subscribers[index := Some(cursor.(next := head))];
        return Answered(Received(Gap(next, head)));
      }
      if next < tail {
        var value := entries[next - head].value;
        subscribers := subscribers[index := Some(cursor.(next := next + 1))];
        return Answered(Received(Data(next, value)));
      }
      return Answered(Nothing);
    }

    method ReceiveNow(index: nat, id: nat) returns (answer: Answer<Receiving<T>>)
      requires Valid()
      modifies `subscribers, `entries, `accounts, `floor, `retired, `needsRoom, `dropped
      ensures Valid() && retired.None? && !needsRoom && Spares(old(accounts), accounts) && old(dropped) <= dropped
      ensures IsRevoked(old(subscribers), index) ==> answer == Ended(Revoked)
      ensures IsRevoked(old(subscribers), index) || closed ==> answer.Ended? && Evicted(old(Model()), Model())
      ensures !IsRevoked(old(subscribers), index) && !closed ==> Evicted(Receive(old(Model()), index, id).0, Model())
      ensures !IsRevoked(old(subscribers), index) && !closed ==>
                && answer == Answered(Receive(old(Model()), index, id).1)
                && (!old(needsRoom) ==> Model() == Receive(old(Model()), index, id).0)
    {
      answer := TryReceive(index, id);
      Maintain();
    }

    /** Prepares and commits in one call; a refused publication releases its charge. */
    method SendNow(owner: nat, value: T) returns (admission: Admission)
      requires Valid() && owner < |accounts|
      modifies `entries, `accounts, `floor, `retired, `needsRoom, `tail, `sent, `dropped, `bags
      ensures Valid() && |accounts| == |old(accounts)| && old(dropped) <= dropped && bags == old(bags)
      ensures admission.Admitted? ==> Sent(old(Model()), value, Model())
      ensures !admission.Admitted? ==> Evicted(old(Model()), Model())
      ensures !admission.MaintenanceRequired? && Shifted(old(accounts), accounts, owner, 0)
      ensures old(retired).None? ==> retired.None?
      ensures !old(needsRoom) ==> !needsRoom
      ensures !old(closed) && old(accounts)[owner].used < old(accounts)[owner].limit && !old(needsRoom) ==>
                && Model() == Send(old(Model()), value).0
                && admission == if Send(old(Model()), value).1.Accepted? then Admitted
                                else Refused(Send(old(Model()), value).1)
    {
      hide Balanced, Retains, LogInv, Evict, Unread, Needs, Bagged, Bag, Unbag, Conserved;
      BagSize(bags, accounts);
      admission := Reserve(owner, value);
      if admission.Admitted? {
        BagAndUnbag(old(bags), owner, value);
        admission := Commit(owner, value, false);
      }
    }

    /** A prepared publication is cancelled: its charge is released. */
    method Discard(owner: nat, ghost value: T)
      requires Valid() && owner < |accounts| && value in bags[owner]
      modifies `accounts, `bags
      ensures Valid() && accounts == Released(old(accounts), owner) && bags == Unbag(old(bags), owner, value)
    {
      hide Retains, LogInv, Unread, Conserved;
      ReleasedBags(bags, accounts, entries, retired, owner, value);
      ReleaseKeeps(accounts, entries, retired, owner);
      accounts := Released(accounts, owner);
      bags := Unbag(bags, owner, value);
    }

    /** The last handle of a subscription goes. */
    method DropReceiver(index: nat, id: nat)
      requires Valid() && (closed || Keyed(Model(), index, id))
      modifies `subscribers, `entries, `accounts, `floor, `dropped
      ensures Valid() && (!closed ==> Model() == Leave(old(Model()), index, id)) && Spares(old(accounts), accounts)
      ensures old(dropped) <= dropped
    {
      ApplyKeepsLog(Model(), DoLeave(index, id));
      hide Balanced, Retains;
      if index < |subscribers| {
        subscribers := subscribers[index := None];
      }
      RetireConsumed();
    }

    /** The grant behind a subscription is revoked. */
    method RevokeGrant(index: nat)
      requires Valid()
      modifies `subscribers
      ensures Valid() && Model() == RetainedLog.Revoke(old(Model()), index)
    {
      ApplyKeepsLog(Model(), DoRevoke(index));
      hide Balanced, Retains;
      if index < |subscribers| && subscribers[index].Some? {
        subscribers := subscribers[index := Some(subscribers[index].value.(revoked := true))];
      }
    }

    /** Closing drops every entry, subscription and retired snapshot. */
    method CloseStream()
      requires Valid()
      modifies `closed, `entries, `subscribers, `retired, `accounts, `dropped
      ensures Valid() && closed && entries == [] && subscribers == [] && sent == old(sent)
      ensures Conserved<T>(dropped, |sent|, None) && old(dropped) <= dropped
      ensures |accounts| == |old(accounts)| && forall p :: 0 <= p < |accounts| ==>
                accounts[p].used == old(accounts)[p].prepared + old(accounts)[p].reserved
    {
      hide Conserved, Balanced, Bagged, Retains, Unread, LogInv, Sequences;
      ClosedHolds();
      dropped := dropped + (Sequences(entries) + if retired.Some? then {retired.value.sequence} else {});
      closed := true;
      accounts := AllEmptied(accounts);
      entries, subscribers, retired := [], [], None;
    }

    lemma ClosedHolds()
      requires Valid()
      ensures LogInv(Model().(cursors := [])) && Retains([], sent) && |sent| == tail <= U64_MAX
      ensures Unread([], tail, Oldest(Model().(cursors := [])))
      ensures var gone := Sequences(entries) + if retired.Some? then {retired.value.sequence} else {};
              Conserved<T>(dropped + gone, |sent|, None)
      ensures Balanced<T>(AllEmptied(accounts), [], None) && Bagged(bags, AllEmptied(accounts))
    {
      EmptiedBalanced(accounts, entries, retired, bags);
      hide Balanced, Bagged;
      ConservedClose(dropped, Head(), entries, sent, retired);
      hide Conserved, Needs;
    }

    /** A child grant reserves items out of a publisher's allowance, or is refused. */
    method Delegate(owner: nat, items: nat) returns (reserved: bool)
      requires Valid() && owner < |accounts|
      modifies `accounts
      ensures Valid() && reserved == (old(accounts)[owner].used + items <= old(accounts)[owner].limit)
      ensures accounts == if reserved then Delegated(old(accounts), owner, items) else old(accounts)
    {
      hide Retains, LogInv, Unread, Conserved;
      reserved := accounts[owner].used + items <= accounts[owner].limit;
      if reserved {
        accounts := Delegated(accounts, owner, items);
      }
    }

    /** A child grant goes and gives back what it reserved. */
    method Return(owner: nat, items: nat)
      requires Valid() && owner < |accounts| && items <= accounts[owner].reserved
      modifies `accounts
      ensures Valid() && |accounts| == |old(accounts)| && old(accounts) == Delegated(accounts, owner, items)
    {
      hide Retains, LogInv, Unread, Conserved;
      accounts := accounts[owner := accounts[owner].(used := accounts[owner].used - items,
                                                     reserved := accounts[owner].reserved - items)];
    }
  }

  /** Every sequence below the first entry was dropped, but for a retired snapshot: each
      admitted payload is retained, retired or dropped, and only one of these. */
  predicate Conserved<T>(dropped: set<nat>, head: nat, retired: Option<Entry<T>>) {
    && (forall s: nat :: s in dropped ==> s < head && !(retired.Some? && s == retired.value.sequence))
    && (forall s: nat :: s < head ==> s in dropped || (retired.Some? && s == retired.value.sequence))
  }

  lemma ConservedPop<T>(dropped: set<nat>, head: nat, retired: Option<Entry<T>>)
    requires Conserved(dropped, head, retired) && (retired.Some? ==> retired.value.sequence < head)
    ensures Conserved(dropped + {head}, head + 1, retired) && head !in dropped
  {
  }

  lemma ConservedPush<T>(dropped: set<nat>, head: nat, retired: Option<Entry<T>>, first: Entry<T>, deferred: bool)
    requires Conserved(dropped, head, retired) && first.sequence == head
    requires if deferred then retired.None? else retired.Some? ==> retired.value.sequence < head
    ensures head !in dropped
    ensures Conserved(if deferred then dropped else dropped + {head}, head + 1,
                      if deferred then Some(first) else retired)
  {
  }

  function Sequences<T>(entries: seq<Entry<T>>): set<nat> { set k | 0 <= k < |entries| :: entries[k].sequence }

  /** The accounts once every entry's lease is gone. */
  function AllEmptied(accounts: seq<Account>): (left: seq<Account>)
    ensures |left| == |accounts|
    ensures forall p :: 0 <= p < |left| ==> left[p] == accounts[p].(used := accounts[p].prepared + accounts[p].reserved)
  {
    seq(|accounts|, p requires 0 <= p < |accounts| => accounts[p].(used := accounts[p].prepared + accounts[p].reserved))
  }

  lemma EmptiedBalanced<T>(accounts: seq<Account>, entries: seq<Entry<T>>, retired: Option<Entry<T>>,
                           bags: seq<multiset<T>>)
    requires Balanced(accounts, entries, retired) && Bagged(bags, accounts)
    ensures Balanced<T>(AllEmptied(accounts), [], None) && Bagged(bags, AllEmptied(accounts))
  {
  }

  lemma ConservedClose<T>(dropped: set<nat>, head: nat, entries: seq<Entry<T>>, sent: seq<T>, retired: Option<Entry<T>>)
    requires Conserved(dropped, head, retired) && Retains(entries, sent) && head + |entries| == |sent|
    requires retired.Some? ==> retired.value.sequence < head
    ensures var gone := Sequences(entries) + if retired.Some? then {retired.value.sequence} else {};
            Conserved<T>(dropped + gone, |sent|, None)
  {
    forall s: nat | head <= s < |sent| ensures s in Sequences(entries) {
      assert entries[s - head].sequence == s;
    }
  }

  /** A send, perhaps after giving up entries no required cursor needs. */
  ghost predicate Sent<T>(was: Log<T>, value: T, now: Log<T>) {
    (now, Accepted) == Send(was, value) || exists sequence :: (now, Accepted) == Send(Evict(was, sequence), value)
  }

  function Delegated(accounts: seq<Account>, owner: nat, items: nat): seq<Account>
    requires owner < |accounts|
  {
    accounts[owner := accounts[owner].(used := accounts[owner].used + items,
                                       reserved := accounts[owner].reserved + items)]
  }

  /** As many payloads as the allowance counts prepared publications. */
  predicate Bagged<T>(bags: seq<multiset<T>>, accounts: seq<Account>) {
    |bags| == |accounts| && forall p :: 0 <= p < |bags| ==> |bags[p]| == accounts[p].prepared
  }

  function Bag<T>(bags: seq<multiset<T>>, owner: nat, value: T): seq<multiset<T>> {
    if owner < |bags| then bags[owner := bags[owner] + multiset{value}] else bags
  }

  function Unbag<T>(bags: seq<multiset<T>>, owner: nat, value: T): seq<multiset<T>> {
    if owner < |bags| then bags[owner := bags[owner] - multiset{value}] else bags
  }

  lemma BagSize<T>(bags: seq<multiset<T>>, accounts: seq<Account>)
    requires Bagged(bags, accounts)
    ensures |bags| == |accounts|
  {
  }

  lemma BagAndUnbag<T>(bags: seq<multiset<T>>, owner: nat, value: T)
    ensures Unbag(Bag(bags, owner, value), owner, value) == bags
    ensures owner < |bags| ==> value in Bag(bags, owner, value)[owner]
  {
    if owner < |bags| {
      assert bags[owner] + multiset{value} - multiset{value} == bags[owner];
    }
  }

  lemma FreedBags<T>(bags: seq<multiset<T>>, accounts: seq<Account>, entry: Entry<T>)
    requires Bagged(bags, accounts)
    ensures Bagged(bags, Freed(accounts, entry))
  {
  }

  lemma ChargedBags<T>(bags: seq<multiset<T>>, accounts: seq<Account>, owner: nat, value: T)
    requires Bagged(bags, accounts) && owner < |accounts|
    ensures Bagged(Bag(bags, owner, value), Charged(accounts, owner))
  {
  }

  lemma MovedBags<T>(bags: seq<multiset<T>>, accounts: seq<Account>, owner: nat, value: T)
    requires Bagged(bags, accounts) && owner < |accounts| && value in bags[owner]
    ensures Bagged(Unbag(bags, owner, value), Moved(accounts, owner)) && accounts[owner].prepared > 0
  {
    Taken(bags[owner], value);
  }

  lemma ReleasedBags<T>(bags: seq<multiset<T>>, accounts: seq<Account>, entries: seq<Entry<T>>,
                        retired: Option<Entry<T>>,
                        owner: nat, value: T)
    requires Bagged(bags, accounts) && Balanced(accounts, entries, retired) && owner < |accounts|
             && value in bags[owner]
    ensures Bagged(Unbag(bags, owner, value), Released(accounts, owner)) && accounts[owner].prepared > 0
  {
    Taken(bags[owner], value);
  }

  lemma Taken<T>(bag: multiset<T>, value: T)
    requires value in bag
    ensures |bag - multiset{value}| == |bag| - 1
  {
  }

  lemma PopRetains<T>(entries: seq<Entry<T>>, sent: seq<T>)
    requires Retains(entries, sent) && entries != []
    ensures Retains(entries[1..], sent)
  {
  }

  lemma {:induction false} OwnedPositive<T>(entries: seq<Entry<T>>, k: nat)
    requires k < |entries|
    ensures Owned(entries, entries[k].owner) > 0
    decreases k
  {
    if k > 0 { OwnedPositive(entries[1..], k - 1); }
  }

  lemma PopKeeps<T>(accounts: seq<Account>, entries: seq<Entry<T>>, retired: Option<Entry<T>>)
    requires Balanced(accounts, entries, retired) && entries != []
    ensures Balanced(Freed(accounts, entries[0]), entries[1..], retired)
  {
    OwnedPositive(entries, 0);
  }

  predicate IsRevoked(cursors: seq<Option<Cursor>>, index: nat) {
    index < |cursors| && cursors[index].Some? && cursors[index].value.revoked
  }

  /** Only released: nobody's charge grew and nothing prepared or reserved was touched. */
  predicate Spares(was: seq<Account>, now: seq<Account>) {
    && |was| == |now|
    && forall p :: 0 <= p < |was| ==> now[p].used <= was[p].used && now[p] == was[p].(used := now[p].used)
  }

  /** Limits and reservations stand; only the owner's prepared count moves, by `change`. */
  predicate Shifted(was: seq<Account>, now: seq<Account>, owner: nat, change: int) {
    && |was| == |now|
    && forall p :: 0 <= p < |was| ==>
         && now[p].limit == was[p].limit && now[p].reserved == was[p].reserved
         && now[p].prepared == was[p].prepared + if p == owner then change else 0
  }

  lemma SparesSame(accounts: seq<Account>)
    ensures Spares(accounts, accounts)
  {
  }

  lemma FreedSpares<T>(was: seq<Account>, now: seq<Account>, entry: Entry<T>)
    requires Spares(was, now)
    ensures Spares(was, Freed(now, entry))
  {
  }

  function Charged(accounts: seq<Account>, owner: nat): seq<Account> {
    if owner < |accounts| then
      accounts[owner := accounts[owner].(used := accounts[owner].used + 1, prepared := accounts[owner].prepared + 1)]
    else accounts
  }

  /** A prepared publication's lease becomes an entry's. */
  function Moved(accounts: seq<Account>, owner: nat): seq<Account> {
    if owner < |accounts| && accounts[owner].prepared > 0 then
      accounts[owner := accounts[owner].(prepared := accounts[owner].prepared - 1)]
    else accounts
  }

  function Released(accounts: seq<Account>, owner: nat): seq<Account> {
    if owner < |accounts| && accounts[owner].prepared > 0 && accounts[owner].used > 0 then
      accounts[owner := accounts[owner].(used := accounts[owner].used - 1, prepared := accounts[owner].prepared - 1)]
    else accounts
  }

  lemma ReleaseKeeps<T>(accounts: seq<Account>, entries: seq<Entry<T>>, retired: Option<Entry<T>>, owner: nat)
    requires Balanced(accounts, entries, retired) && owner < |accounts|
    ensures Balanced(Released(accounts, owner), entries, retired)
  {
  }

  lemma ChargeKeeps<T>(accounts: seq<Account>, entries: seq<Entry<T>>, retired: Option<Entry<T>>, owner: nat)
    requires Balanced(accounts, entries, retired) && owner < |accounts| && accounts[owner].used < accounts[owner].limit
    ensures Balanced(Charged(accounts, owner), entries, retired)
  {
  }

  lemma RetiredFreed<T>(accounts: seq<Account>, entries: seq<Entry<T>>, retired: Entry<T>)
    requires Balanced(accounts, entries, Some(retired))
    ensures Balanced(Freed(accounts, retired), entries, None)
  {
  }

  lemma {:induction false} OwnedAppend<T>(entries: seq<Entry<T>>, entry: Entry<T>, owner: nat)
    ensures Owned(entries + [entry], owner) == Owned(entries, owner) + if entry.owner == owner then 1 else 0
    decreases |entries|
  {
    if entries != [] {
      assert (entries + [entry])[1..] == entries[1..] + [entry];
      OwnedAppend(entries[1..], entry, owner);
    }
  }

  lemma OwnedPushed<T>(entries: seq<Entry<T>>, full: bool, entry: Entry<T>, p: nat)
    requires full ==> entries != []
    ensures Owned((if full then entries[1..] else entries) + [entry], p)
            == Owned(entries, p) - (if full && entries[0].owner == p then 1 else 0) + if entry.owner == p then 1 else 0
  {
    OwnedAppend(if full then entries[1..] else entries, entry, p);
  }

  lemma PushAccounts<T>(accounts: seq<Account>, entries: seq<Entry<T>>, retired: Option<Entry<T>>, tail: nat, value: T,
                        owner: nat, deferred: bool, capacity: nat)
    requires Balanced(accounts, entries, retired) && owner < |accounts| && accounts[owner].prepared > 0
    requires |entries| <= capacity && 0 < capacity && (|entries| == capacity && deferred ==> retired.None?)
    ensures var full := |entries| == capacity;
            var kept := if full then entries[1..] else entries;
            var freed := if full && !deferred then Freed(accounts, entries[0]) else accounts;
            var moved := Moved(freed, owner);
            Balanced(moved, kept + [Entry(tail, value, owner)], if full && deferred then Some(entries[0]) else retired)
  {
    var full := |entries| == capacity;
    if full { OwnedPositive(entries, 0); }
    forall p: nat
      ensures Owned((if full then entries[1..] else entries) + [Entry(tail, value, owner)], p)
              == Owned(entries, p) - (if full && entries[0].owner == p then 1 else 0) + if owner == p then 1 else 0
    {
      OwnedPushed(entries, full, Entry(tail, value, owner), p);
    }
    hide Owned;
  }

  lemma PushShifts<T>(accounts: seq<Account>, entries: seq<Entry<T>>, free: bool, owner: nat)
    requires owner < |accounts| && accounts[owner].prepared > 0 && (free ==> entries != [])
    ensures Shifted(accounts, Moved(if free then Freed(accounts, entries[0]) else accounts, owner), owner, -1)
  {
  }

  lemma PushUnread<T>(l: Log<T>, head: nat, length: nat, value: T)
    requires LogInv(l) && head + length == |l.sent| && length <= l.capacity && Unread(l.cursors, head, Oldest(l))
    ensures Unread(l.cursors, if length == l.capacity then head + 1 else head, Oldest(l.(sent := l.sent + [value])))
  {
  }

  lemma PushRetains<T>(entries: seq<Entry<T>>, sent: seq<T>, value: T, owner: nat, capacity: nat)
    requires Retains(entries, sent) && |entries| <= capacity && 0 < capacity
    ensures var kept := if |entries| == capacity then entries[1..] else entries;
            Retains(kept + [Entry(|sent|, value, owner)], sent + [value])
  {
  }

  /** A full deque is a full log; a deque with room is never a full log. */
  lemma FullMeans<T>(l: Log<T>, head: nat, length: nat)
    requires LogInv(l) && head + length == |l.sent| && length <= l.capacity && Unread(l.cursors, head, Oldest(l))
    ensures length == l.capacity ==> Needs(l.cursors, head) == IsFull(l)
    ensures length < l.capacity ==> !IsFull(l)
  {
    if IsFull(l) {
      var k :| 0 <= k < |l.cursors| && Live(l.cursors[k]) && l.cursors[k].value.required
               && l.cursors[k].value.next <= |l.sent| - l.capacity;
      assert CursorInv(l, l.cursors[k]);
    }
  }

  /** What the item says of the deque: a gap starts where the cursor stood and passes over no entry,
      up to the first one held; data is the held entry the cursor is owed. */
  ghost predicate ItemAmong<T>(item: Item<T>, cursor: Cursor, latest: bool, entries: seq<Entry<T>>, tail: nat) {
    match item
    case Gap(from, to) =>
      && from == cursor.next < to && to == (if entries == [] then tail else entries[0].sequence)
      && forall k :: 0 <= k < |entries| ==> entries[k].sequence >= to
    case Data(sequence, value) =>
      && (exists k :: 0 <= k < |entries| && entries[k].sequence == sequence && entries[k].value == value)
      && (if latest then sequence == tail - 1 else sequence == cursor.next)
  }

  /** A live cursor reads at or after the head, or is behind exactly what it is owed. */
  lemma ReadsInside<T>(l: Log<T>, index: nat, head: nat)
    requires LogInv(l) && index < |l.cursors| && Live(l.cursors[index]) && Unread(l.cursors, head, Oldest(l))
    ensures Reads(l, l.cursors[index].value) < head ==> head == Oldest(l)
  {
  }
}
