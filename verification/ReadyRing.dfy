/** The driver's deduplicating ready ring: a bounded queue of link indices. */
module ReadyRing {
  import Records

  predicate Distinct(queue: seq<nat>) {
    forall i, j :: 0 <= i < j < |queue| ==> queue[i] != queue[j]
  }

  function Enqueued(queue: seq<nat>, index: nat): seq<nat> {
    if index in queue then queue else queue + [index]
  }

  function Position(queue: seq<nat>, index: nat): (k: nat)
    requires index in queue
    ensures k < |queue| && queue[k] == index && index !in queue[..k]
  {
    if queue[0] == index then 0 else 1 + Position(queue[1..], index)
  }

  /** The same cyclic order, starting at `index` when it is queued. */
  function Rotated(queue: seq<nat>, index: nat): seq<nat> {
    if index in queue then
      var k := Position(queue, index);
      queue[k..] + queue[..k]
    else queue
  }

  function Spun(queue: seq<nat>, turns: nat): seq<nat>
    requires turns <= |queue|
  {
    queue[turns..] + queue[..turns]
  }

  lemma TurnOnce(queue: seq<nat>, turns: nat)
    requires turns < |queue| && Distinct(queue)
    ensures var now := Spun(queue, turns);
            now != [] && Enqueued(now[1..], now[0]) == Spun(queue, turns + 1)
  {
    var now := Spun(queue, turns);
    assert now[1..] == queue[turns + 1..] + queue[..turns];
    assert now[1..] + [now[0]] == Spun(queue, turns + 1);
  }

  lemma TurnedHead(queue: seq<nat>, turns: nat)
    requires turns < |queue|
    ensures Spun(queue, turns) != [] && Spun(queue, turns)[0] == queue[turns]
  {
  }

  lemma StopsAt(queue: seq<nat>, index: nat, turns: nat)
    requires index in queue && turns <= Position(queue, index) && queue[turns] == index
    ensures Spun(queue, turns) == Rotated(queue, index)
  {
    var before := queue[..Position(queue, index)];
    forall k | 0 <= k < |before| ensures queue[k] != index {
      assert before[k] == queue[k];
    }
  }

  function Members(queue: seq<nat>): set<nat> { set x | x in queue }

  lemma {:induction false} DistinctCount(queue: seq<nat>)
    requires Distinct(queue)
    ensures |Members(queue)| == |queue|
    decreases |queue|
  {
    if |queue| > 0 {
      DistinctCount(queue[1..]);
      assert queue[0] !in Members(queue[1..]);
      assert Members(queue) == {queue[0]} + Members(queue[1..]);
    }
  }

  lemma {:induction false} BelowCount(s: set<nat>, n: nat)
    requires forall x :: x in s ==> x < n
    ensures |s| <= n
    decreases n
  {
    if n > 0 {
      BelowCount(s - {n - 1}, n - 1);
      assert |s| <= |s - {n - 1}| + 1;
    } else {
      assert s == {};
    }
  }

  /** A ring as large as its index space always has room for an absent index. */
  lemma RoomForAbsent(queue: seq<nat>, n: nat, index: nat)
    requires Distinct(queue) && (forall k :: 0 <= k < |queue| ==> queue[k] < n)
    requires index < n && index !in queue
    ensures |queue| < n
  {
    DistinctCount(queue);
    var all := Members(queue) + {index};
    assert |all| == |queue| + 1;
    BelowCount(all, n);
  }

  class Ready {
    const entries: array<nat>
    const present: array<bool>
    var head: nat
    var len: nat
    ghost var queue: seq<nat>

    ghost predicate Valid()
      reads this, entries, present
    {
      && 0 < entries.Length == present.Length
      && head < entries.Length && len == |queue| <= entries.Length
      && Distinct(queue)
      && (forall k :: 0 <= k < len ==>
            queue[k] < entries.Length && entries[Records.Wrap(head, k, entries.Length)] == queue[k])
      && (forall i :: 0 <= i < present.Length ==> (present[i] <==> i in queue))
    }

    constructor (links: nat)
      requires 0 < links
      ensures Valid() && queue == [] && fresh(entries) && fresh(present)
      ensures entries.Length == links
    {
      entries := new nat[links](_ => 0);
      present := new bool[links](_ => false);
      head, len, queue := 0, 0, [];
    }

    method Push(index: nat)
      requires Valid() && index < entries.Length
      modifies this, entries, present
      ensures Valid() && queue == Enqueued(old(queue), index)
    {
      if !present[index] {
        RoomForAbsent(queue, entries.Length, index);
        Records.WrapIsModulo(head, len, entries.Length);
        entries[(head + len) % entries.Length] := index;
        present[index] := true;
        len := len + 1;
        queue := queue + [index];
      }
    }

    method At(offset: nat) returns (index: nat)
      requires Valid() && offset < |queue|
      ensures index == queue[offset]
    {
      Records.WrapIsModulo(head, offset, entries.Length);
      index := entries[(head + offset) % entries.Length];
    }

    method Pop() returns (index: nat)
      requires Valid() && queue != []
      modifies this, present
      ensures Valid() && index == old(queue)[0] && queue == old(queue)[1..]
    {
      assert Records.Wrap(head, 0, entries.Length) == head;
      Records.WrapIsModulo(head, 1, entries.Length);
      index := entries[head];
      head := (head + 1) % entries.Length;
      len := len - 1;
      present[index] := false;
      queue := queue[1..];
    }

    lemma HeadEntry()
      requires Valid() && queue != []
      ensures entries[head] == queue[0]
    {
      assert entries[Records.Wrap(head, 0, entries.Length)] == queue[0];
    }

    /** Turns the ring until `index` is next; terminates because it is in the ring. */
    method Prioritize(index: nat)
      requires Valid() && index < entries.Length
      modifies this, entries, present
      ensures Valid() && queue == Rotated(old(queue), index)
    {
      if present[index] {
        ghost var before, k, turned := queue, Position(queue, index), 0;
        assert before == Spun(before, 0);
        HeadEntry();
        hide Spun, Distinct, Position;
        while entries[head] != index
          invariant Valid() && 0 <= turned <= k
          invariant queue == Spun(before, turned)
          invariant entries[head] == queue[0] == before[turned]
          decreases k - turned
        {
          TurnOnce(before, turned);
          var first := Pop();
          Push(first);
          turned := turned + 1;
          TurnedHead(before, turned);
          HeadEntry();
        }
        StopsAt(before, index, turned);
      }
    }
  }
}
