/** The bounded record queue: a fixed ring that discards its oldest entry. */
module Records {
  import opened Wire

  /** What the ring means: the undrained records, oldest first, and a saturating loss count. */
  datatype Queue<T> = Queue(capacity: nat, held: seq<T>, lost: U64)

  function Saturating(count: U64, more: nat): U64 {
    if count + more <= U64_MAX then count + more else U64_MAX
  }

  function Lost<T>(q: Queue<T>, count: nat): Queue<T> {
    q.(lost := Saturating(q.lost, count))
  }

  function Pushed<T>(q: Queue<T>, record: T): Queue<T> {
    if q.capacity == 0 then Lost(q, 1)
    else if |q.held| >= q.capacity then Lost(q.(held := q.held[1..] + [record]), 1)
    else q.(held := q.held + [record])
  }

  function Popped<T>(q: Queue<T>): (Queue<T>, Option<T>) {
    if q.held == [] then (q, None) else (q.(held := q.held[1..]), Some(q.held[0]))
  }

  /** A fixed FIFO over a circular buffer; nothing is allocated after construction. */
  class Ring<T> {
    const entries: array<Option<T>>
    var head: nat
    var len: nat
    var lost: U64
    ghost var contents: seq<T>

    ghost predicate Valid()
      reads this, entries
    {
      && len == |contents| <= entries.Length
      && (if entries.Length == 0 then head == 0 else head < entries.Length)
      && forall k :: 0 <= k < len ==> entries[Wrap(head, k, entries.Length)] == Some(contents[k])
    }

    ghost function Model(): Queue<T>
      reads this
    {
      Queue(entries.Length, contents, lost)
    }

    constructor (capacity: nat)
      ensures Valid() && fresh(entries)
      ensures Model() == Queue(capacity, [], 0)
    {
      entries := new Option<T>[capacity](_ => None);
      head, len, lost, contents := 0, 0, 0, [];
    }

    method Push(record: T)
      requires Valid()
      modifies this, entries
      ensures Valid()
      ensures Model() == Pushed(old(Model()), record)
    {
      if entries.Length == 0 {
        AddLost(1);
        return;
      }
      WrapIsModulo(head, len, entries.Length);
      WrapIsModulo(head, 1, entries.Length);
      if len == entries.Length {
        entries[head] := Some(record);
        head := (head + 1) % entries.Length;
        contents := contents[1..] + [record];
        AddLost(1);
      } else {
        entries[(head + len) % entries.Length] := Some(record);
        len := len + 1;
        contents := contents + [record];
      }
    }

    method Pop() returns (record: Option<T>)
      requires Valid()
      modifies this, entries
      ensures Valid()
      ensures (Model(), record) == Popped(old(Model()))
    {
      if len == 0 {
        return None;
      }
      WrapIsModulo(head, 1, entries.Length);
      assert Wrap(head, 0, entries.Length) == head;
      record := entries[head];
      entries[head] := None;
      head := (head + 1) % entries.Length;
      len := len - 1;
      contents := contents[1..];
    }

    method AddLost(count: nat)
      modifies `lost
      ensures lost == Saturating(old(lost), count)
    {
      lost := Saturating(lost, count);
    }
  }

  /** The slot `k` places after `head` in a ring of `n` slots. */
  function Wrap(head: nat, k: nat, n: nat): (index: nat)
    requires head < n && k <= n
    ensures index < n
  {
    if head + k < n then head + k else head + k - n
  }

  lemma WrapIsModulo(head: nat, k: nat, n: nat)
    requires head < n && k <= n
    ensures Wrap(head, k, n) == (head + k) % n
  {
  }

  // --- Any sequence of pushes and pops ---

  datatype Call<T> = Push(record: T) | Pop

  /** A queue together with everything ever pushed and everything handed out. */
  datatype Trace<T> = Trace(queue: Queue<T>, generated: seq<T>, drained: seq<T>)

  function After<T>(t: Trace<T>, call: Call<T>): Trace<T> {
    match call
    case Push(record) => t.(queue := Pushed(t.queue, record), generated := t.generated + [record])
    case Pop =>
      var (queue, record) := Popped(t.queue);
      t.(queue := queue, drained := if record.Some? then t.drained + [record.value] else t.drained)
  }

  function AfterAll<T>(t: Trace<T>, calls: seq<Call<T>>): Trace<T>
    decreases |calls|
  {
    if |calls| == 0 then t else AfterAll(After(t, calls[0]), calls[1..])
  }

  /** Every record is drained, held or lost, and the held ones are the newest, in order. */
  predicate Accounted<T(==)>(t: Trace<T>) {
    && |t.queue.held| <= t.queue.capacity
    && |t.queue.held| <= |t.generated|
    && t.queue.held == t.generated[|t.generated| - |t.queue.held|..]
    && |t.drained| + |t.queue.held| <= |t.generated|
    && t.queue.lost == Saturating(0, |t.generated| - |t.drained| - |t.queue.held|)
  }

  lemma {:induction false} PushKeepsAccounts<T>(t: Trace<T>, record: T)
    requires Accounted(t)
    ensures Accounted(After(t, Push(record)))
  {
    var n, h := |t.generated|, |t.queue.held|;
    var all := t.generated + [record];
    if t.queue.capacity == 0 {
      assert all[n + 1..] == [];
    } else if h >= t.queue.capacity {
      assert all[n + 1 - h..] == t.queue.held[1..] + [record];
    } else {
      assert all[n - h..] == t.queue.held + [record];
    }
  }

  lemma {:induction false} HistoryIsAccounted<T>(t: Trace<T>, calls: seq<Call<T>>)
    requires Accounted(t)
    ensures Accounted(AfterAll(t, calls))
    decreases |calls|
  {
    if |calls| == 0 {
    } else {
      if calls[0].Push? { PushKeepsAccounts(t, calls[0].record); }
      HistoryIsAccounted(After(t, calls[0]), calls[1..]);
    }
  }

  function Empty<T>(capacity: nat): Trace<T> {
    Trace(Queue(capacity, [], 0), [], [])
  }

  /** From an empty ring: nothing disappears uncounted until the counter saturates,
      and what is held is always the newest part of the history. */
  lemma {:induction false} RecordsAreConserved<T>(capacity: nat, calls: seq<Call<T>>)
    ensures Accounted(AfterAll(Empty(capacity), calls))
    ensures |AfterAll(Empty<T>(capacity), calls).queue.held| <= capacity
  {
    EmptyIsAccounted<T>(capacity);
    HistoryIsAccounted(Empty(capacity), calls);
    CapacityIsFixed(Empty(capacity), calls);
  }

  lemma EmptyIsAccounted<T>(capacity: nat)
    ensures Accounted(Empty<T>(capacity))
  {
  }

  lemma {:induction false} CapacityIsFixed<T>(t: Trace<T>, calls: seq<Call<T>>)
    ensures AfterAll(t, calls).queue.capacity == t.queue.capacity
    decreases |calls|
  {
    if |calls| > 0 { CapacityIsFixed(After(t, calls[0]), calls[1..]); }
  }
}
