/** The caller-owned ring: fixed arrays of values and cursors behind one lock. */
module StaticStream {
  import opened Wire
  import opened RetainedLog
  import Wakeups

  datatype CloseReason = Closed | Revoked

  /** A closed stream answers with its first close reason. */
  datatype Answer<R> = Ended(reason: CloseReason) | Answered(value: R)

  class Ring<T> {
    const latest: bool
    const values: array<Option<T>>
    const cursors: array<Option<Cursor>>
    var tail: nat
    var nextGeneration: nat
    var closed: Option<CloseReason>
    /** Which pending operations accesses may have unblocked since the last dispatch. */
    var changed: Wakeups.Bits
    ghost var sent: seq<T>

    /** The log this ring keeps the newest `values.Length` entries of. */
    ghost function Model(): Log<T>
      reads this, cursors
    {
      Log(latest, values.Length, sent, 0, cursors[..], nextGeneration)
    }

    ghost predicate Separate() {
      var storage: object := values;
      storage != cursors
    }

    ghost predicate Valid()
      reads this, values, cursors
    {
      && Separate()
      && LogInv(Model()) && tail == |sent| <= U64_MAX && nextGeneration <= U64_MAX
      && (forall k :: 0 <= k < cursors.Length && cursors[k].Some? ==> !cursors[k].value.revoked)
      && (closed.None? ==> Holds(values[..], sent))
    }

    constructor (latest: bool, capacity: nat, slots: nat)
      requires 0 < capacity && (latest ==> capacity == 1)
      ensures Valid() && Model() == Empty(latest, capacity, slots) && closed.None? && changed == Wakeups.NONE
      ensures fresh(values) && fresh(cursors)
    {
      this.latest := latest;
      values := new Option<T>[capacity](_ => None);
      cursors := new Option<Cursor>[slots](_ => None);
      tail, nextGeneration, closed, changed, sent := 0, 0, None, Wakeups.NONE, [];
      new;
      assert cursors[..] == seq(slots, _ => None);
    }

    method Subscribe(required: bool) returns (answer: Answer<Joining>)
      requires Valid()
      modifies this`nextGeneration, cursors
      ensures Valid()
      ensures closed.Some? ==> answer == Ended(closed.value) && Model() == old(Model())
      ensures closed.None? ==> answer.Answered? && (Model(), answer.value) == Join(old(Model()), required)
    {
      if closed.Some? {
        return Ended(closed.value);
      }
      if latest && required {
        return Answered(InvalidConfig);
      }
      var index := 0;
      while index < cursors.Length && cursors[index].Some?
        invariant index <= cursors.Length && Vacant(cursors[..], 0) == Vacant(cursors[..], index)
      {
        index := index + 1;
      }
      if index == cursors.Length || nextGeneration >= U64_MAX {
        return Answered(NoRoom);
      }
      ghost var was := Model();
      var generation := nextGeneration;
      nextGeneration := nextGeneration + 1;
      cursors[index] := Some(Cursor(generation, if latest then Less(tail, 1) else tail, required, false));
      assert Model() == Join(was, required).0;
      ApplyKeepsLog(was, DoJoin(required));
      return Answered(Joined(index, generation));
    }

    method SendNow(value: T) returns (answer: Answer<Sending>)
      requires Valid()
      modifies this`tail, this`sent, this`changed, values
      ensures Valid()
      ensures closed.Some? ==> answer == Ended(closed.value) && Model() == old(Model())
      ensures closed.None? ==> answer.Answered? && (Model(), answer.value) == Send(old(Model()), value)
      ensures changed == if answer == Answered(Accepted) then old(changed).(receive := true) else old(changed)
    {
      if closed.Some? {
        return Ended(closed.value);
      }
      if tail >= U64_MAX {
        return Answered(Exhausted);
      }
      if tail >= values.Length {
        var index := 0;
        while index < cursors.Length
          invariant index <= cursors.Length
          invariant forall k :: 0 <= k < index ==>
            !(cursors[k].Some? && cursors[k].value.required && cursors[k].value.next <= tail - values.Length)
        {
          if cursors[index].Some? && cursors[index].value.required
            && cursors[index].value.next <= tail - values.Length {
            assert cursors[..][index] == cursors[index] && Live(cursors[..][index]);
            return Answered(Full);
          }
          index := index + 1;
        }
      }
      ghost var (was, ring) := (Model(), values[..]);
      NewestStays(ring, sent, value);
      values[tail % values.Length] := Some(value);
      assert values[..] == ring[tail % values.Length := Some(value)];
      tail := tail + 1;
      sent := sent + [value];
      changed := changed.(receive := true);
      ApplyKeepsLog(was, DoSend(value));
      return Answered(Accepted);
    }

    method RecvNow(index: nat, generation: nat) returns (answer: Answer<Receiving<T>>)
      requires Valid()
      modifies this`changed, cursors
      ensures Valid()
      ensures closed.Some? ==> answer == Ended(closed.value) && Model() == old(Model())
      ensures closed.None? ==> answer.Answered? && (Model(), answer.value) == Receive(old(Model()), index, generation)
      ensures changed == if answer.Answered? && answer.value.Received? then old(changed).(send := true)
              else old(changed)
      ensures answer.Answered? && answer.value.Received? ==>
                && index < cursors.Length && old(cursors[index]).Some? && values.Length > 0
                && ItemIn(answer.value.item, old(cursors[index]).value, latest, values[..], tail)
    {
      if closed.Some? {
        return Ended(closed.value);
      }
      if index >= cursors.Length || cursors[index].None? || cursors[index].value.id != generation {
        return Answered(NoCursor);
      }
      ghost var was := Model();
      assert CursorInv(was, was.cursors[index]);
      ApplyKeepsLog(was, DoReceive(index, generation));
      var cursor := cursors[index].value;
      var next := if latest then Max(cursor.next, Less(tail, 1)) else cursor.next;
      var oldest := Less(tail, values.Length);
      if next < oldest {
        cursors[index] := Some(cursor.(next := oldest));
        changed := changed.(send := true);
        assert Model() == Receive(was, index, generation).0;
        NewestAt(values[..], sent, oldest);
        return Answered(Received(Gap(next, oldest)));
      }
      if next == tail {
        cursors[index] := Some(cursor.(next := next));
        assert Model() == was;
        return Answered(Nothing);
      }
      NewestAt(values[..], sent, next);
      var value := values[next % values.Length].value;
      cursors[index] := Some(cursor.(next := next + 1));
      changed := changed.(send := true);
      assert Model() == Receive(was, index, generation).0;
      return Answered(Received(Data(next, value)));
    }

    method DropReceiver(index: nat, generation: nat)
      requires Valid() && index < cursors.Length
      modifies this`changed, cursors
      ensures Valid() && Model() == Leave(old(Model()), index, generation)
      ensures changed == if Keyed(old(Model()), index, generation) then old(changed).(send := true) else old(changed)
    {
      ghost var was := Model();
      ApplyKeepsLog(was, DoLeave(index, generation));
      if cursors[index].Some? && cursors[index].value.id == generation {
        cursors[index] := None;
        changed := changed.(send := true);
      }
      assert Model() == Leave(was, index, generation);
    }

    /** What a dispatching call takes from under the lock. */
    method TakeChanged() returns (bits: Wakeups.Bits)
      requires Valid()
      modifies this`changed
      ensures Valid() && bits == old(changed) && changed == Wakeups.NONE
    {
      bits := changed;
      changed := Wakeups.NONE;
    }

    /** The first reason stays; the values are dropped and every waiter is to look again. */
    method Close(reason: CloseReason)
      requires Valid()
      modifies this`closed, this`changed, values
      ensures Valid() && Model() == old(Model())
      ensures closed == if old(closed).Some? then old(closed) else Some(reason)
      ensures changed == Wakeups.Bits(true, true) && forall k :: 0 <= k < values.Length ==> values[k].None?
    {
      if closed.None? {
        closed := Some(reason);
      }
      forall k | 0 <= k < values.Length {
        values[k] := None;
      }
      changed := Wakeups.Bits(true, true);
    }
  }

  /** What the item says of the array: a gap starts where the cursor stood and passes over entries
      already overwritten, up to the oldest one stored; data is the stored entry the cursor is owed. */
  ghost predicate ItemIn<T>(item: Item<T>, cursor: Cursor, latest: bool, values: seq<Option<T>>, tail: nat)
    requires |values| > 0
  {
    match item
    case Gap(from, to) =>
      && from == cursor.next < to < tail && to + |values| == tail && values[to % |values|].Some?
    case Data(sequence, value) =>
      && values[sequence % |values|] == Some(value) && sequence < tail <= sequence + |values|
      && (if latest then sequence == tail - 1 else sequence == cursor.next)
  }

  /** The ring keeps each of the newest entries at its sequence modulo its length. */
  ghost predicate Holds<T>(values: seq<Option<T>>, sent: seq<T>) {
    forall s :: 0 <= s < |sent| && |sent| - |values| <= s ==> At(values, s) == Some(sent[s])
  }

  function At<T>(values: seq<Option<T>>, sequence: nat): Option<T> {
    if |values| == 0 then None else values[sequence % |values|]
  }

  lemma NewestAt<T>(values: seq<Option<T>>, sent: seq<T>, sequence: nat)
    requires Holds(values, sent) && |values| > 0 && sequence < |sent| && |sent| - |values| <= sequence
    ensures values[sequence % |values|] == Some(sent[sequence])
  {
    assert At(values, sequence) == Some(sent[sequence]);
  }

  /** Writing the next value overwrites only the entry that has become too old. */
  lemma NewestStays<T>(values: seq<Option<T>>, sent: seq<T>, value: T)
    requires Holds(values, sent) && |values| > 0
    ensures Holds(values[|sent| % |values| := Some(value)], sent + [value])
  {
    var (n, tail) := (|values|, |sent|);
    var now := values[tail % n := Some(value)];
    forall s | 0 <= s < tail + 1 && tail + 1 - n <= s ensures At(now, s) == Some((sent + [value])[s]) {
      if s < tail {
        assert At(values, s) == Some(sent[s]);
        Apart(s, tail, n);
      }
    }
  }

  lemma Apart(a: nat, b: nat, n: nat)
    requires 0 < n && a < b < a + n
    ensures a % n != b % n
  {
    var q := b / n - a / n;
    assert a == n * (a / n) + a % n && b == n * (b / n) + b % n;
    assert b - a == n * q + (b % n - a % n);
    NoMultipleBetween(n, q);
  }

  lemma NoMultipleBetween(n: nat, q: int)
    ensures n * q <= 0 || n * q >= n
  {
    if q > 0 {
      assert n * q == n + n * (q - 1);
    }
  }
}
