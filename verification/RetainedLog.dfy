/** One unbounded log with cursors: what both retained streams present to their users. */
module RetainedLog {
  import opened Wire

  /** `required` cursors hold back senders; a revoked one no longer counts. */
  datatype Cursor = Cursor(id: nat, next: nat, required: bool, revoked: bool)

  datatype Item<T> = Data(sequence: nat, value: T) | Gap(from: nat, to: nat)

  /** `floor` is below the first sequence given up early to reclaim storage. */
  datatype Log<T> = Log(
    latest: bool, capacity: nat, sent: seq<T>, floor: nat, cursors: seq<Option<Cursor>>, nextId: nat)

  datatype Sending = Accepted | Full | Exhausted

  datatype Joining = Joined(index: nat, id: nat) | InvalidConfig | NoRoom

  datatype Receiving<T> = Received(item: Item<T>) | Nothing | NoCursor

  function Max(a: nat, b: nat): nat { if a < b then b else a }

  function Less(a: nat, b: nat): nat { if a < b then 0 else a - b }

  /** The first sequence still owed to a cursor that has not read it. */
  function Oldest<T>(l: Log<T>): nat { Max(l.floor, Less(|l.sent|, l.capacity)) }

  predicate Live(cursor: Option<Cursor>) { cursor.Some? && !cursor.value.revoked }

  /** A required cursor has not read `sequence`. */
  predicate Needs(cursors: seq<Option<Cursor>>, sequence: nat) {
    exists k :: 0 <= k < |cursors| && Live(cursors[k]) && cursors[k].value.required && cursors[k].value.next <= sequence
  }

  predicate Keyed<T>(l: Log<T>, index: nat, id: nat) {
    index < |l.cursors| && l.cursors[index].Some? && l.cursors[index].value.id == id
  }

  // --- Operations ---

  /** The lowest empty cursor slot at or after `from`. */
  function Vacant(cursors: seq<Option<Cursor>>, from: nat): (k: nat)
    requires from <= |cursors|
    ensures from <= k <= |cursors| && (k < |cursors| ==> cursors[k].None?)
    ensures forall j :: from <= j < k ==> cursors[j].Some?
    decreases |cursors| - from
  {
    if from == |cursors| || cursors[from].None? then from else Vacant(cursors, from + 1)
  }

  function Join<T>(l: Log<T>, required: bool): (Log<T>, Joining) {
    if l.latest && required then (l, InvalidConfig)
    else
      var index := Vacant(l.cursors, 0);
      if index == |l.cursors| || l.nextId >= U64_MAX then (l, NoRoom)
      else
        var next := if l.latest then Less(|l.sent|, 1) else |l.sent|;
        (l.(cursors := l.cursors[index := Some(Cursor(l.nextId, next, required, false))], nextId := l.nextId + 1),
         Joined(index, l.nextId))
  }

  predicate IsFull<T>(l: Log<T>) {
    |l.sent| >= l.capacity && Needs(l.cursors, |l.sent| - l.capacity)
  }

  function Send<T>(l: Log<T>, value: T): (Log<T>, Sending) {
    if |l.sent| >= U64_MAX then (l, Exhausted)
    else if IsFull(l) then (l, Full)
    else (l.(sent := l.sent + [value]), Accepted)
  }

  function Place(l: Cursor, next: nat): Cursor { l.(next := next) }

  /** Where the cursor reads: latest-state cursors skip to the newest version. */
  function Reads<T>(l: Log<T>, cursor: Cursor): nat {
    if l.latest then Max(cursor.next, Less(|l.sent|, 1)) else cursor.next
  }

  function Receive<T>(l: Log<T>, index: nat, id: nat): (Log<T>, Receiving<T>) {
    if !Keyed(l, index, id) then (l, NoCursor)
    else
      var cursor := l.cursors[index].value;
      var next := Reads(l, cursor);
      if next < Oldest(l) then
        (l.(cursors := l.cursors[index := Some(Place(cursor, Oldest(l)))]), Received(Gap(next, Oldest(l))))
      else if next < |l.sent| then
        (l.(cursors := l.cursors[index := Some(Place(cursor, next + 1))]), Received(Data(next, l.sent[next])))
      else (l, Nothing)
  }

  function Leave<T>(l: Log<T>, index: nat, id: nat): Log<T> {
    if Keyed(l, index, id) then l.(cursors := l.cursors[index := None]) else l
  }

  function Revoke<T>(l: Log<T>, index: nat): Log<T> {
    if index < |l.cursors| && l.cursors[index].Some? then
      l.(cursors := l.cursors[index := Some(l.cursors[index].value.(revoked := true))])
    else l
  }

  /** Gives up `sequence` and everything before it, unless a required cursor needs it. */
  function Evict<T>(l: Log<T>, sequence: nat): Log<T> {
    if l.latest || sequence >= |l.sent| || Needs(l.cursors, sequence) then l
    else l.(floor := Max(l.floor, sequence + 1))
  }

  /** Nothing happened but giving up entries no required cursor needs. */
  ghost predicate Evicted<T>(l: Log<T>, now: Log<T>) { now == l || exists sequence :: now == Evict(l, sequence) }

  lemma EvictedOn<T>(a: Log<T>, b: Log<T>, c: Log<T>)
    requires Evicted(a, b) && Evicted(b, c)
    ensures Evicted(a, c)
  {
    if b != a && c != b {
      var s :| b == Evict(a, s);
      var t :| c == Evict(b, t);
      assert c == Evict(a, Max(s, t));
    }
  }

  datatype Op<T> =
    | DoJoin(required: bool)
    | DoSend(value: T)
    | DoReceive(index: nat, id: nat)
    | DoLeave(index: nat, id: nat)
    | DoRevoke(index: nat)
    | DoEvict(sequence: nat)

  function Apply<T>(l: Log<T>, op: Op<T>): Log<T> {
    match op
    case DoJoin(required) => Join(l, required).0
    case DoSend(value) => Send(l, value).0
    case DoReceive(index, id) => Receive(l, index, id).0
    case DoLeave(index, id) => Leave(l, index, id)
    case DoRevoke(index) => Revoke(l, index)
    case DoEvict(sequence) => Evict(l, sequence)
  }

  // --- Invariant ---

  predicate CursorInv<T>(l: Log<T>, cursor: Option<Cursor>) {
    cursor.Some? ==>
      && cursor.value.next <= |l.sent| && cursor.value.id < l.nextId
      && (cursor.value.required && !cursor.value.revoked ==> Oldest(l) <= cursor.value.next && !l.latest)
  }

  predicate LogInv<T>(l: Log<T>) {
    && 0 < l.capacity && l.floor <= |l.sent|
    && (l.latest ==> l.capacity == 1 && l.floor == 0)
    && forall k :: 0 <= k < |l.cursors| ==> CursorInv(l, l.cursors[k])
  }

  function Empty<T>(latest: bool, capacity: nat, slots: nat): (l: Log<T>)
    requires 0 < capacity && (latest ==> capacity == 1)
    ensures LogInv(l)
  {
    Log(latest, capacity, [], 0, seq(slots, _ => None), 0)
  }

  /** Operations keep required cursors at or ahead of everything given up. */
  lemma ApplyKeepsLog<T>(l: Log<T>, op: Op<T>)
    requires LogInv(l)
    ensures LogInv(Apply(l, op))
    ensures l.sent <= Apply(l, op).sent
  {
    var now := Apply(l, op);
    forall k | 0 <= k < |now.cursors| ensures CursorInv(now, now.cursors[k]) {
      if k < |l.cursors| { assert CursorInv(l, l.cursors[k]); }
    }
  }

  predicate Asks<T>(op: Op<T>, index: nat, id: nat) { op.DoReceive? && op.index == index && op.id == id }

  // --- What one cursor sees over a whole run ---

  /** The items a run delivers to one key, in order. */
  function Items<T>(l: Log<T>, ops: seq<Op<T>>, index: nat, id: nat): seq<Item<T>>
    decreases |ops|
  {
    if ops == [] then []
    else
      var op := ops[0];
      var first :=
        if Asks(op, index, id) && Receive(l, index, id).1.Received? then [Receive(l, index, id).1.item] else [];
      first + Items(Apply(l, op), ops[1..], index, id)
  }

  function RunLog<T>(l: Log<T>, ops: seq<Op<T>>): Log<T>
    decreases |ops|
  {
    if ops == [] then l else RunLog(Apply(l, ops[0]), ops[1..])
  }

  /** The items cover `from` up to `to` without overlap: every sequence is either
      delivered with its own value or inside a reported gap. */
  ghost predicate Tiles<T>(sent: seq<T>, items: seq<Item<T>>, from: nat, to: nat) {
    if items == [] then from == to
    else
      match items[0]
      case Data(s, v) => s == from && s < |sent| && v == sent[s] && Tiles(sent, items[1..], from + 1, to)
      case Gap(f, t) => f == from && f < t <= |sent| && Tiles(sent, items[1..], t, to)
  }

  /** Every entry a gap passes over has been given up. */
  ghost predicate OverGivenUp<T>(l: Log<T>, items: seq<Item<T>>) {
    forall k :: 0 <= k < |items| && items[k].Gap? ==>
      forall s :: items[k].from <= s < items[k].to ==> GivenUp(l, s)
  }

  /** What has been given up does not come back. */
  lemma {:induction false} GivenUpStays<T>(l: Log<T>, ops: seq<Op<T>>, sequence: nat)
    requires LogInv(l) && GivenUp(l, sequence)
    ensures GivenUp(RunLog(l, ops), sequence)
    decreases |ops|
  {
    if ops != [] {
      ApplyKeepsLog(l, ops[0]);
      GivenUpStays(Apply(l, ops[0]), ops[1..], sequence);
    }
  }

  lemma GapStays<T>(l: Log<T>, rest: seq<Op<T>>, op: Op<T>, item: Item<T>)
    requires LogInv(l) && op.DoReceive? && Receive(l, op.index, op.id).1 == Received(item) && item.Gap?
    ensures forall s :: item.from <= s < item.to ==> GivenUp(RunLog(Apply(l, op), rest), s)
  {
    ReceiveMeans(l, op.index, op.id);
    ApplyKeepsLog(l, op);
    forall s | item.from <= s < item.to ensures GivenUp(RunLog(Apply(l, op), rest), s) {
      GivenUpStays(l, [op], s);
      assert [op][1..] == [] && RunLog(l, [op]) == Apply(l, op);
      GivenUpStays(Apply(l, op), rest, s);
    }
  }

  predicate NoGaps<T>(items: seq<Item<T>>) { forall k :: 0 <= k < |items| ==> items[k].Data? }

  /** The run neither drops nor revokes the cursor at `index`. */
  predicate Keeps<T>(ops: seq<Op<T>>, index: nat) {
    forall k :: 0 <= k < |ops| ==>
      && (ops[k].DoLeave? ==> ops[k].index != index)
      && (ops[k].DoRevoke? ==> ops[k].index != index)
  }

  lemma StepSees<T>(l: Log<T>, op: Op<T>, index: nat, id: nat)
    requires LogInv(l) && !l.latest && Keyed(l, index, id) && Keeps([op], index)
    ensures var now := Apply(l, op);
            && Keyed(now, index, id) && now.latest == l.latest
            && now.cursors[index].value.required == l.cursors[index].value.required
            && now.cursors[index].value.revoked == l.cursors[index].value.revoked
            && (Asks(op, index, id) || now.cursors[index] == l.cursors[index])
  {
    assert op == [op][0];
  }

  /** Over any run, an ordered cursor's items tile exactly what it moved past, and a
      required cursor's contain no gap: it loses nothing, repeats nothing, in order. */
  lemma {:induction false} CursorSeesEverything<T>(l: Log<T>, ops: seq<Op<T>>, index: nat, id: nat)
    requires LogInv(l) && !l.latest && Keyed(l, index, id) && Keeps(ops, index)
    ensures var end := RunLog(l, ops);
            && Keyed(end, index, id) && l.sent <= end.sent
            && Tiles(end.sent, Items(l, ops, index, id), l.cursors[index].value.next, end.cursors[index].value.next)
            && (l.cursors[index].value.required && !l.cursors[index].value.revoked ==> NoGaps(Items(l, ops, index, id)))
            && OverGivenUp(end, Items(l, ops, index, id))
    decreases |ops|
  {
    hide GivenUp;
    if ops != [] {
      var (op, rest) := (ops[0], ops[1..]);
      assert Keeps([op], index) && Keeps(rest, index);
      ApplyKeepsLog(l, op);
      StepSees(l, op, index, id);
      var now := Apply(l, op);
      CursorSeesEverything(now, rest, index, id);
      var (end, later) := (RunLog(now, rest), Items(now, rest, index, id));
      assert CursorInv(l, l.cursors[index]);
      if Asks(op, index, id) && Receive(l, index, id).1.Received? {
        var item := Receive(l, index, id).1.item;
        assert ([item] + later)[1..] == later;
        assert Items(l, ops, index, id) == [item] + later;
        if item.Gap? { GapStays(l, rest, op, item); }
      } else {
        assert Items(l, ops, index, id) == [] + later == later;
      }
    }
  }

  /** A latest-state cursor never sees a gap: it gets the newest version or nothing, and
      nothing exactly when it has read that version. */
  lemma LatestSeesNewest<T>(l: Log<T>, index: nat, id: nat)
    requires LogInv(l) && l.latest && Keyed(l, index, id)
    ensures var (now, answer) := Receive(l, index, id);
            && (l.cursors[index].value.next < |l.sent| ==>
                  answer == Received(Data(|l.sent| - 1, l.sent[|l.sent| - 1]))
                    && now.cursors[index].value.next == |l.sent|)
            && (l.cursors[index].value.next >= |l.sent| ==> answer == Nothing && now == l)
  {
    assert CursorInv(l, l.cursors[index]);
  }

  // --- What a receive may answer ---

  /** The entry can no longer be had: as many entries as the log holds have come after it, or it
      was given up early. */
  predicate GivenUp<T>(l: Log<T>, sequence: nat) { sequence + l.capacity < |l.sent| || sequence < l.floor }

  /** The first entry an ordered cursor is owed is the one it stands at, a latest-state cursor's
      the newest version if it has not read that. */
  function Owed<T>(l: Log<T>, cursor: Cursor): nat {
    if l.latest && cursor.next < |l.sent| then |l.sent| - 1 else cursor.next
  }

  /** A cursor is told of a gap only when the entry it is owed was given up, and the gap holds
      given-up entries only and all of them up to the first still had; otherwise it gets the entry
      it is owed, and nothing only when there is none. */
  lemma ReceiveMeans<T>(l: Log<T>, index: nat, id: nat)
    requires LogInv(l)
    ensures var (now, answer) := Receive(l, index, id);
            && (answer.NoCursor? <==> !Keyed(l, index, id))
            && (Keyed(l, index, id) ==>
                  var (was, owed) := (l.cursors[index].value, Owed(l, l.cursors[index].value));
                  && owed <= |l.sent|
                  && (answer.Nothing? <==> owed == |l.sent|) && (answer.Nothing? ==> now == l)
                  && (answer.Received? && answer.item.Gap? <==> owed < |l.sent| && GivenUp(l, owed))
                  && (answer.Received? && answer.item.Gap? ==>
                        && answer.item.from == owed < answer.item.to <= |l.sent|
                        && (forall s :: owed <= s < answer.item.to ==> GivenUp(l, s))
                        && !GivenUp(l, answer.item.to)
                        && now == l.(cursors := l.cursors[index := Some(was.(next := answer.item.to))]))
                  && (answer.Received? && answer.item.Data? ==>
                        && answer.item == Data(owed, l.sent[owed]) && !GivenUp(l, owed)
                        && now == l.(cursors := l.cursors[index := Some(was.(next := owed + 1))])))
  {
    if Keyed(l, index, id) { assert CursorInv(l, l.cursors[index]); }
  }

  /** Over any run, whenever a cursor asks, an entry it is owed and that can still be had is what it
      gets, and every entry a gap passes over had been given up by then. */
  lemma {:induction false} GapsAreGivenUp<T>(l: Log<T>, ops: seq<Op<T>>, k: nat)
    requires LogInv(l) && k < |ops| && ops[k].DoReceive?
    ensures var m := RunLog(l, ops[..k]);
            var (index, id) := (ops[k].index, ops[k].id);
            var answer := Receive(m, index, id).1;
            && LogInv(m)
            && (answer.Received? && answer.item.Gap? ==>
                  forall s :: answer.item.from <= s < answer.item.to ==> GivenUp(m, s))
            && (Keyed(m, index, id) ==>
                  var owed := Owed(m, m.cursors[index].value);
                  owed < |m.sent| && !GivenUp(m, owed) ==> answer == Received(Data(owed, m.sent[owed])))
  {
    RunKeepsLog(l, ops[..k]);
    ReceiveMeans(RunLog(l, ops[..k]), ops[k].index, ops[k].id);
  }

  lemma {:induction false} RunKeepsLog<T>(l: Log<T>, ops: seq<Op<T>>)
    requires LogInv(l)
    ensures LogInv(RunLog(l, ops))
    decreases |ops|
  {
    if ops != [] {
      ApplyKeepsLog(l, ops[0]);
      RunKeepsLog(Apply(l, ops[0]), ops[1..]);
    }
  }

  /** Entries are given up early only by an eviction no required cursor minds. */
  lemma EarlyOnlyByEviction<T>(l: Log<T>, op: Op<T>, sequence: nat)
    requires LogInv(l) && !GivenUp(l, sequence) && GivenUp(Apply(l, op), sequence)
    ensures op.DoSend? || (op.DoEvict? && sequence <= op.sequence < |l.sent|)
    ensures forall k :: 0 <= k < |l.cursors| && Live(l.cursors[k]) && l.cursors[k].value.required ==>
              l.cursors[k].value.next > sequence
  {
    ApplyKeepsLog(l, op);
    forall k | 0 <= k < |l.cursors| && Live(l.cursors[k]) && l.cursors[k].value.required
      ensures l.cursors[k].value.next > sequence
    {
      assert CursorInv(Apply(l, op), Apply(l, op).cursors[k]);
    }
  }

  // --- What joining and sending may answer ---

  /** A new ordered cursor starts after everything sent; a new latest-state cursor is owed the
      newest version at once, if there is one. */
  lemma JoinMeans<T>(l: Log<T>, required: bool)
    requires LogInv(l)
    ensures var (now, answer) := Join(l, required);
            && (answer.InvalidConfig? <==> l.latest && required)
            && (answer.NoRoom? <==>
                  !(l.latest && required)
                  && (l.nextId >= U64_MAX || forall k :: 0 <= k < |l.cursors| ==> l.cursors[k].Some?))
            && (!answer.Joined? ==> now == l)
            && (answer.Joined? ==>
                  && answer.index < |l.cursors| && l.cursors[answer.index].None? && answer.id == l.nextId
                  && (forall k :: 0 <= k < answer.index ==> l.cursors[k].Some?)
                  && Keyed(now, answer.index, answer.id)
                  && now.cursors[answer.index].value.required == required
                  && !now.cursors[answer.index].value.revoked
                  && now == l.(cursors := l.cursors[answer.index := now.cursors[answer.index]], nextId := l.nextId + 1)
                  && (!l.latest ==> Receive(now, answer.index, answer.id).1.Nothing?)
                  && (l.latest && l.sent == [] ==> Receive(now, answer.index, answer.id).1.Nothing?)
                  && (l.latest && l.sent != [] ==>
                        Receive(now, answer.index, answer.id).1
                        == Received(Data(|l.sent| - 1, l.sent[|l.sent| - 1]))))
  {
  }

  /** A send is refused only at the end of the sequence space, or to spare an unread entry that a
      live required cursor is still owed; otherwise the value is the newest entry. */
  lemma SendMeans<T>(l: Log<T>, value: T)
    requires LogInv(l)
    ensures var (now, answer) := Send(l, value);
            && (answer.Exhausted? <==> |l.sent| >= U64_MAX)
            && (answer.Full? <==>
                  && |l.sent| < U64_MAX && |l.sent| >= l.capacity
                  && exists k :: 0 <= k < |l.cursors| && Live(l.cursors[k]) && l.cursors[k].value.required
                       && l.cursors[k].value.next <= |l.sent| - l.capacity)
            && (now == if answer.Accepted? then l.(sent := l.sent + [value]) else l)
  {
  }

  /** Refusing is needed: had a full log taken the value, that cursor's next entry would be gone. */
  lemma FullSpares<T>(l: Log<T>, value: T) returns (k: nat)
    requires LogInv(l) && !l.latest && Send(l, value).1.Full?
    ensures k < |l.cursors| && Live(l.cursors[k]) && l.cursors[k].value.required
    ensures !GivenUp(l, l.cursors[k].value.next)
    ensures GivenUp(l.(sent := l.sent + [value]), l.cursors[k].value.next)
  {
    k :| 0 <= k < |l.cursors| && Live(l.cursors[k]) && l.cursors[k].value.required
         && l.cursors[k].value.next <= |l.sent| - l.capacity;
    assert CursorInv(l, l.cursors[k]);
  }

  // --- What leaving, revoking and giving up do ---

  /** Nobody but the cursor at `index` holds the oldest entry of a full log back. */
  predicate OnlyHolder<T>(l: Log<T>, index: nat) {
    forall k :: 0 <= k < |l.cursors| && k != index && Live(l.cursors[k]) && l.cursors[k].value.required ==>
      l.cursors[k].value.next > |l.sent| - l.capacity
  }

  /** A cursor leaves by its own key only; its place is free for the next to join, and a send it
      alone held back goes through. */
  lemma LeaveMeans<T>(l: Log<T>, index: nat, id: nat, value: T)
    requires LogInv(l)
    ensures var now := Leave(l, index, id);
            && !Keyed(now, index, id)
            && (!Keyed(l, index, id) ==> now == l)
            && (Keyed(l, index, id) ==>
                  && now == l.(cursors := l.cursors[index := None])
                  && (l.nextId < U64_MAX ==> Join(now, false).1.Joined?)
                  && (OnlyHolder(l, index) && |l.sent| < U64_MAX ==> Send(now, value).1.Accepted?))
  {
    ApplyKeepsLog(l, DoLeave(index, id));
    SendMeans(Leave(l, index, id), value);
    JoinMeans(Leave(l, index, id), false);
  }

  /** A revoked subscription keeps its place and its position, and holds nothing back any more. */
  lemma RevokeMeans<T>(l: Log<T>, index: nat, value: T)
    requires LogInv(l) && index < |l.cursors| && l.cursors[index].Some?
    ensures var now := Revoke(l, index);
            && now == l.(cursors := now.cursors) && |now.cursors| == |l.cursors|
            && (forall k :: 0 <= k < |l.cursors| && k != index ==> now.cursors[k] == l.cursors[k])
            && now.cursors[index].Some? && now.cursors[index].value.next == l.cursors[index].value.next
            && now.cursors[index].value.id == l.cursors[index].value.id
            && (OnlyHolder(l, index) && |l.sent| < U64_MAX ==> Send(now, value).1.Accepted?)
  {
    ApplyKeepsLog(l, DoRevoke(index));
    SendMeans(Revoke(l, index), value);
  }

  /** Giving up an entry of an ordered log that no required cursor needs gives up it and everything
      older, and nothing newer; otherwise nothing happens. */
  lemma EvictMeans<T>(l: Log<T>, sequence: nat, s: nat)
    requires LogInv(l)
    ensures var now := Evict(l, sequence);
            var due := !l.latest && sequence < |l.sent|
                       && forall k :: 0 <= k < |l.cursors| && Live(l.cursors[k]) && l.cursors[k].value.required ==>
                            l.cursors[k].value.next > sequence;
            && (GivenUp(now, s) <==> GivenUp(l, s) || (due && s <= sequence))
            && now.sent == l.sent && now.cursors == l.cursors
  {
  }
}
