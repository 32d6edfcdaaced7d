/** Records that outlive their connection: one archive shared by all reused slots. */
module Archive {
  import opened Wire
  import Records
  import Accountability

  const ARCHIVE: nat := 64

  /** Pushing a retired connection's undrained records, oldest first. */
  function Stored<T>(archive: Records.Queue<T>, records: seq<T>): Records.Queue<T>
    decreases |records|
  {
    if records == [] then archive else Stored(Records.Pushed(archive, records[0]), records[1..])
  }

  /** The driver's shared archive and the loss counts of retired connections. */
  class Shelf {
    const archived: Records.Ring<Accountability.Record>
    var retiredLost: U64

    ghost predicate Valid()
      reads this, archived, archived.entries
    {
      archived.Valid() && archived.Model().capacity == ARCHIVE
    }

    constructor ()
      ensures Valid() && fresh(archived) && fresh(archived.entries)
      ensures archived.Model() == Records.Queue(ARCHIVE, [], 0) && retiredLost == 0
    {
      archived := new Records.Ring<Accountability.Record>(ARCHIVE);
      retiredLost := 0;
    }

    /** A retired connection's history moves over; nothing is left behind in it. */
    method Retire(ledger: Accountability.Ledger)
      requires Valid() && ledger.Valid()
      requires {this, archived, archived.entries} !! ledger.Repr()
      modifies this`retiredLost, archived, archived.entries, ledger.records, ledger.records.entries
      ensures Valid() && ledger.Valid() && ledger.records.Model().held == []
      ensures archived.Model() == Stored(old(archived.Model()), Named(ledger, old(ledger.records.Model().held)))
      ensures retiredLost == Records.Saturating(old(retiredLost), old(ledger.records.Model().lost))
    {
      ghost var held := ledger.records.Model().held;
      ghost var moved := 0;
      assert held[0..] == held;
      var record := ledger.Pop();
      while record.Some?
        invariant Valid() && ledger.Valid() && moved <= |held| && retiredLost == old(retiredLost)
        invariant ledger.records.Model().lost == old(ledger.records.Model().lost)
        invariant record.Some? <==> moved < |held|
        invariant record.Some? ==>
                    record.value == NamedOne(ledger, held[moved]) && ledger.records.Model().held == held[moved + 1..]
        invariant record.None? ==> ledger.records.Model().held == []
        invariant Stored(archived.Model(), Named(ledger, held[moved..]))
                  == Stored(old(archived.Model()), Named(ledger, held))
        decreases |held| - moved
      {
        NamedHead(ledger, held[moved..]);
        assert held[moved..][1..] == held[moved + 1..];
        archived.Push(record.value);
        record := ledger.Pop();
        moved := moved + 1;
      }
      assert held[moved..] == [] && Named(ledger, []) == [];
      retiredLost := Records.Saturating(retiredLost, ledger.records.lost);
    }
  }

  function NamedOne(ledger: Accountability.Ledger, r: Accountability.FrameRecord): Accountability.Record {
    Accountability.Record(ledger.connection, ledger.contract, ledger.direction, r.sequence, r.outcome)
  }

  /** The records as drained: with the connection they belong to. */
  function Named(ledger: Accountability.Ledger,
                 records: seq<Accountability.FrameRecord>): (named: seq<Accountability.Record>)
    ensures |named| == |records|
  {
    seq(|records|, k requires 0 <= k < |records| => NamedOne(ledger, records[k]))
  }

  lemma NamedHead(ledger: Accountability.Ledger, records: seq<Accountability.FrameRecord>)
    requires records != []
    ensures Named(ledger, records)[0] == NamedOne(ledger, records[0])
    ensures Named(ledger, records)[1..] == Named(ledger, records[1..])
  {
  }

  // --- Nothing is lost uncounted across slot reuse ---

  /** A live connection's queue and how many of its records were overwritten. */
  datatype Live<T> = Live(queue: Records.Queue<T>, missed: nat)

  /** All queues of a driver, with what was ever generated and popped, and the true number
      of overwritten records where the driver keeps a saturating count. */
  datatype Domain<T> = Domain(
    archive: Live<T>, retiredLost: U64, retiredMissed: nat, slots: seq<Live<T>>, generated: nat, popped: nat)

  datatype Event<T> = Generate(slot: nat, record: T) | RetireSlot(slot: nat) | PopArchive | PopSlot(slot: nat)

  function Put<T>(live: Live<T>, record: T): Live<T> {
    Live(Records.Pushed(live.queue, record), live.missed + if |live.queue.held| >= live.queue.capacity then 1 else 0)
  }

  function PutAll<T>(live: Live<T>, records: seq<T>): Live<T>
    decreases |records|
  {
    if records == [] then live else PutAll(Put(live, records[0]), records[1..])
  }

  function Step<T>(d: Domain<T>, event: Event<T>): Domain<T> {
    match event
    case Generate(slot, record) =>
      if slot < |d.slots| then
        d.(slots := d.slots[slot := Put(d.slots[slot], record)], generated := d.generated + 1)
      else d
    case RetireSlot(slot) =>
      if slot < |d.slots| then
        var live := d.slots[slot];
        d.(archive := PutAll(d.archive, live.queue.held),
           retiredLost := Records.Saturating(d.retiredLost, live.queue.lost),
           retiredMissed := d.retiredMissed + live.missed,
           slots := d.slots[slot := Live(Records.Queue(live.queue.capacity, [], 0), 0)])
      else d
    case PopArchive =>
      if d.archive.queue.held == [] then d
      else d.(archive := d.archive.(queue := Records.Popped(d.archive.queue).0), popped := d.popped + 1)
    case PopSlot(slot) =>
      if slot < |d.slots| && d.slots[slot].queue.held != [] then
        d.(slots := d.slots[slot := d.slots[slot].(queue := Records.Popped(d.slots[slot].queue).0)],
           popped := d.popped + 1)
      else d
  }

  predicate Counts<T>(live: Live<T>) {
    live.queue.lost == Records.Saturating(0, live.missed) && |live.queue.held| <= live.queue.capacity
  }

  function HeldIn<T>(slots: seq<Live<T>>): nat {
    if slots == [] then 0 else |slots[0].queue.held| + HeldIn(slots[1..])
  }

  function MissedIn<T>(slots: seq<Live<T>>): nat {
    if slots == [] then 0 else slots[0].missed + MissedIn(slots[1..])
  }

  /** `lost_records`: the saturating total of every counter. */
  function Reported<T>(d: Domain<T>): U64 {
    LostFrom(d.slots, Records.Saturating(d.retiredLost, d.archive.queue.lost))
  }

  function LostFrom<T>(slots: seq<Live<T>>, lost: U64): U64
    decreases |slots|
  {
    if slots == [] then lost else LostFrom(slots[1..], Records.Saturating(lost, slots[0].queue.lost))
  }

  function AllHeld<T>(d: Domain<T>): nat { |d.archive.queue.held| + HeldIn(d.slots) }

  predicate DomainInv<T>(d: Domain<T>) {
    && Counts(d.archive) && d.retiredLost == Records.Saturating(0, d.retiredMissed)
    && (forall k :: 0 <= k < |d.slots| ==> Counts(d.slots[k]))
    && d.generated == d.popped + AllHeld(d) + d.archive.missed + d.retiredMissed + MissedIn(d.slots)
  }

  lemma {:induction false} SlotAt<T>(slots: seq<Live<T>>, k: nat, live: Live<T>)
    requires k < |slots|
    ensures HeldIn(slots[k := live]) == HeldIn(slots) - |slots[k].queue.held| + |live.queue.held|
    ensures MissedIn(slots[k := live]) == MissedIn(slots) - slots[k].missed + live.missed
    decreases |slots|
  {
    if k == 0 {
      assert slots[0 := live][1..] == slots[1..];
    } else {
      SlotAt(slots[1..], k - 1, live);
      assert slots[k := live][1..] == slots[1..][k - 1 := live];
    }
  }

  lemma {:induction false} PutAllCounts<T>(live: Live<T>, records: seq<T>)
    requires Counts(live)
    ensures Counts(PutAll(live, records)) && PutAll(live, records).queue == Stored(live.queue, records)
    ensures |PutAll(live, records).queue.held| + PutAll(live, records).missed
            == |live.queue.held| + live.missed + |records|
    decreases |records|
  {
    if records != [] { PutAllCounts(Put(live, records[0]), records[1..]); }
  }

  lemma StepKeepsDomain<T>(d: Domain<T>, event: Event<T>)
    requires DomainInv(d)
    ensures DomainInv(Step(d, event))
  {
    var next := Step(d, event);
    match event {
      case Generate(slot, record) =>
        if slot < |d.slots| { SlotAt(d.slots, slot, next.slots[slot]); }
      case RetireSlot(slot) =>
        if slot < |d.slots| {
          SlotAt(d.slots, slot, next.slots[slot]);
          PutAllCounts(d.archive, d.slots[slot].queue.held);
        }
      case PopArchive =>
      case PopSlot(slot) =>
        if slot < |d.slots| && d.slots[slot].queue.held != [] { SlotAt(d.slots, slot, next.slots[slot]); }
    }
  }

  lemma {:induction false} LostFromIs<T>(slots: seq<Live<T>>, missed: nat)
    requires forall k :: 0 <= k < |slots| ==> Counts(slots[k])
    ensures LostFrom(slots, Records.Saturating(0, missed)) == Records.Saturating(0, missed + MissedIn(slots))
    decreases |slots|
  {
    if slots != [] { LostFromIs(slots[1..], missed + slots[0].missed); }
  }

  function StepAll<T>(d: Domain<T>, events: seq<Event<T>>): Domain<T>
    decreases |events|
  {
    if events == [] then d else StepAll(Step(d, events[0]), events[1..])
  }

  lemma {:induction false} EventsKeepDomain<T>(d: Domain<T>, events: seq<Event<T>>)
    requires DomainInv(d)
    ensures DomainInv(StepAll(d, events))
    decreases |events|
  {
    if events != [] {
      StepKeepsDomain(d, events[0]);
      EventsKeepDomain(Step(d, events[0]), events[1..]);
    }
  }

  /** Over any history of any number of connections in the slots: every record is popped,
      still held or lost, and the reported loss is exactly that number until it saturates. */
  lemma NothingLostUncounted<T>(d: Domain<T>, events: seq<Event<T>>)
    requires DomainInv(d)
    ensures var end := StepAll(d, events);
            && end.popped + AllHeld(end) <= end.generated
            && Reported(end) == Records.Saturating(0, end.generated - end.popped - AllHeld(end))
  {
    EventsKeepDomain(d, events);
    var end := StepAll(d, events);
    LostFromIs(end.slots, end.retiredMissed + end.archive.missed);
  }
}
