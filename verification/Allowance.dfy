/** What a restricted grant may do: its pools and its permission table. */
module Allowance {
  import opened Wire

  datatype Rights = Rights(publish: bool, observe: bool, required: bool) {
    function Union(other: Rights): Rights {
      Rights(publish || other.publish, observe || other.observe, required || other.required)
    }

    predicate Contains(other: Rights) {
      (other.publish ==> publish) && (other.observe ==> observe) && (other.required ==> required)
    }
  }

  datatype Limits = Limits(
    streams: nat, grants: nat, subscriptions: nat, items: nat, waiters: nat, connections: nat, bytes: nat)

  datatype StreamLimits = StreamLimits(items: nat, subscriptions: nat, waiters: nat)

  datatype Permission = Permission(event: U128, rights: Rights, limits: StreamLimits)

  datatype Partition = Generic(left: Limits) | InvalidConfig | NoCapacity

  // --- Splitting the limits into pools ---

  /** The first entry for the event among those before `n`. */
  function FirstFor(entries: seq<Permission>, event: U128, n: nat): (first: Option<Permission>)
    requires n <= |entries|
    ensures first.Some? ==> first.value.event == event && exists k :: 0 <= k < n && entries[k] == first.value
    ensures first.None? ==> forall k :: 0 <= k < n ==> entries[k].event != event
  {
    if n == 0 then None
    else
      var earlier := FirstFor(entries, event, n - 1);
      if earlier.None? && entries[n - 1].event == event then Some(entries[n - 1]) else earlier
  }

  function Without(limits: Limits, take: StreamLimits): Partition {
    if take.items > limits.items || take.subscriptions > limits.subscriptions || take.waiters > limits.waiters
    then NoCapacity
    else
      Generic(limits.(items := limits.items - take.items, subscriptions := limits.subscriptions - take.subscriptions,
                      waiters := limits.waiters - take.waiters))
  }

  /** The generic pool left by the first `n` entries; repeats of an event must agree. */
  function Split(limits: Limits, entries: seq<Permission>, n: nat): Partition
    requires n <= |entries|
  {
    if n == 0 then Generic(limits)
    else
      match Split(limits, entries, n - 1)
      case Generic(left) =>
        (match FirstFor(entries, entries[n - 1].event, n - 1)
         case Some(first) => if first.limits != entries[n - 1].limits then InvalidConfig else Generic(left)
         case None => Without(left, entries[n - 1].limits))
      case refused => refused
  }

  method PartitionLimits(limits: Limits, entries: seq<Permission>) returns (partition: Partition)
    ensures partition == Split(limits, entries, |entries|)
  {
    var left := limits;
    for index := 0 to |entries|
      invariant Split(limits, entries, index) == Generic(left)
    {
      var entry := entries[index];
      var first := FirstFor(entries, entry.event, index);
      if first.Some? {
        if first.value.limits != entry.limits {
          RefusalStays(limits, entries, index + 1, |entries|);
          return InvalidConfig;
        }
      } else {
        var taken := Without(left, entry.limits);
        if taken.NoCapacity? {
          RefusalStays(limits, entries, index + 1, |entries|);
          return NoCapacity;
        }
        left := taken.left;
      }
    }
    return Generic(left);
  }

  lemma {:induction false} RefusalStays(limits: Limits, entries: seq<Permission>, n: nat, m: nat)
    requires n <= m <= |entries| && !Split(limits, entries, n).Generic?
    ensures Split(limits, entries, m) == Split(limits, entries, n)
    decreases m
  {
    if n < m { RefusalStays(limits, entries, n, m - 1); }
  }

  // --- Sorting and merging ---

  predicate Sorted(entries: seq<Permission>) {
    forall i, j :: 0 <= i < j < |entries| ==> entries[i].event <= entries[j].event
  }

  predicate Strict(entries: seq<Permission>) {
    forall i, j :: 0 <= i < j < |entries| ==> entries[i].event < entries[j].event
  }

  /** Merges runs of one event, keeping the first entry's limits. */
  function Merged(entries: seq<Permission>, n: nat): (table: seq<Permission>)
    requires n <= |entries|
    ensures n > 0 <==> table != []
  {
    if n == 0 then []
    else
      var (table, entry) := (Merged(entries, n - 1), entries[n - 1]);
      if table != [] && table[|table| - 1].event == entry.event then
        table[|table| - 1 := table[|table| - 1].(rights := table[|table| - 1].rights.Union(entry.rights))]
      else table + [entry]
  }

  method Merge(entries: seq<Permission>) returns (table: seq<Permission>)
    ensures table == Merged(entries, |entries|)
  {
    table := [];
    for index := 0 to |entries|
      invariant table == Merged(entries, index)
    {
      var entry := entries[index];
      if table != [] && table[|table| - 1].event == entry.event {
        var last := table[|table| - 1];
        table := table[|table| - 1 := last.(rights := last.rights.Union(entry.rights))];
      } else {
        table := table + [entry];
      }
    }
  }

  /** All the rights the first `n` entries ask for one event, together. */
  function Asked(entries: seq<Permission>, event: U128, n: nat): Rights
    requires n <= |entries|
  {
    if n == 0 then Rights(false, false, false)
    else if entries[n - 1].event == event then Asked(entries, event, n - 1).Union(entries[n - 1].rights)
    else Asked(entries, event, n - 1)
  }

  predicate Listed(entries: seq<Permission>, event: U128, n: nat)
    requires n <= |entries|
  {
    exists k :: 0 <= k < n && entries[k].event == event
  }

  /** A row holds all the rights asked for its event, and the limits of one of its entries. */
  predicate RowOf(entries: seq<Permission>, n: nat, row: Permission)
    requires n <= |entries|
  {
    && row.rights == Asked(entries, row.event, n)
    && exists k :: 0 <= k < n && entries[k].event == row.event && entries[k].limits == row.limits
  }

  predicate Covers(table: seq<Permission>, event: U128) {
    exists i :: 0 <= i < |table| && table[i].event == event
  }

  /** What a merged table says of the entries it was built from. */
  predicate TableOf(entries: seq<Permission>, n: nat, table: seq<Permission>)
    requires n <= |entries|
  {
    && Strict(table)
    && (forall i :: 0 <= i < |table| ==> RowOf(entries, n, table[i]))
    && (forall k :: 0 <= k < n ==> Covers(table, entries[k].event))
  }

  lemma {:induction false} MergedIsTable(entries: seq<Permission>, n: nat)
    requires Sorted(entries) && n <= |entries|
    ensures TableOf(entries, n, Merged(entries, n))
    ensures n > 0 ==> Merged(entries, n)[|Merged(entries, n)| - 1].event == entries[n - 1].event
    decreases n
  {
    if n > 0 {
      MergedIsTable(entries, n - 1);
      var (was, entry) := (Merged(entries, n - 1), entries[n - 1]);
      hide TableOf;
      if was != [] && was[|was| - 1].event == entry.event {
        MergesRow(entries, n, was);
      } else {
        AddsRow(entries, n, was);
      }
    }
  }

  lemma RowStays(entries: seq<Permission>, n: nat, row: Permission)
    requires 0 < n <= |entries| && RowOf(entries, n - 1, row) && row.event != entries[n - 1].event
    ensures RowOf(entries, n, row)
  {
  }

  lemma CoversStays(was: seq<Permission>, now: seq<Permission>, event: U128)
    requires |was| <= |now| && forall i :: 0 <= i < |was| ==> now[i].event == was[i].event
    requires Covers(was, event)
    ensures Covers(now, event)
  {
    var i :| 0 <= i < |was| && was[i].event == event;
    assert now[i].event == event;
  }

  lemma RowMerges(entries: seq<Permission>, n: nat, row: Permission)
    requires 0 < n <= |entries| && RowOf(entries, n - 1, row) && row.event == entries[n - 1].event
    ensures RowOf(entries, n, row.(rights := row.rights.Union(entries[n - 1].rights)))
  {
  }

  lemma MergesRow(entries: seq<Permission>, n: nat, was: seq<Permission>)
    requires Sorted(entries) && 0 < n <= |entries| && TableOf(entries, n - 1, was)
    requires was != [] && was[|was| - 1].event == entries[n - 1].event
    ensures var last := was[|was| - 1];
            TableOf(entries, n, was[|was| - 1 := last.(rights := last.rights.Union(entries[n - 1].rights))])
  {
    var (last, entry) := (was[|was| - 1], entries[n - 1]);
    var now := was[|was| - 1 := last.(rights := last.rights.Union(entry.rights))];
    assert RowOf(entries, n - 1, last);
    RowMerges(entries, n, last);
    hide RowOf, Asked;
    forall i | 0 <= i < |was| - 1 ensures RowOf(entries, n, now[i]) { RowStays(entries, n, was[i]); }
    forall k | 0 <= k < n ensures Covers(now, entries[k].event) {
      if k < n - 1 {
        CoversStays(was, now, entries[k].event);
      } else {
        assert now[|was| - 1].event == entries[k].event;
      }
    }
  }

  lemma AddsRow(entries: seq<Permission>, n: nat, was: seq<Permission>)
    requires Sorted(entries) && 0 < n <= |entries| && TableOf(entries, n - 1, was)
    requires if n > 1 then was != [] && was[|was| - 1].event == entries[n - 2].event != entries[n - 1].event
             else was == []
    ensures TableOf(entries, n, was + [entries[n - 1]])
  {
    var (entry, now) := (entries[n - 1], was + [entries[n - 1]]);
    LaterThanAll(entries, n, was);
    NewRow(entries, n);
    hide RowOf, Asked, Covers, Sorted;
    forall i | 0 <= i < |was| ensures RowOf(entries, n, was[i]) {
      RowStays(entries, n, was[i]);
    }
    forall k | 0 <= k < n ensures Covers(now, entries[k].event) {
      if k < n - 1 {
        CoversStays(was, now, entries[k].event);
      } else {
        CoversLast(now);
      }
    }
  }

  lemma LaterThanAll(entries: seq<Permission>, n: nat, was: seq<Permission>)
    requires Sorted(entries) && Strict(was) && 0 < n <= |entries|
    requires was != [] ==> n > 1 && was[|was| - 1].event == entries[n - 2].event != entries[n - 1].event
    ensures forall i :: 0 <= i < |was| ==> was[i].event < entries[n - 1].event
  {
  }

  lemma CoversLast(table: seq<Permission>)
    requires table != []
    ensures Covers(table, table[|table| - 1].event)
  {
  }

  lemma NewRow(entries: seq<Permission>, n: nat)
    requires Sorted(entries) && 0 < n <= |entries| && (n > 1 ==> entries[n - 2].event != entries[n - 1].event)
    ensures RowOf(entries, n, entries[n - 1])
  {
    NeverAsked(entries, entries[n - 1].event, n - 1);
  }

  lemma {:induction false} NeverAsked(entries: seq<Permission>, event: U128, n: nat)
    requires n <= |entries| && forall k :: 0 <= k < n ==> entries[k].event != event
    ensures Asked(entries, event, n) == Rights(false, false, false)
    decreases n
  {
    if n > 0 { NeverAsked(entries, event, n - 1); }
  }

  // --- The permission check ---

  datatype Answer = Permitted | Denied | Revoked

  /** Binary search of a table ordered by event. */
  function Search(table: seq<Permission>, event: U128, lo: nat, hi: nat): (at: Option<nat>)
    requires lo <= hi <= |table|
    ensures at.Some? ==> at.value < |table| && table[at.value].event == event
    decreases hi - lo
  {
    if lo == hi then None
    else
      var mid := (lo + hi) / 2;
      if table[mid].event == event then Some(mid)
      else if table[mid].event < event then Search(table, event, mid + 1, hi)
      else Search(table, event, lo, mid)
  }

  lemma {:induction false} SearchFinds(table: seq<Permission>, event: U128, lo: nat, hi: nat)
    requires Strict(table) && lo <= hi <= |table|
    requires forall i :: 0 <= i < |table| && !(lo <= i < hi) ==> table[i].event != event
    ensures Search(table, event, lo, hi).Some? <==> Covers(table, event)
    decreases hi - lo
  {
    if lo < hi {
      var mid := (lo + hi) / 2;
      if table[mid].event < event {
        SearchFinds(table, event, mid + 1, hi);
      } else if event < table[mid].event {
        SearchFinds(table, event, lo, mid);
      }
    }
  }

  /** A root grant has no table and permits everything; no grant permits once revoked. */
  function Check(table: Option<seq<Permission>>, revoked: bool, event: U128, right: Rights): Answer {
    if revoked then Revoked
    else
      match table
      case None => Permitted
      case Some(rows) =>
        var at := Search(rows, event, 0, |rows|);
        if at.Some? && rows[at.value].rights.Contains(right) then Permitted else Denied
  }

  /** The table a list of requested permissions becomes: sorted by event, then merged. */
  ghost predicate Becomes(entries: seq<Permission>, table: seq<Permission>) {
    exists sorted: seq<Permission> :: Sorted(sorted) && multiset(sorted) == multiset(entries)
      && table == Merged(sorted, |sorted|)
  }

  lemma {:induction false} AskedIff(entries: seq<Permission>, event: U128, n: nat)
    requires n <= |entries|
    ensures var asked := Asked(entries, event, n);
            && (asked.publish <==> exists k :: 0 <= k < n && entries[k].event == event && entries[k].rights.publish)
            && (asked.observe <==> exists k :: 0 <= k < n && entries[k].event == event && entries[k].rights.observe)
            && (asked.required <==> exists k :: 0 <= k < n && entries[k].event == event && entries[k].rights.required)
    decreases n
  {
    if n > 0 { AskedIff(entries, event, n - 1); }
  }

  lemma SameMembers(a: seq<Permission>, b: seq<Permission>, k: nat) returns (j: nat)
    requires multiset(a) == multiset(b) && k < |a|
    ensures j < |b| && b[j] == a[k]
  {
    assert a[k] in multiset(a);
    assert a[k] in b;
    j :| 0 <= j < |b| && b[j] == a[k];
  }

  lemma AskedWithin(a: seq<Permission>, b: seq<Permission>, event: U128)
    requires multiset(a) == multiset(b)
    ensures Asked(b, event, |b|).Contains(Asked(a, event, |a|))
  {
    AskedIff(a, event, |a|);
    AskedIff(b, event, |b|);
    forall k | 0 <= k < |a| && a[k].event == event ensures Asked(b, event, |b|).Contains(a[k].rights) {
      var j := SameMembers(a, b, k);
    }
  }

  /** Duplicates, order and search do not matter: the check answers exactly whether the
      event was asked for and the rights asked for it, together, contain the right. */
  lemma CheckDecides(entries: seq<Permission>, table: seq<Permission>, event: U128, right: Rights)
    requires Becomes(entries, table)
    ensures Check(Some(table), false, event, right) == Permitted
            <==> Listed(entries, event, |entries|) && Asked(entries, event, |entries|).Contains(right)
  {
    var sorted: seq<Permission> :| Sorted(sorted) && multiset(sorted) == multiset(entries)
      && table == Merged(sorted, |sorted|);
    MergedIsTable(sorted, |sorted|);
    SearchFinds(table, event, 0, |table|);
    CoversListed(sorted, table, event);
    if Listed(sorted, event, |sorted|) { SameListed(sorted, entries, event); }
    if Listed(entries, event, |entries|) { SameListed(entries, sorted, event); }
    AskedWithin(sorted, entries, event);
    AskedWithin(entries, sorted, event);
    hide Asked, Covers, Listed, Strict, RowOf, Search;
    if Covers(table, event) {
      assert RowOf(sorted, |sorted|, table[Search(table, event, 0, |table|).value]);
      RowAsked(sorted, table[Search(table, event, 0, |table|).value]);
    }
  }

  /** Some entry names the event, and each right wanted is in some entry for it. */
  predicate AskedFor(entries: seq<Permission>, event: U128, right: Rights) {
    && (exists k :: 0 <= k < |entries| && entries[k].event == event)
    && (right.publish ==> exists k :: 0 <= k < |entries| && entries[k].event == event && entries[k].rights.publish)
    && (right.observe ==> exists k :: 0 <= k < |entries| && entries[k].event == event && entries[k].rights.observe)
    && (right.required ==> exists k :: 0 <= k < |entries| && entries[k].event == event && entries[k].rights.required)
  }

  /** A revoked grant answers so whatever is asked; otherwise the root permits everything and a
      delegated grant exactly the rights asked for at its making, for the event asked for. */
  lemma CheckAnswers(entries: seq<Permission>, table: seq<Permission>, revoked: bool, event: U128, right: Rights)
    requires Becomes(entries, table)
    ensures Check(None, revoked, event, right) == if revoked then Revoked else Permitted
    ensures Check(Some(table), revoked, event, right)
            == if revoked then Revoked
               else if AskedFor(entries, event, right) then Permitted
               else Denied
  {
    CheckDecides(entries, table, event, right);
    AskedIff(entries, event, |entries|);
    hide Search, Asked;
  }

  lemma RowAsked(entries: seq<Permission>, row: Permission)
    requires RowOf(entries, |entries|, row)
    ensures row.rights == Asked(entries, row.event, |entries|)
  {
  }

  lemma CoversListed(entries: seq<Permission>, table: seq<Permission>, event: U128)
    requires TableOf(entries, |entries|, table)
    ensures Covers(table, event) <==> Listed(entries, event, |entries|)
  {
    if Covers(table, event) {
      var i :| 0 <= i < |table| && table[i].event == event;
      assert RowOf(entries, |entries|, table[i]);
    }
  }

  lemma SameListed(a: seq<Permission>, b: seq<Permission>, event: U128)
    requires multiset(a) == multiset(b) && Listed(a, event, |a|)
    ensures Listed(b, event, |b|)
  {
    var k :| 0 <= k < |a| && a[k].event == event;
    var j := SameMembers(a, b, k);
  }

  // --- Attenuation ---

  /** What `restrict` demands of its caller's permissions before it makes a child. */
  predicate MayAsk(parent: Option<seq<Permission>>, entries: seq<Permission>) {
    forall k :: 0 <= k < |entries| ==> Check(parent, false, entries[k].event, entries[k].rights) == Permitted
  }

  ghost predicate ChildOf(parent: Option<seq<Permission>>, child: Option<seq<Permission>>) {
    child.Some? && exists entries :: MayAsk(parent, entries) && Becomes(entries, child.value)
  }

  lemma {:induction false} AskedPermitted(parent: seq<Permission>, entries: seq<Permission>, event: U128, n: nat)
    requires MayAsk(Some(parent), entries) && n <= |entries| && Listed(entries, event, n)
    ensures Search(parent, event, 0, |parent|).Some?
    ensures parent[Search(parent, event, 0, |parent|).value].rights.Contains(Asked(entries, event, n))
    decreases n
  {
    hide Search;
    if entries[n - 1].event == event {
      assert Check(Some(parent), false, entries[n - 1].event, entries[n - 1].rights) == Permitted;
      if Listed(entries, event, n - 1) {
        AskedPermitted(parent, entries, event, n - 1);
      } else {
        NeverAsked(entries, event, n - 1);
      }
    } else {
      AskedPermitted(parent, entries, event, n - 1);
    }
  }

  /** A child permits nothing its parent does not. */
  lemma ChildIsWeaker(parent: Option<seq<Permission>>, child: Option<seq<Permission>>, event: U128, right: Rights)
    requires ChildOf(parent, child) && Check(child, false, event, right) == Permitted
    ensures Check(parent, false, event, right) == Permitted
  {
    var entries :| MayAsk(parent, entries) && Becomes(entries, child.value);
    CheckDecides(entries, child.value, event, right);
    if parent.Some? {
      AskedPermitted(parent.value, entries, event, |entries|);
    }
  }

  /** Down any chain of delegations a descendant permits a subset of every ancestor. */
  lemma {:induction false} DescendantIsWeaker(
    chain: seq<Option<seq<Permission>>>, i: nat, j: nat, event: U128, right: Rights)
    requires i <= j < |chain| && forall k :: 0 <= k < |chain| - 1 ==> ChildOf(chain[k], chain[k + 1])
    requires Check(chain[j], false, event, right) == Permitted
    ensures Check(chain[i], false, event, right) == Permitted
    decreases j
  {
    hide Check, ChildOf;
    if i < j {
      assert ChildOf(chain[j - 1], chain[j - 1 + 1]);
      ChildIsWeaker(chain[j - 1], chain[j], event, right);
      DescendantIsWeaker(chain, i, j - 1, event, right);
    }
  }

  // --- The pools add up ---

  type Row = (U128, StreamLimits)

  function Plus(a: StreamLimits, b: StreamLimits): StreamLimits {
    StreamLimits(a.items + b.items, a.subscriptions + b.subscriptions, a.waiters + b.waiters)
  }

  function Total(rows: seq<Row>): StreamLimits {
    if rows == [] then StreamLimits(0, 0, 0) else Plus(Total(rows[..|rows| - 1]), rows[|rows| - 1].1)
  }

  /** Each event's first entry, in order. */
  function Firsts(entries: seq<Permission>, n: nat): seq<Row>
    requires n <= |entries|
  {
    if n == 0 then []
    else if FirstFor(entries, entries[n - 1].event, n - 1).Some? then Firsts(entries, n - 1)
    else Firsts(entries, n - 1) + [(entries[n - 1].event, entries[n - 1].limits)]
  }

  function Rows(table: seq<Permission>): (rows: seq<Row>)
    ensures |rows| == |table| && forall i :: 0 <= i < |table| ==> rows[i] == (table[i].event, table[i].limits)
  {
    seq(|table|, i requires 0 <= i < |table| => (table[i].event, table[i].limits))
  }

  predicate OneEach(rows: seq<Row>) {
    forall i, j :: 0 <= i < j < |rows| ==> rows[i].0 != rows[j].0
  }

  /** `left` and `taken` make up `limits`; the counters without event pools are untouched. */
  predicate MakesUp(limits: Limits, left: Limits, taken: StreamLimits) {
    && limits == left.(items := left.items + taken.items, subscriptions := left.subscriptions + taken.subscriptions,
                       waiters := left.waiters + taken.waiters)
  }

  /** Entries of one event ask for the same limits. */
  predicate Agree(entries: seq<Permission>, n: nat)
    requires n <= |entries|
  {
    forall j, k :: 0 <= j < k < n && entries[j].event == entries[k].event ==> entries[j].limits == entries[k].limits
  }

  lemma {:induction false} SplitTakesFirsts(limits: Limits, entries: seq<Permission>, n: nat)
    requires n <= |entries| && Split(limits, entries, n).Generic?
    ensures MakesUp(limits, Split(limits, entries, n).left, Total(Firsts(entries, n)))
    decreases n
  {
    if n > 0 {
      SplitTakesFirsts(limits, entries, n - 1);
      TotalOneMore(Firsts(entries, n - 1), (entries[n - 1].event, entries[n - 1].limits));
      hide Total, FirstFor;
    }
  }

  lemma TotalOneMore(rows: seq<Row>, row: Row)
    ensures Total(rows + [row]) == Plus(Total(rows), row.1)
  {
    assert (rows + [row])[..|rows|] == rows;
  }

  lemma {:induction false} SplitAgrees(limits: Limits, entries: seq<Permission>, n: nat)
    requires n <= |entries| && Split(limits, entries, n).Generic?
    ensures Agree(entries, n)
    decreases n
  {
    if n > 0 {
      SplitAgrees(limits, entries, n - 1);
      var first := FirstFor(entries, entries[n - 1].event, n - 1);
      forall j | 0 <= j < n - 1 && entries[j].event == entries[n - 1].event
        ensures entries[j].limits == entries[n - 1].limits
      {
        var k :| 0 <= k < n - 1 && entries[k] == first.value;
        hide Split, FirstFor;
        assert Agree(entries, n - 1);
      }
    }
  }

  predicate Within(taken: StreamLimits, limits: Limits) {
    taken.items <= limits.items && taken.subscriptions <= limits.subscriptions && taken.waiters <= limits.waiters
  }

  lemma DisagreesWith(entries: seq<Permission>, n: nat)
    requires 0 < n <= |entries| && FirstFor(entries, entries[n - 1].event, n - 1).Some?
    requires Agree(entries, n - 1)
    ensures Agree(entries, n) <==> FirstFor(entries, entries[n - 1].event, n - 1).value.limits == entries[n - 1].limits
  {
    var first := FirstFor(entries, entries[n - 1].event, n - 1);
    var k :| 0 <= k < n - 1 && entries[k] == first.value;
  }

  /** The split succeeds exactly when entries of one event agree and what each event asks,
      counted once, fits the limits. */
  lemma {:induction false} SplitDecides(limits: Limits, entries: seq<Permission>, n: nat)
    requires n <= |entries|
    ensures Split(limits, entries, n).Generic? <==> Agree(entries, n) && Within(Total(Firsts(entries, n)), limits)
    decreases n
  {
    if n > 0 {
      SplitDecides(limits, entries, n - 1);
      TotalOneMore(Firsts(entries, n - 1), (entries[n - 1].event, entries[n - 1].limits));
      var first := FirstFor(entries, entries[n - 1].event, n - 1);
      if Split(limits, entries, n - 1).Generic? {
        SplitTakesFirsts(limits, entries, n - 1);
        if first.Some? { DisagreesWith(entries, n); }
      }
      hide FirstFor, Total;
    }
  }

  /** When it fails, the first entry to break either decides the error. */
  lemma {:induction false} SplitRefuses(limits: Limits, entries: seq<Permission>, n: nat) returns (k: nat)
    requires n <= |entries| && !Split(limits, entries, n).Generic?
    ensures 0 < k <= n && Split(limits, entries, k - 1).Generic?
    ensures Split(limits, entries, n) == if Agree(entries, k) then NoCapacity else InvalidConfig
    decreases n
  {
    if Split(limits, entries, n - 1).Generic? {
      k := n;
      SplitDecides(limits, entries, n - 1);
      if FirstFor(entries, entries[n - 1].event, n - 1).Some? { DisagreesWith(entries, n); }
    } else {
      k := SplitRefuses(limits, entries, n - 1);
    }
  }

  lemma {:induction false} FirstsAre(entries: seq<Permission>, n: nat)
    requires n <= |entries|
    requires Agree(entries, n)
    ensures OneEach(Firsts(entries, n))
    ensures forall row: Row :: row in Firsts(entries, n) <==>
              exists k :: 0 <= k < n && row == (entries[k].event, entries[k].limits)
    decreases n
  {
    if n > 0 {
      FirstsAre(entries, n - 1);
      var last := (entries[n - 1].event, entries[n - 1].limits);
      var first := FirstFor(entries, last.0, n - 1);
      if first.Some? {
        var k :| 0 <= k < n - 1 && entries[k] == first.value;
        assert last == (entries[k].event, entries[k].limits);
      }
      var before := Firsts(entries, n - 1);
      forall i | 0 <= i < |before| ensures first.None? ==> before[i].0 != last.0 {
        assert before[i] in before;
      }
      forall row: Row ensures row in Firsts(entries, n) <==> row in before || row == last {
      }
    }
  }

  lemma {:induction false} TotalWithout(rows: seq<Row>, i: nat)
    requires i < |rows|
    ensures Total(rows) == Plus(Total(rows[..i] + rows[i + 1..]), rows[i].1)
    decreases |rows|
  {
    var (last, rest) := (|rows| - 1, rows[..i] + rows[i + 1..]);
    if i == last {
      assert rest == rows[..last];
    } else {
      TotalWithout(rows[..last], i);
      assert rows[..last][..i] + rows[..last][i + 1..] == rest[..|rest| - 1];
      assert rest[|rest| - 1] == rows[last];
    }
  }

  /** Tables with one row an event and the same rows have the same total. */
  lemma {:induction false} SameTotal(a: seq<Row>, b: seq<Row>)
    requires OneEach(a) && OneEach(b) && (forall row: Row :: row in a <==> row in b)
    ensures Total(a) == Total(b)
    decreases |a|
  {
    assert b == [] || b[0] in b;
    if a != [] {
      var (row, rest) := (a[|a| - 1], a[..|a| - 1]);
      assert row in b;
      var i :| 0 <= i < |b| && b[i] == row;
      var others := b[..i] + b[i + 1..];
      forall r: Row ensures r in rest <==> r in others {
        assert a == rest + [row] && b == b[..i] + [b[i]] + b[i + 1..];
        assert r in a <==> r in rest || r == row;
        assert r in b <==> r in others || r == row;
      }
      SameTotal(rest, others);
      TotalWithout(b, i);
    }
  }

  /** However often an event is repeated in the request, the generic pool and one pool an
      event add up to the declared limits. */
  lemma PoolsMakeUpLimits(limits: Limits, entries: seq<Permission>, table: seq<Permission>)
    requires Becomes(entries, table) && Split(limits, entries, |entries|).Generic?
    ensures MakesUp(limits, Split(limits, entries, |entries|).left, Total(Rows(table)))
  {
    SplitTakesFirsts(limits, entries, |entries|);
    SplitAgrees(limits, entries, |entries|);
    FirstsAre(entries, |entries|);
    TableRows(entries, table);
    hide Total, Firsts, Split;
    SameTotal(Firsts(entries, |entries|), Rows(table));
  }

  lemma RowEntry(entries: seq<Permission>, sorted: seq<Permission>, row: Permission) returns (e: nat)
    requires multiset(sorted) == multiset(entries) && RowOf(sorted, |sorted|, row)
    ensures e < |entries| && entries[e].event == row.event && entries[e].limits == row.limits
  {
    var k :| 0 <= k < |sorted| && sorted[k].event == row.event && sorted[k].limits == row.limits;
    e := SameMembers(sorted, entries, k);
  }

  lemma TableRows(entries: seq<Permission>, table: seq<Permission>)
    requires Becomes(entries, table) && Agree(entries, |entries|)
    ensures OneEach(Rows(table))
    ensures forall row: Row :: row in Rows(table) <==>
              exists k :: 0 <= k < |entries| && row == (entries[k].event, entries[k].limits)
  {
    var sorted: seq<Permission> :| Sorted(sorted) && multiset(sorted) == multiset(entries)
      && table == Merged(sorted, |sorted|);
    MergedIsTable(sorted, |sorted|);
    hide Asked, Merged, RowOf, Sorted, Covers, Agree;
    forall row: Row | row in Rows(table)
      ensures exists k :: 0 <= k < |entries| && row == (entries[k].event, entries[k].limits)
    {
      var i :| 0 <= i < |table| && Rows(table)[i] == row;
      var k := RowEntry(entries, sorted, table[i]);
    }
    forall k | 0 <= k < |entries| ensures (entries[k].event, entries[k].limits) in Rows(table) {
      EntryRow(entries, sorted, table, k);
    }
  }

  lemma EntryRow(entries: seq<Permission>, sorted: seq<Permission>, table: seq<Permission>, k: nat)
    requires multiset(sorted) == multiset(entries) && TableOf(sorted, |sorted|, table) && Agree(entries, |entries|)
    requires k < |entries|
    ensures (entries[k].event, entries[k].limits) in Rows(table)
  {
    var j := SameMembers(entries, sorted, k);
    assert Covers(table, sorted[j].event);
    hide RowOf;
    var i :| 0 <= i < |table| && table[i].event == sorted[j].event;
    var e := RowEntry(entries, sorted, table[i]);
    assert Rows(table)[i] == (entries[k].event, entries[k].limits);
  }
}
