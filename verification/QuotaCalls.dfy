/** Quota requests: when one is granted, what it takes, and that a refused one takes nothing. */
module QuotaCalls {
  import opened Wire
  import Q = Quota

  // --- A request left alone ---

  /** Counter after counter is charged until the lease is kept or has to be undone. */
  function Charged(b: Q.Books, k: nat): (now: Q.Books)
    requires Q.BooksInv(b) && k < |b.leases| && b.leases[k].stage.Charging?
    ensures Q.BooksInv(now) && k < |now.leases| && (now.leases[k].stage.Kept? || now.leases[k].stage.Undoing?)
    decreases Q.COUNTERS - b.leases[k].hi + 1
  {
    Q.ChargeHolds(b, k);
    assert Q.LeaseInv(b, k);
    var next := Q.Next(b, Q.Charge(k));
    assert Q.LeaseInv(next, k);
    if next.leases[k].stage.Charging? then Charged(next, k) else next
  }

  /** The lease is on its way out: refused, or released. */
  predicate Leaving(b: Q.Books, k: nat) {
    k < |b.leases| && (b.leases[k].stage.Undoing? || b.leases[k].stage.Releasing?)
  }

  function GiveStep(b: Q.Books, k: nat): Q.Step
    requires Leaving(b, k)
  {
    if b.leases[k].stage.Undoing? then Q.Undo(k) else Q.Return(k)
  }

  /** What was charged is given back, counter after counter. */
  function GivenBack(b: Q.Books, k: nat): (now: Q.Books)
    requires Q.BooksInv(b) && Leaving(b, k)
    ensures Q.BooksInv(now) && k < |now.leases| && now.leases[k].stage.Gone?
    decreases Q.COUNTERS - b.leases[k].lo + 1
  {
    Q.GiveHolds(b, k);
    assert Q.LeaseInv(b, k);
    var next := Q.Next(b, GiveStep(b, k));
    assert Q.LeaseInv(next, k);
    if Leaving(next, k) then GivenBack(next, k) else next
  }

  /** Only lease `k` has moved on, and the counters of its pool. */
  predicate OnlyAt(was: Q.Books, k: nat, now: Q.Books) {
    && k < |was.leases| == |now.leases| && |was.pools| == |now.pools|
    && var p := was.leases[k].pool;
       && now.leases[k].pool == p && now.leases[k].amounts == was.leases[k].amounts
       && p < |was.pools| && now.pools[p] == was.pools[p].(usage := now.pools[p].usage)
       && |now.pools[p].usage| == Q.COUNTERS == |was.pools[p].usage| == |was.pools[p].limits| == |was.leases[k].amounts|
       && (forall i :: 0 <= i < |was.pools| && i != p ==> now.pools[i] == was.pools[i])
       && (forall i :: 0 <= i < |was.leases| && i != k ==> now.leases[i] == was.leases[i])
  }

  /** Counter `i` of the lease's pool. */
  function Usage(b: Q.Books, k: nat, i: nat): nat
    requires OnlyAt(b, k, b) && i < Q.COUNTERS
  {
    b.pools[b.leases[k].pool].usage[i]
  }

  /** Everything still to be charged fits. */
  predicate Fits(b: Q.Books, k: nat)
    requires OnlyAt(b, k, b)
  {
    forall i :: b.leases[k].hi <= i < Q.COUNTERS ==>
      Usage(b, k, i) + b.leases[k].amounts[i] <= b.pools[b.leases[k].pool].limits[i]
  }

  lemma Still(b: Q.Books, k: nat)
    requires Q.BooksInv(b) && k < |b.leases|
    ensures OnlyAt(b, k, b)
  {
    assert Q.LeaseInv(b, k) && Q.PoolInv(b, b.leases[k].pool);
  }

  /** One counter: it is charged if the sum stays within the limit, reaching it included. */
  lemma ChargeOne(b: Q.Books, k: nat)
    requires Q.BooksInv(b) && k < |b.leases| && b.leases[k].stage.Charging?
    ensures OnlyAt(b, k, b)
    ensures var (lease, next) := (b.leases[k], Q.Next(b, Q.Charge(k)));
            var i := lease.hi;
            && OnlyAt(b, k, next) && next.leases[k].lo == 0
            && (i == Q.COUNTERS ==> next.leases[k] == lease.(stage := Q.Kept) && next.pools == b.pools)
            && (i < Q.COUNTERS ==>
                  && (forall j :: 0 <= j < Q.COUNTERS && j != i ==> Usage(next, k, j) == Usage(b, k, j))
                  && if Usage(b, k, i) + lease.amounts[i] <= b.pools[lease.pool].limits[i] then
                       next.leases[k] == lease.(hi := i + 1) && Usage(next, k, i) == Usage(b, k, i) + lease.amounts[i]
                     else next.leases[k] == lease.(stage := Q.Undoing) && next.pools == b.pools)
  {
    Still(b, k);
    assert Q.LeaseInv(b, k) && Q.PoolInv(b, b.leases[k].pool);
    hide Q.BooksInv, Q.Held, Q.Handed, Q.GrantInv, Q.PoolLive, Q.PoolIdle;
  }

  lemma Onward(a: Q.Books, k: nat, b: Q.Books, c: Q.Books)
    requires OnlyAt(a, k, b) && OnlyAt(b, k, c)
    ensures OnlyAt(a, k, c) && OnlyAt(b, k, b)
  {
  }

  /** A request nothing else interferes with is granted exactly when every amount fits, and then
      takes exactly its amounts. */
  lemma {:induction false} ChargesDecide(b: Q.Books, k: nat)
    requires Q.BooksInv(b) && k < |b.leases| && b.leases[k].stage.Charging?
    ensures OnlyAt(b, k, b) && OnlyAt(b, k, Charged(b, k)) && OnlyAt(Charged(b, k), k, Charged(b, k))
    ensures var now := Charged(b, k);
            && (now.leases[k].stage.Kept? <==> Fits(b, k)) && now.leases[k].lo == 0
            && b.leases[k].hi <= now.leases[k].hi <= Q.COUNTERS && (Fits(b, k) ==> now.leases[k].hi == Q.COUNTERS)
            && forall i :: 0 <= i < Q.COUNTERS ==>
                 Usage(now, k, i)
                 == Usage(b, k, i) + if b.leases[k].hi <= i < now.leases[k].hi then b.leases[k].amounts[i] else 0
    decreases Q.COUNTERS - b.leases[k].hi + 1
  {
    ChargeOne(b, k);
    Q.ChargeHolds(b, k);
    assert Q.LeaseInv(b, k);
    var next := Q.Next(b, Q.Charge(k));
    hide Q.BooksInv, Q.Next, Usage;
    if next.leases[k].stage.Charging? {
      ChargesDecide(next, k);
      Onward(b, k, next, Charged(next, k));
    }
  }

  lemma GiveOne(b: Q.Books, k: nat)
    requires Q.BooksInv(b) && Leaving(b, k)
    ensures OnlyAt(b, k, b)
    ensures var (lease, next) := (b.leases[k], Q.Next(b, GiveStep(b, k)));
            var i := lease.lo;
            && OnlyAt(b, k, next)
            && (i == lease.hi ==> next.leases[k] == lease.(stage := Q.Gone) && next.pools == b.pools)
            && (i < lease.hi ==>
                  && next.leases[k] == lease.(lo := i + 1) && Usage(next, k, i) == Usage(b, k, i) - lease.amounts[i]
                  && forall j :: 0 <= j < Q.COUNTERS && j != i ==> Usage(next, k, j) == Usage(b, k, j))
  {
    Still(b, k);
    assert Q.LeaseInv(b, k) && Q.PoolInv(b, b.leases[k].pool);
    var lease := b.leases[k];
    if lease.lo < lease.hi { Q.HeldAt(b.leases, k, lease, lease.pool, lease.lo, |b.leases|); }
    hide Q.BooksInv, Q.Held, Q.Handed, Q.GrantInv, Q.PoolLive, Q.PoolIdle;
  }

  lemma {:induction false} GivesReturn(b: Q.Books, k: nat)
    requires Q.BooksInv(b) && Leaving(b, k)
    ensures OnlyAt(b, k, b) && OnlyAt(b, k, GivenBack(b, k)) && OnlyAt(GivenBack(b, k), k, GivenBack(b, k))
    ensures forall i :: 0 <= i < Q.COUNTERS ==>
              Usage(GivenBack(b, k), k, i)
              == Usage(b, k, i) - if b.leases[k].lo <= i < b.leases[k].hi then b.leases[k].amounts[i] else 0
    decreases Q.COUNTERS - b.leases[k].lo + 1
  {
    GiveOne(b, k);
    Q.GiveHolds(b, k);
    assert Q.LeaseInv(b, k);
    var next := Q.Next(b, GiveStep(b, k));
    hide Q.BooksInv, Q.Next, Usage;
    if Leaving(next, k) {
      GivesReturn(next, k);
      Onward(b, k, next, GivenBack(next, k));
    }
  }

  /** The pool's counters after a request, granted or refused. */
  function Answered(b: Q.Books, k: nat): Q.Books
    requires Q.BooksInv(b) && k < |b.leases| && b.leases[k].stage.Charging?
  {
    if Charged(b, k).leases[k].stage.Kept? then Charged(b, k) else GivenBack(Charged(b, k), k)
  }

  /** A refused request gives back all it was charged. */
  lemma Restored(b: Q.Books, k: nat)
    requires Q.BooksInv(b) && k < |b.leases| && b.leases[k].stage.Charging? && b.leases[k].hi == 0
    requires Charged(b, k).leases[k].stage.Undoing?
    ensures OnlyAt(b, k, GivenBack(Charged(b, k), k)) && GivenBack(Charged(b, k), k).pools == b.pools
  {
    ChargesDecide(b, k);
    var charged := Charged(b, k);
    GivesReturn(charged, k);
    Onward(b, k, charged, GivenBack(charged, k));
    var (p, now) := (b.leases[k].pool, GivenBack(charged, k));
    hide Q.BooksInv, Charged, GivenBack, Fits;
    forall i | 0 <= i < Q.COUNTERS ensures now.pools[p].usage[i] == b.pools[p].usage[i] {
      assert Usage(now, k, i) == Usage(b, k, i);
    }
    assert now.pools[p].usage == b.pools[p].usage;
  }

  /** A request made while nothing else moves succeeds if and only if every amount fits what its
      pool has left; it then takes exactly what was asked, and a refused one leaves every counter
      as it was. No other pool or lease is touched either way. */
  lemma RequestDecides(b: Q.Books, pool: nat, amounts: seq<nat>, own: seq<nat>, grant: Option<seq<nat>>)
    requires Q.BooksInv(b) && Q.Enabled(b, Q.Request(pool, amounts, own, grant))
    ensures var (k, asked) := (|b.leases|, Q.Next(b, Q.Request(pool, amounts, own, grant)));
            && Q.BooksInv(asked) && k < |asked.leases| && asked.leases[k].stage.Charging?
            && var now := Answered(asked, k);
               && |now.pools| == |b.pools| && k < |now.leases| && now.leases[..k] == b.leases
               && |b.pools[pool].limits| == Q.COUNTERS == |b.pools[pool].usage| == |now.pools[pool].usage|
               && (forall q :: 0 <= q < |b.pools| && q != pool ==> now.pools[q] == b.pools[q])
               && (now.leases[k].stage.Kept? <==>
                     forall i :: 0 <= i < Q.COUNTERS ==> b.pools[pool].usage[i] + amounts[i] <= b.pools[pool].limits[i])
               && (now.leases[k].stage.Kept? ==>
                     forall i :: 0 <= i < Q.COUNTERS ==>
                       now.pools[pool].usage[i] == b.pools[pool].usage[i] + amounts[i])
               && (!now.leases[k].stage.Kept? ==> now.leases[k].stage.Gone? && now.pools == b.pools)
  {
    var request := Q.Request(pool, amounts, own, grant);
    var (k, asked) := (|b.leases|, Q.Next(b, request));
    Q.NextHolds(b, request);
    assert Q.PoolInv(b, pool) && asked.pools == b.pools && asked.leases[..k] == b.leases;
    ChargesDecide(asked, k);
    var charged := Charged(asked, k);
    var now := Answered(asked, k);
    hide Q.BooksInv, Q.Next, Q.Enabled, Charged, GivenBack;
    if charged.leases[k].stage.Undoing? { Restored(asked, k); }
    assert now.leases[..k] == asked.leases[..k];
  }

  /** A lease released while nothing else moves gives back exactly its amounts. */
  lemma ReleaseReturns(b: Q.Books, k: nat)
    requires Q.BooksInv(b) && Q.Enabled(b, Q.Release(k))
    ensures var released := Q.Next(b, Q.Release(k));
            && Q.BooksInv(released) && Leaving(released, k) && OnlyAt(b, k, b)
            && var now := GivenBack(released, k);
               && OnlyAt(b, k, now) && OnlyAt(now, k, now) && now.leases[k].stage.Gone?
               && forall i :: 0 <= i < Q.COUNTERS ==> Usage(now, k, i) == Usage(b, k, i) - b.leases[k].amounts[i]
  {
    Q.NextHolds(b, Q.Release(k));
    Still(b, k);
    assert Q.LeaseInv(b, k);
    var released := Q.Next(b, Q.Release(k));
    GivesReturn(released, k);
    hide Q.BooksInv, Q.Enabled, GivenBack;
    Onward(b, k, released, GivenBack(released, k));
    forall i | 0 <= i < Q.COUNTERS ensures Usage(released, k, i) == Usage(b, k, i) {
    }
  }

  // --- Requests among others ---

  /** In any interleaving a request begins to be undone only where a counter's usage and the
      amount asked of it together exceeded the limit at that moment. */
  lemma {:induction false} RefusedForCause(limits: seq<nat>, states: seq<Q.Books>, steps: seq<Q.Step>, n: nat, k: nat)
    returns (at: nat, i: nat)
    requires |limits| == Q.COUNTERS && Q.RunOf(states, steps) && states[0] == Q.Root(limits) && n < |states|
    requires k < |states[n].leases| && states[n].leases[k].stage.Undoing?
    ensures at < n && steps[at] == Q.Charge(k) && k < |states[at].leases| && i < Q.COUNTERS
    ensures OnlyAt(states[at], k, states[at])
    ensures Usage(states[at], k, i) + states[at].leases[k].amounts[i]
            > states[at].pools[states[at].leases[k].pool].limits[i]
    decreases n
  {
    Q.RunHolds(limits, states, steps, n);
    if n == 0 {
      assert false;
    } else {
      Q.RunHolds(limits, states, steps, n - 1);
      var (b, step) := (states[n - 1], steps[n - 1]);
      assert Q.StepOf(b, step, states[n - 1 + 1]);
      if k < |b.leases| && b.leases[k].stage.Undoing? {
        at, i := RefusedForCause(limits, states, steps, n - 1, k);
      } else {
        BeginsUndoing(b, step, k);
        at, i := n - 1, b.leases[k].hi;
        ChargeOne(b, k);
      }
    }
  }

  lemma BeginsUndoing(b: Q.Books, step: Q.Step, k: nat)
    requires Q.BooksInv(b) && Q.Enabled(b, step) && !(k < |b.leases| && b.leases[k].stage.Undoing?)
    requires k < |Q.Next(b, step).leases| && Q.Next(b, step).leases[k].stage.Undoing?
    ensures step == Q.Charge(k) && k < |b.leases| && b.leases[k].stage.Charging? && b.leases[k].hi < Q.COUNTERS
  {
    hide Q.BooksInv, Q.Declared, Q.Handed, Q.PoolLive, Q.PoolIdle;
  }
}
