/** Hierarchical quotas: leases charged and released one atomic counter at a time. */
module Quota {
  import opened Wire

  /** Streams, grants, subscriptions, retained items, waiters, connections, bytes. */
  const COUNTERS: nat := 7
  const GRANTS: nat := 1

  datatype Stage = Charging | Undoing | Kept | Releasing | Gone

  /** A lease in some stage of its life: it accounts for counters `lo` up to `hi`. `own`
      is the part charged directly; the rest is handed to the pools the lease backs. The
      reservation a delegated grant lives on carries the limits the grant declares. */
  datatype Lease = Lease(
    pool: nat, amounts: seq<nat>, own: seq<nat>, grant: Option<seq<nat>>, lo: nat, hi: nat, stage: Stage)
  {
    predicate Active(i: nat) { lo <= i < hi }
  }

  /** `backing` is the lease of a lower pool that this pool's limits come out of, `node` the
      reservation of the grant whose generic or event pool it is; the root has neither. */
  datatype Pool = Pool(limits: seq<nat>, usage: seq<nat>, backing: Option<nat>, node: Option<nat>)

  datatype Books = Books(pools: seq<Pool>, leases: seq<Lease>)

  datatype Step =
    | Request(pool: nat, amounts: seq<nat>, own: seq<nat>, grant: Option<seq<nat>>)
    | Charge(k: nat)
    | Undo(k: nat)
    | Release(k: nat)
    | Return(k: nat)
    | AddPool(k: nat, node: nat, limits: seq<nat>)

  // --- Sums ---

  function Share(lease: Lease, p: nat, i: nat): nat {
    if lease.pool == p && lease.Active(i) && i < |lease.amounts| then lease.amounts[i] else 0
  }

  /** What the first `n` leases account for in one counter of one pool. */
  function Held(leases: seq<Lease>, p: nat, i: nat, n: nat): nat
    requires n <= |leases|
  {
    if n == 0 then 0 else Held(leases, p, i, n - 1) + Share(leases[n - 1], p, i)
  }

  function Part(pool: Pool, k: nat, i: nat): nat {
    if pool.backing == Some(k) && i < |pool.limits| then pool.limits[i] else 0
  }

  /** The limits of those of the first `n` pools that lease `k` backs. */
  function Handed(pools: seq<Pool>, k: nat, i: nat, n: nat): nat
    requires n <= |pools|
  {
    if n == 0 then 0 else Handed(pools, k, i, n - 1) + Part(pools[n - 1], k, i)
  }

  /** The limits of those of the first `n` pools that belong to the grant of lease `g`. */
  function Declared(pools: seq<Pool>, g: nat, i: nat, n: nat): nat
    requires n <= |pools|
  {
    if n == 0 then 0
    else
      Declared(pools, g, i, n - 1)
      + if pools[n - 1].node == Some(g) && i < |pools[n - 1].limits| then pools[n - 1].limits[i] else 0
  }

  // --- Invariant ---

  /** A reservation counts the grant itself, and its pools stay within what it declares. */
  predicate GrantInv(b: Books, k: nat)
    requires k < |b.leases|
  {
    var lease := b.leases[k];
    lease.grant.Some? ==>
      && |lease.grant.value| == COUNTERS == |lease.own| && lease.own[GRANTS] == 1
      && forall i :: 0 <= i < COUNTERS ==> Declared(b.pools, k, i, |b.pools|) <= lease.grant.value[i]
  }

  predicate LeaseInv(b: Books, k: nat)
    requires k < |b.leases|
  {
    var lease := b.leases[k];
    && lease.pool < |b.pools| && |lease.amounts| == COUNTERS == |lease.own|
    && lease.lo <= lease.hi <= COUNTERS && GrantInv(b, k)
    && (match lease.stage
        case Charging => lease.lo == 0
        case Undoing => true
        case Kept => lease.lo == 0 && lease.hi == COUNTERS
        case Releasing => lease.hi == COUNTERS
        case Gone => lease.lo == lease.hi)
    && forall i :: 0 <= i < COUNTERS ==>
         lease.own[i] + Handed(b.pools, k, i, |b.pools|) <= lease.amounts[i]
  }

  /** A pool is live while the lease behind it is kept; the root pool always is. */
  predicate PoolLive(b: Books, p: nat)
    requires p < |b.pools|
  {
    b.pools[p].backing.Some? ==>
      b.pools[p].backing.value < |b.leases| && b.leases[b.pools[p].backing.value].stage.Kept?
  }

  predicate PoolIdle(leases: seq<Lease>, p: nat) {
    forall k :: 0 <= k < |leases| && leases[k].pool == p ==> leases[k].stage.Gone?
  }

  predicate PoolInv(b: Books, p: nat)
    requires p < |b.pools|
  {
    var pool := b.pools[p];
    && |pool.limits| == COUNTERS == |pool.usage|
    && (forall i :: 0 <= i < COUNTERS ==> pool.usage[i] == Held(b.leases, p, i, |b.leases|) <= pool.limits[i])
    && (pool.backing.Some? ==> pool.backing.value < |b.leases| && b.leases[pool.backing.value].pool < p
                               && !b.leases[pool.backing.value].stage.Charging?)
    && (pool.node.Some? <==> pool.backing.Some?)
    && (pool.node.Some? ==> pool.node.value < |b.leases| && b.leases[pool.node.value].grant.Some?)
    && (!PoolLive(b, p) ==> PoolIdle(b.leases, p))
  }

  predicate BooksInv(b: Books) {
    && (forall k :: 0 <= k < |b.leases| ==> LeaseInv(b, k))
    && (forall p :: 0 <= p < |b.pools| ==> PoolInv(b, p))
  }

  // --- Steps ---

  predicate Fits(amounts: seq<nat>, own: seq<nat>) {
    |amounts| == COUNTERS == |own| && forall i :: 0 <= i < COUNTERS ==> own[i] <= amounts[i]
  }

  predicate Enabled(b: Books, step: Step) {
    match step
    case Request(pool, amounts, own, grant) =>
      && pool < |b.pools| && PoolLive(b, pool) && Fits(amounts, own)
      && (grant.Some? ==> |grant.value| == COUNTERS && own[GRANTS] == 1)
    case Charge(k) => k < |b.leases| && b.leases[k].stage.Charging?
    case Undo(k) => k < |b.leases| && b.leases[k].stage.Undoing?
    case Release(k) =>
      && k < |b.leases| && b.leases[k].stage.Kept?
      && forall p :: 0 <= p < |b.pools| && b.pools[p].backing == Some(k) ==> PoolIdle(b.leases, p)
    case Return(k) => k < |b.leases| && b.leases[k].stage.Releasing?
    case AddPool(k, node, limits) =>
      && k < |b.leases| && b.leases[k].stage.Kept? && |limits| == COUNTERS
      && |b.leases[k].own| == COUNTERS == |b.leases[k].amounts|
      && node < |b.leases| && b.leases[node].stage.Kept? && b.leases[node].grant.Some?
      && (if b.leases[k].grant.Some? then k == node else limits[GRANTS] == 0)
      && |b.leases[node].grant.value| == COUNTERS
      && (forall i :: 0 <= i < COUNTERS ==>
            Declared(b.pools, node, i, |b.pools|) + limits[i] <= b.leases[node].grant.value[i])
      && forall i :: 0 <= i < COUNTERS ==>
           b.leases[k].own[i] + Handed(b.pools, k, i, |b.pools|) + limits[i] <= b.leases[k].amounts[i]
  }

  function Counter(pool: Pool, i: nat, value: nat): Pool
    requires i < |pool.usage|
  {
    pool.(usage := pool.usage[i := value])
  }

  function Next(b: Books, step: Step): Books
    requires BooksInv(b) && Enabled(b, step)
  {
    match step
    case Request(pool, amounts, own, grant) =>
      b.(leases := b.leases + [Lease(pool, amounts, own, grant, 0, 0, Charging)])
    case Charge(k) =>
      assert LeaseInv(b, k);
      assert PoolInv(b, b.leases[k].pool);
      NextCharge(b, k)
    case Undo(k) =>
      assert LeaseInv(b, k);
      assert PoolInv(b, b.leases[k].pool);
      NextGive(b, k)
    case Release(k) => b.(leases := b.leases[k := b.leases[k].(stage := Releasing)])
    case Return(k) =>
      assert LeaseInv(b, k);
      assert PoolInv(b, b.leases[k].pool);
      NextGive(b, k)
    case AddPool(k, node, limits) =>
      b.(pools := b.pools + [Pool(limits, [0, 0, 0, 0, 0, 0, 0], Some(k), Some(node))])
  }

  predicate Sized(b: Books, k: nat) {
    && k < |b.leases| && b.leases[k].pool < |b.pools| && |b.leases[k].amounts| == COUNTERS
    && |b.pools[b.leases[k].pool].usage| == COUNTERS == |b.pools[b.leases[k].pool].limits|
  }

  /** The next counter is charged if the sum stays within the limit, skipped if nothing is
      asked of it, and otherwise everything charged so far is given back. */
  function NextCharge(b: Books, k: nat): Books
    requires Sized(b, k)
  {
    var lease := b.leases[k];
    var (p, i) := (lease.pool, lease.hi);
    if i >= COUNTERS then b.(leases := b.leases[k := lease.(stage := Kept)])
    else if lease.amounts[i] == 0 then b.(leases := b.leases[k := lease.(hi := i + 1)])
    else if b.pools[p].usage[i] + lease.amounts[i] <= b.pools[p].limits[i] then
      Books(b.pools[p := Counter(b.pools[p], i, b.pools[p].usage[i] + lease.amounts[i])],
            b.leases[k := lease.(hi := i + 1)])
    else b.(leases := b.leases[k := lease.(stage := Undoing)])
  }

  /** Gives the lowest counter still held back to the pool. */
  function NextGive(b: Books, k: nat): Books
    requires Sized(b, k)
  {
    var lease := b.leases[k];
    var (p, i) := (lease.pool, lease.lo);
    if i >= lease.hi || i >= COUNTERS then b.(leases := b.leases[k := lease.(stage := Gone)])
    else
      var usage := b.pools[p].usage[i];
      Books(b.pools[p := Counter(b.pools[p], i, if usage < lease.amounts[i] then 0 else usage - lease.amounts[i])],
            b.leases[k := lease.(lo := i + 1)])
  }

  // --- Sum lemmas ---

  lemma {:induction false} HeldAt(leases: seq<Lease>, k: nat, lease: Lease, p: nat, i: nat, n: nat)
    requires k < |leases| && n <= |leases|
    ensures Held(leases[k := lease], p, i, n)
            == Held(leases, p, i, n) + if k < n then Share(lease, p, i) - Share(leases[k], p, i) else 0
    ensures k < n ==> Share(leases[k], p, i) <= Held(leases, p, i, n)
    decreases n
  {
    hide Share;
    if n > 0 { HeldAt(leases, k, lease, p, i, n - 1); }
  }

  lemma {:induction false} HeldPrefix(leases: seq<Lease>, lease: Lease, p: nat, i: nat, n: nat)
    requires n <= |leases|
    ensures Held(leases + [lease], p, i, n) == Held(leases, p, i, n)
    decreases n
  {
    if n > 0 { HeldPrefix(leases, lease, p, i, n - 1); }
  }

  lemma {:induction false} HandedSame(was: seq<Pool>, now: seq<Pool>, k: nat, i: nat, n: nat)
    requires n <= |was| && n <= |now|
    requires forall p :: 0 <= p < n ==>
               was[p].backing == now[p].backing && was[p].limits == now[p].limits && was[p].node == now[p].node
    ensures Handed(was, k, i, n) == Handed(now, k, i, n) && Declared(was, k, i, n) == Declared(now, k, i, n)
    decreases n
  {
    if n > 0 { HandedSame(was, now, k, i, n - 1); }
  }

  lemma {:induction false} HeldNone(leases: seq<Lease>, p: nat, i: nat, n: nat)
    requires n <= |leases| && forall k :: 0 <= k < n ==> leases[k].pool != p || leases[k].lo >= leases[k].hi
    ensures Held(leases, p, i, n) == 0
    decreases n
  {
    if n > 0 { HeldNone(leases, p, i, n - 1); }
  }

  // --- Every step keeps the books ---

  /** One lease moves on and its pool's counter with it. */
  lemma MoveHolds(b: Books, k: nat, lease: Lease, pool: Pool)
    requires BooksInv(b) && k < |b.leases| && b.leases[k].pool < |b.pools|
    requires lease.pool == b.leases[k].pool && lease.amounts == b.leases[k].amounts && lease.own == b.leases[k].own
    requires lease.grant == b.leases[k].grant
    requires var now := Books(b.pools[lease.pool := pool], b.leases[k := lease]);
             var was := b.pools[lease.pool];
             && pool.limits == was.limits && pool.backing == was.backing && pool.node == was.node
             && |pool.usage| == COUNTERS == |was.usage| && |pool.limits| == COUNTERS
             && (forall i :: 0 <= i < COUNTERS ==>
                   && pool.usage[i] == was.usage[i] + Share(lease, lease.pool, i) - Share(b.leases[k], lease.pool, i)
                   && pool.usage[i] <= pool.limits[i])
             && lease.lo <= lease.hi <= COUNTERS
             && (lease.stage.Charging? ==> lease.lo == 0 && b.leases[k].stage.Charging?)
             && (lease.stage.Kept? ==> lease.lo == 0 && lease.hi == COUNTERS)
             && (lease.stage.Releasing? ==> lease.hi == COUNTERS)
             && (lease.stage.Gone? ==> lease.lo == lease.hi)
             && (b.leases[k].stage.Gone? ==> lease.stage.Gone?)
             && (b.leases[k].stage.Kept? && !lease.stage.Kept? ==>
                   forall p :: 0 <= p < |b.pools| && b.pools[p].backing == Some(k) ==> PoolIdle(b.leases, p))
    ensures BooksInv(Books(b.pools[lease.pool := pool], b.leases[k := lease]))
  {
    var now := Books(b.pools[lease.pool := pool], b.leases[k := lease]);
    hide Share;
    forall j | 0 <= j < |now.leases| ensures LeaseInv(now, j) {
      assert LeaseInv(b, j);
      forall i | 0 <= i < COUNTERS
        ensures Handed(now.pools, j, i, |b.pools|) == Handed(b.pools, j, i, |b.pools|)
        ensures Declared(now.pools, j, i, |b.pools|) == Declared(b.pools, j, i, |b.pools|)
      {
        HandedSame(b.pools, now.pools, j, i, |b.pools|);
      }
    }
    forall p | 0 <= p < |now.pools| ensures PoolInv(now, p) {
      MovePool(b, k, lease, pool, p);
    }
  }

  lemma MovePool(b: Books, k: nat, lease: Lease, pool: Pool, p: nat)
    requires BooksInv(b) && k < |b.leases| && b.leases[k].pool < |b.pools| && p < |b.pools|
    requires lease.pool == b.leases[k].pool && lease.grant == b.leases[k].grant
             && pool.limits == b.pools[lease.pool].limits
    requires pool.backing == b.pools[lease.pool].backing && pool.node == b.pools[lease.pool].node
    requires |pool.usage| == COUNTERS == |b.pools[lease.pool].usage|
    requires forall i :: 0 <= i < COUNTERS ==>
               && pool.usage[i] == b.pools[lease.pool].usage[i]
                  + Share(lease, lease.pool, i) - Share(b.leases[k], lease.pool, i)
    requires |pool.limits| == COUNTERS && forall i :: 0 <= i < COUNTERS ==> pool.usage[i] <= pool.limits[i]
    requires lease.stage.Charging? ==> b.leases[k].stage.Charging?
    requires b.leases[k].stage.Gone? ==> lease.stage.Gone?
    requires b.leases[k].stage.Kept? && !lease.stage.Kept? ==>
               forall q :: 0 <= q < |b.pools| && b.pools[q].backing == Some(k) ==> PoolIdle(b.leases, q)
    ensures PoolInv(Books(b.pools[lease.pool := pool], b.leases[k := lease]), p)
  {
    var now := Books(b.pools[lease.pool := pool], b.leases[k := lease]);
    assert PoolInv(b, p);
    forall i | 0 <= i < COUNTERS
      ensures now.pools[p].usage[i] == Held(now.leases, p, i, |now.leases|) <= now.pools[p].limits[i]
    {
      HeldAt(b.leases, k, lease, p, i, |b.leases|);
    }
    hide Held, Share;
    if !PoolLive(now, p) {
      assert PoolIdle(b.leases, p);
    }
  }

  lemma RequestHolds(b: Books, step: Step)
    requires BooksInv(b) && Enabled(b, step) && step.Request?
    ensures BooksInv(Next(b, step))
  {
    var lease := Lease(step.pool, step.amounts, step.own, step.grant, 0, 0, Charging);
    var now := b.(leases := b.leases + [lease]);
    forall k | 0 <= k < |now.leases| ensures LeaseInv(now, k) {
      if k < |b.leases| {
        assert LeaseInv(b, k);
      } else {
        forall i | 0 <= i < COUNTERS
          ensures Handed(b.pools, k, i, |b.pools|) == 0 == Declared(b.pools, k, i, |b.pools|)
        {
          HandedNone(b, k, i, |b.pools|);
        }
      }
    }
    forall p | 0 <= p < |now.pools| ensures PoolInv(now, p) {
      assert PoolInv(b, p);
      forall i | 0 <= i < COUNTERS ensures Held(now.leases, p, i, |now.leases|) == Held(b.leases, p, i, |b.leases|) {
        HeldPrefix(b.leases, lease, p, i, |b.leases|);
      }
    }
  }

  lemma {:induction false} HandedNone(b: Books, k: nat, i: nat, n: nat)
    requires BooksInv(b) && k >= |b.leases| && n <= |b.pools|
    ensures Handed(b.pools, k, i, n) == 0 == Declared(b.pools, k, i, n)
    decreases n
  {
    if n > 0 {
      assert PoolInv(b, n - 1);
      HandedNone(b, k, i, n - 1);
    }
  }

  lemma ChargeHolds(b: Books, k: nat)
    requires BooksInv(b) && k < |b.leases| && b.leases[k].stage.Charging?
    ensures Sized(b, k) && BooksInv(NextCharge(b, k))
  {
    assert LeaseInv(b, k) && PoolInv(b, b.leases[k].pool);
    var lease := b.leases[k];
    var (p, i) := (lease.pool, lease.hi);
    var pool := b.pools[p];
    assert b.pools[p := pool] == b.pools;
    hide BooksInv;
    if i >= COUNTERS {
      MoveHolds(b, k, lease.(stage := Kept), pool);
    } else if lease.amounts[i] == 0 {
      MoveHolds(b, k, lease.(hi := i + 1), pool);
    } else if pool.usage[i] + lease.amounts[i] <= pool.limits[i] {
      MoveHolds(b, k, lease.(hi := i + 1), Counter(pool, i, pool.usage[i] + lease.amounts[i]));
    } else {
      MoveHolds(b, k, lease.(stage := Undoing), pool);
    }
  }

  lemma GiveHolds(b: Books, k: nat)
    requires BooksInv(b) && k < |b.leases| && (b.leases[k].stage.Undoing? || b.leases[k].stage.Releasing?)
    ensures Sized(b, k) && BooksInv(NextGive(b, k))
  {
    assert LeaseInv(b, k) && PoolInv(b, b.leases[k].pool);
    var lease := b.leases[k];
    var (p, i) := (lease.pool, lease.lo);
    var pool := b.pools[p];
    assert b.pools[p := pool] == b.pools;
    if i >= lease.hi || i >= COUNTERS {
      hide BooksInv;
      MoveHolds(b, k, lease.(stage := Gone), pool);
    } else {
      HeldAt(b.leases, k, lease, p, i, |b.leases|);
      hide BooksInv, Held;
      MoveHolds(b, k, lease.(lo := i + 1), Counter(pool, i, pool.usage[i] - lease.amounts[i]));
    }
  }

  lemma ReleaseHolds(b: Books, step: Step)
    requires BooksInv(b) && Enabled(b, step) && step.Release?
    ensures BooksInv(Next(b, step))
  {
    var lease := b.leases[step.k];
    assert LeaseInv(b, step.k) && PoolInv(b, lease.pool);
    assert b.pools[lease.pool := b.pools[lease.pool]] == b.pools;
    hide BooksInv;
    MoveHolds(b, step.k, lease.(stage := Releasing), b.pools[lease.pool]);
  }

  lemma AddPoolHolds(b: Books, step: Step)
    requires BooksInv(b) && Enabled(b, step) && step.AddPool?
    ensures BooksInv(Next(b, step))
  {
    var pool := Pool(step.limits, [0, 0, 0, 0, 0, 0, 0], Some(step.k), Some(step.node));
    var now := b.(pools := b.pools + [pool]);
    forall k | 0 <= k < |now.leases| ensures LeaseInv(now, k) {
      assert LeaseInv(b, k);
      forall i | 0 <= i < COUNTERS
        ensures Handed(now.pools, k, i, |now.pools|) == Handed(b.pools, k, i, |b.pools|) + Part(pool, k, i)
        ensures Declared(now.pools, k, i, |now.pools|)
                == Declared(b.pools, k, i, |b.pools|) + if k == step.node then step.limits[i] else 0
      {
        HandedSame(b.pools, now.pools, k, i, |b.pools|);
      }
    }
    forall p | 0 <= p < |now.pools| ensures PoolInv(now, p) {
      if p < |b.pools| {
        assert PoolInv(b, p);
      } else {
        NobodyCharged(b, p);
        assert LeaseInv(b, step.k);
      }
    }
  }

  lemma NobodyCharged(b: Books, p: nat)
    requires BooksInv(b) && p >= |b.pools|
    ensures forall i :: 0 <= i < COUNTERS ==> Held(b.leases, p, i, |b.leases|) == 0
  {
    forall k | 0 <= k < |b.leases| ensures b.leases[k].pool != p { assert LeaseInv(b, k); }
    forall i | 0 <= i < COUNTERS ensures Held(b.leases, p, i, |b.leases|) == 0 { HeldNone(b.leases, p, i, |b.leases|); }
  }

  lemma NextHolds(b: Books, step: Step)
    requires BooksInv(b) && Enabled(b, step)
    ensures BooksInv(Next(b, step))
  {
    hide BooksInv;
    match step {
      case Request(_, _, _, _) => RequestHolds(b, step);
      case Charge(k) => ChargeHolds(b, k);
      case Undo(k) => GiveHolds(b, k);
      case Release(_) => ReleaseHolds(b, step);
      case Return(k) => GiveHolds(b, k);
      case AddPool(_, _, _) => AddPoolHolds(b, step);
    }
  }

  // --- Runs ---

  predicate StepOf(b: Books, step: Step, after: Books) {
    Enabled(b, step) && (BooksInv(b) ==> after == Next(b, step))
  }

  predicate RunOf(states: seq<Books>, steps: seq<Step>) {
    && |states| == |steps| + 1
    && forall i :: 0 <= i < |steps| ==> StepOf(states[i], steps[i], states[i + 1])
  }

  /** A scope's root grant: one pool with the whole allowance. */
  function Root(limits: seq<nat>): Books { Books([Pool(limits, [0, 0, 0, 0, 0, 0, 0], None, None)], []) }

  lemma {:induction false} RunHolds(limits: seq<nat>, states: seq<Books>, steps: seq<Step>, i: nat)
    requires |limits| == COUNTERS && RunOf(states, steps) && states[0] == Root(limits) && i < |states|
    ensures BooksInv(states[i])
    decreases i
  {
    hide Next, Enabled;
    if i > 0 {
      RunHolds(limits, states, steps, i - 1);
      assert StepOf(states[i - 1], steps[i - 1], states[i]);
      NextHolds(states[i - 1], steps[i - 1]);
    }
  }

  /** In every interleaving each counter equals the leases and partial charges alive on
      it, and never exceeds its limit. */
  lemma CountersAreExact(limits: seq<nat>, states: seq<Books>, steps: seq<Step>, n: nat, p: nat, i: nat)
    requires |limits| == COUNTERS && RunOf(states, steps) && states[0] == Root(limits) && n < |states|
    requires p < |states[n].pools| && i < COUNTERS
    ensures var b := states[n];
            && |b.pools[p].usage| == COUNTERS == |b.pools[p].limits|
            && b.pools[p].usage[i] == Held(b.leases, p, i, |b.leases|) <= b.pools[p].limits[i]
  {
    RunHolds(limits, states, steps, n);
    assert PoolInv(states[n], p);
  }

  // --- The whole subtree ---

  /** What is charged directly to pool `p` or to any pool below it, in one counter: the
      own parts of the leases on it, and everything under the pools they back. */
  function Direct(b: Books, p: nat, i: nat): nat
    decreases |b.pools| - p, 2, 0
  {
    DirectOf(b, p, i, |b.leases|)
  }

  function DirectOf(b: Books, p: nat, i: nat, n: nat): nat
    requires n <= |b.leases|
    decreases |b.pools| - p, 1, n
  {
    if n == 0 then 0
    else
      var lease := b.leases[n - 1];
      DirectOf(b, p, i, n - 1)
      + if lease.pool == p && lease.Active(i) && i < |lease.own|
        then lease.own[i] + DirectBelow(b, p, i, n - 1, |b.pools|) else 0
  }

  function DirectBelow(b: Books, p: nat, i: nat, k: nat, n: nat): nat
    requires n <= |b.pools|
    decreases |b.pools| - p, 0, n
  {
    if n == 0 then 0
    else
      DirectBelow(b, p, i, k, n - 1)
      + if b.pools[n - 1].backing == Some(k) && p < n - 1 then Direct(b, n - 1, i) else 0
  }

  /** Direct charges over a subtree never exceed the limit at its root, counter by counter. */
  lemma {:induction false} SubtreeWithinLimit(b: Books, p: nat, i: nat)
    requires BooksInv(b) && p < |b.pools| && i < COUNTERS
    ensures PoolInv(b, p) && Direct(b, p, i) <= b.pools[p].usage[i] <= b.pools[p].limits[i]
    decreases |b.pools| - p, 2, 0
  {
    assert PoolInv(b, p);
    DirectHeld(b, p, i, |b.leases|);
  }

  lemma {:induction false} DirectHeld(b: Books, p: nat, i: nat, n: nat)
    requires BooksInv(b) && p < |b.pools| && i < COUNTERS && n <= |b.leases|
    ensures DirectOf(b, p, i, n) <= Held(b.leases, p, i, n)
    decreases |b.pools| - p, 1, n
  {
    if n > 0 {
      DirectHeld(b, p, i, n - 1);
      assert LeaseInv(b, n - 1);
      DirectHanded(b, p, i, n - 1, |b.pools|);
    }
  }

  lemma {:induction false} DirectHanded(b: Books, p: nat, i: nat, k: nat, n: nat)
    requires BooksInv(b) && p < |b.pools| && i < COUNTERS && n <= |b.pools|
    ensures DirectBelow(b, p, i, k, n) <= Handed(b.pools, k, i, n)
    decreases |b.pools| - p, 0, n
  {
    if n > 0 {
      DirectHanded(b, p, i, k, n - 1);
      assert PoolInv(b, n - 1);
      if p < n - 1 { SubtreeWithinLimit(b, n - 1, i); }
    }
  }

  /** Nothing charged is left out of the subtree sums: a pool in use hangs from a lease
      that accounts for all its counters. */
  lemma PoolInUseIsBacked(b: Books, p: nat, k: nat)
    requires BooksInv(b) && p < |b.pools| && k < |b.leases| && b.leases[k].pool == p && !b.leases[k].stage.Gone?
    requires b.pools[p].backing.Some?
    ensures var back := b.pools[p].backing.value;
            && back < |b.leases| && b.leases[back].pool < p
            && forall i :: 0 <= i < COUNTERS ==> b.leases[back].Active(i)
  {
    assert PoolInv(b, p) && LeaseInv(b, b.pools[p].backing.value);
  }

  // --- Live descendants ---

  /** Lease `k` is charged to pool `p` or to a pool below it. */
  predicate Below(b: Books, k: nat, p: nat)
    requires k < |b.leases|
    decreases b.leases[k].pool
  {
    var q := b.leases[k].pool;
    || q == p
    || (p < q < |b.pools| && b.pools[q].backing.Some?
        && var j := b.pools[q].backing.value;
           j < |b.leases| && b.leases[j].pool < q && Below(b, j, p))
  }

  predicate LiveGrant(b: Books, k: nat) { k < |b.leases| && b.leases[k].grant.Some? && b.leases[k].stage.Kept? }

  /** The grants delegated at any depth out of pool `p`, by their reservations. */
  function Descendants(b: Books, p: nat): set<nat> {
    set k | 0 <= k < |b.leases| && LiveGrant(b, k) && Below(b, k, p)
  }

  /** The same grants gathered the way their charges are summed. */
  function Gathered(b: Books, p: nat): set<nat>
    decreases |b.pools| - p, 2, 0
  {
    GatheredOf(b, p, |b.leases|)
  }

  function GatheredOf(b: Books, p: nat, n: nat): set<nat>
    requires n <= |b.leases|
    decreases |b.pools| - p, 1, n
  {
    if n == 0 then {}
    else
      GatheredOf(b, p, n - 1)
      + if b.leases[n - 1].pool == p && b.leases[n - 1].Active(GRANTS)
        then (if LiveGrant(b, n - 1) then {n - 1} else {}) + GatheredBelow(b, p, n - 1, |b.pools|) else {}
  }

  function GatheredBelow(b: Books, p: nat, k: nat, n: nat): set<nat>
    requires n <= |b.pools|
    decreases |b.pools| - p, 0, n
  {
    if n == 0 then {}
    else
      GatheredBelow(b, p, k, n - 1)
      + if b.pools[n - 1].backing == Some(k) && p < n - 1 then Gathered(b, n - 1) else {}
  }

  lemma UnionSize<T>(a: set<T>, c: set<T>)
    ensures |a + c| <= |a| + |c|
  {
    assert a + c == a + (c - a);
    assert |a + (c - a)| == |a| + |c - a|;
    assert c == (c - a) + (c * a);
  }

  lemma {:induction false} GatheredFits(b: Books, p: nat)
    requires BooksInv(b) && p < |b.pools|
    ensures |Gathered(b, p)| <= Direct(b, p, GRANTS)
    decreases |b.pools| - p, 2, 0
  {
    GatheredOfFits(b, p, |b.leases|);
  }

  lemma {:induction false} GatheredOfFits(b: Books, p: nat, n: nat)
    requires BooksInv(b) && p < |b.pools| && n <= |b.leases|
    ensures |GatheredOf(b, p, n)| <= DirectOf(b, p, GRANTS, n)
    decreases |b.pools| - p, 1, n
  {
    if n > 0 {
      GatheredOfFits(b, p, n - 1);
      GatheredBelowFits(b, p, n - 1, |b.pools|);
      assert LeaseInv(b, n - 1);
      var one := if LiveGrant(b, n - 1) then {n - 1} else {};
      var below := GatheredBelow(b, p, n - 1, |b.pools|);
      UnionSize(one, below);
      UnionSize(GatheredOf(b, p, n - 1), one + below);
    }
  }

  lemma {:induction false} GatheredBelowFits(b: Books, p: nat, k: nat, n: nat)
    requires BooksInv(b) && p < |b.pools| && n <= |b.pools|
    ensures |GatheredBelow(b, p, k, n)| <= DirectBelow(b, p, GRANTS, k, n)
    decreases |b.pools| - p, 0, n
  {
    if n > 0 {
      GatheredBelowFits(b, p, k, n - 1);
      if p < n - 1 {
        GatheredFits(b, n - 1);
        UnionSize(GatheredBelow(b, p, k, n - 1), Gathered(b, n - 1));
      }
    }
  }

  lemma {:induction false} LeaseGathered(b: Books, l: nat, n: nat)
    requires l < n <= |b.leases| && b.leases[l].Active(GRANTS) && b.leases[l].pool < |b.pools|
    ensures GatheredBelow(b, b.leases[l].pool, l, |b.pools|) <= GatheredOf(b, b.leases[l].pool, n)
    ensures LiveGrant(b, l) ==> l in GatheredOf(b, b.leases[l].pool, n)
    decreases n
  {
    if l < n - 1 { LeaseGathered(b, l, n - 1); }
  }

  lemma {:induction false} PoolGathered(b: Books, p: nat, k: nat, q: nat, n: nat)
    requires p < q < n <= |b.pools| && b.pools[q].backing == Some(k)
    ensures Gathered(b, q) <= GatheredBelow(b, p, k, n)
    decreases n
  {
    if q < n - 1 { PoolGathered(b, p, k, q, n - 1); }
  }

  /** What a lease gathers is gathered at every pool above it. */
  lemma {:induction false} Climb(b: Books, k: nat, l: nat, p: nat)
    requires BooksInv(b) && p < |b.pools| && l < |b.leases| && b.leases[l].Active(GRANTS) && Below(b, l, p)
    requires (k == l && LiveGrant(b, l)) || k in GatheredBelow(b, b.leases[l].pool, l, |b.pools|)
    ensures k in Gathered(b, p)
    decreases b.leases[l].pool
  {
    assert LeaseInv(b, l);
    var q := b.leases[l].pool;
    LeaseGathered(b, l, |b.leases|);
    if q != p {
      var j := b.pools[q].backing.value;
      PoolInUseIsBacked(b, q, l);
      PoolGathered(b, b.leases[j].pool, j, q, |b.pools|);
      Climb(b, k, j, p);
    }
  }

  /** The live descendants reserved out of a pool never exceed its grants counter. */
  lemma DescendantsWithinLimit(b: Books, p: nat)
    requires BooksInv(b) && p < |b.pools|
    ensures PoolInv(b, p) && |Descendants(b, p)| <= Direct(b, p, GRANTS) <= b.pools[p].limits[GRANTS]
  {
    hide Below, Gathered, Direct, BooksInv;
    forall k | k in Descendants(b, p) ensures k in Gathered(b, p) {
      LiveIsActive(b, k);
      Climb(b, k, k, p);
    }
    SubsetSize(Descendants(b, p), Gathered(b, p));
    GatheredFits(b, p);
    SubtreeWithinLimit(b, p, GRANTS);
  }

  lemma LiveIsActive(b: Books, k: nat)
    requires BooksInv(b) && LiveGrant(b, k)
    ensures b.leases[k].Active(GRANTS)
  {
    assert LeaseInv(b, k);
  }

  lemma SubsetSize<T>(a: set<T>, c: set<T>)
    requires a <= c
    ensures |a| <= |c|
  {
    assert c == a + (c - a);
  }

  // --- A grant's pools together ---

  /** Direct charges under all of the first `n` pools of the grant of lease `g`. */
  function NodeDirect(b: Books, g: nat, i: nat, n: nat): nat
    requires n <= |b.pools|
  {
    if n == 0 then 0
    else NodeDirect(b, g, i, n - 1) + if b.pools[n - 1].node == Some(g) then Direct(b, n - 1, i) else 0
  }

  /** The live grants delegated at any depth out of any of the grant's first `n` pools. */
  function NodeDescendants(b: Books, g: nat, n: nat): set<nat>
    requires n <= |b.pools|
  {
    if n == 0 then {}
    else NodeDescendants(b, g, n - 1) + if b.pools[n - 1].node == Some(g) then Descendants(b, n - 1) else {}
  }

  lemma {:induction false} NodeFits(b: Books, g: nat, i: nat, n: nat)
    requires BooksInv(b) && i < COUNTERS && n <= |b.pools|
    ensures NodeDirect(b, g, i, n) <= Declared(b.pools, g, i, n)
    ensures |NodeDescendants(b, g, n)| <= NodeDirect(b, g, GRANTS, n)
    decreases n
  {
    if n > 0 {
      NodeFits(b, g, i, n - 1);
      SubtreeWithinLimit(b, n - 1, i);
      DescendantsWithinLimit(b, n - 1);
      UnionSize(NodeDescendants(b, g, n - 1), Descendants(b, n - 1));
    }
  }

  /** In every interleaving what is charged directly under a grant, over its generic and
      event pools together, is within the limits it declares, and so are its live descendants. */
  lemma GrantWithinDeclared(limits: seq<nat>, states: seq<Books>, steps: seq<Step>, n: nat, g: nat, i: nat)
    requires |limits| == COUNTERS && RunOf(states, steps) && states[0] == Root(limits) && n < |states|
    requires g < |states[n].leases| && states[n].leases[g].grant.Some? && i < COUNTERS
    ensures var b := states[n];
            && |b.leases[g].grant.value| == COUNTERS
            && NodeDirect(b, g, i, |b.pools|) <= b.leases[g].grant.value[i]
            && |NodeDescendants(b, g, |b.pools|)| <= b.leases[g].grant.value[GRANTS]
  {
    RunHolds(limits, states, steps, n);
    var b := states[n];
    assert LeaseInv(b, g);
    NodeFits(b, g, i, |b.pools|);
    NodeFits(b, g, GRANTS, |b.pools|);
  }
}
