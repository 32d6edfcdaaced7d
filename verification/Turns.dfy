/** The cyclic order of the ready ring during a pass, as ranks in its starting order. */
module Turns {
  import opened Wire
  import opened ReadyRing

  function Pick(start: seq<nat>, ranks: seq<nat>): (queue: seq<nat>)
    requires forall k :: 0 <= k < |ranks| ==> ranks[k] < |start|
    ensures |queue| == |ranks|
    ensures forall k :: 0 <= k < |ranks| ==> queue[k] == start[ranks[k]]
  {
    seq(|ranks|, k requires 0 <= k < |ranks| => start[ranks[k]])
  }

  predicate Increasing(ranks: seq<nat>) {
    forall i, j :: 0 <= i < j < |ranks| ==> ranks[i] < ranks[j]
  }

  /** The ring holds first the links not yet visited this round, then those put back:
      each part in starting order, the visited ones all of smaller rank. */
  predicate InOrder(start: seq<nat>, queue: seq<nat>, ahead: seq<nat>, behind: seq<nat>, cut: nat) {
    && Distinct(start)
    && Increasing(ahead) && Increasing(behind)
    && (forall k :: 0 <= k < |ahead| ==> cut <= ahead[k] < |start|)
    && (forall k :: 0 <= k < |behind| ==> behind[k] < cut && behind[k] < |start|)
    && queue == Pick(start, ahead) + Pick(start, behind)
  }

  function Ranks(from: nat, to: nat): (ranks: seq<nat>)
    requires from <= to
    ensures |ranks| == to - from
    ensures forall k :: 0 <= k < |ranks| ==> ranks[k] == from + k
  {
    seq(to - from, k requires 0 <= k => from + k)
  }

  lemma StartsInOrder(start: seq<nat>)
    requires Distinct(start)
    ensures InOrder(start, start, Ranks(0, |start|), [], 0)
  {
  }

  lemma PopKeepsOrder(start: seq<nat>, queue: seq<nat>, ahead: seq<nat>, behind: seq<nat>, cut: nat)
    requires InOrder(start, queue, ahead, behind, cut) && ahead != []
    ensures queue != [] && queue[0] == start[ahead[0]]
    ensures InOrder(start, queue[1..], ahead[1..], behind, ahead[0] + 1)
    ensures start[ahead[0]] !in queue[1..]
    ensures InOrder(start, queue[1..] + [queue[0]], ahead[1..], behind + [ahead[0]], ahead[0] + 1)
  {
    var (picked, put) := (Pick(start, ahead[1..]), Pick(start, behind));
    assert queue[1..] == picked + put;
    assert Pick(start, behind + [ahead[0]]) == put + [queue[0]];
    assert queue[1..] + [queue[0]] == picked + (put + [queue[0]]);
  }

  lemma RoundKeepsOrder(start: seq<nat>, queue: seq<nat>, behind: seq<nat>, cut: nat)
    requires InOrder(start, queue, [], behind, cut)
    ensures InOrder(start, queue, behind, [], 0)
  {
    assert Pick(start, []) == [];
    assert queue == Pick(start, behind);
    assert Pick(start, behind) + Pick(start, []) == Pick(start, behind);
  }

  lemma PositionUnique(queue: seq<nat>, index: nat, k: nat)
    requires Distinct(queue) && k < |queue| && queue[k] == index
    ensures Position(queue, index) == k
  {
  }

  lemma {:induction false} Spread(ranks: seq<nat>, i: nat, j: nat)
    requires Increasing(ranks) && i <= j < |ranks|
    ensures j - i <= ranks[j] - ranks[i]
    decreases j - i
  {
    if i < j { Spread(ranks, i + 1, j); }
  }

  lemma OrderIsDistinct(start: seq<nat>, queue: seq<nat>, ahead: seq<nat>, behind: seq<nat>, cut: nat)
    requires InOrder(start, queue, ahead, behind, cut)
    ensures Distinct(queue)
  {
  }

  lemma RankAt(start: seq<nat>, queue: seq<nat>, ahead: seq<nat>, behind: seq<nat>, cut: nat, rank: nat)
    returns (at: nat)
    requires InOrder(start, queue, ahead, behind, cut) && (rank in ahead || rank in behind)
    ensures at < |queue| && rank < |start| && queue[at] == start[rank]
    ensures at < |ahead| ==> ahead[at] == rank
    ensures at >= |ahead| ==> behind[at - |ahead|] == rank
  {
    if rank in ahead {
      at :| at < |ahead| && ahead[at] == rank;
    } else {
      var b :| 0 <= b < |behind| && behind[b] == rank;
      at := |ahead| + b;
    }
  }

  /** Turning the ring to the first denied link leaves every later one at most as far
      behind it as it started. */
  lemma TurnedPosition(start: seq<nat>, queue: seq<nat>, ahead: seq<nat>, behind: seq<nat>, cut: nat, first: nat,
                       rank: nat)
    requires InOrder(start, queue, ahead, behind, cut) && first <= rank
    requires (first in ahead || first in behind) && (rank in ahead || rank in behind)
    ensures first <= rank < |start|
    ensures start[rank] in Rotated(queue, start[first])
    ensures Position(Rotated(queue, start[first]), start[rank]) <= rank - first
  {
    OrderIsDistinct(start, queue, ahead, behind, cut);
    var i := RankAt(start, queue, ahead, behind, cut, first);
    var j := RankAt(start, queue, ahead, behind, cut, rank);
    RanksApart(start, queue, ahead, behind, cut, i, j);
    hide InOrder, Rotated, Position;
    RotatedPosition(queue, i, j);
  }

  function Ahead(i: nat, j: nat, length: nat): int { if i <= j then j - i else length - i + j }

  lemma RotatedPosition(queue: seq<nat>, i: nat, j: nat)
    requires Distinct(queue) && i < |queue| && j < |queue|
    ensures queue[j] in Rotated(queue, queue[i]) && Position(Rotated(queue, queue[i]), queue[j]) == Ahead(i, j, |queue|)
  {
    hide Position;
    PositionUnique(queue, queue[i], i);
    var turned := Rotated(queue, queue[i]);
    RotationIsDistinct(queue, i);
    assert turned[Ahead(i, j, |queue|)] == queue[j];
    PositionUnique(turned, queue[j], Ahead(i, j, |queue|));
  }

  lemma RanksApart(start: seq<nat>, queue: seq<nat>, ahead: seq<nat>, behind: seq<nat>, cut: nat, i: nat, j: nat)
    requires InOrder(start, queue, ahead, behind, cut) && i < |queue| && j < |queue|
    requires RankOf(ahead, behind, i) <= RankOf(ahead, behind, j)
    ensures Ahead(i, j, |queue|) <= RankOf(ahead, behind, j) - RankOf(ahead, behind, i)
  {
    if i <= j {
      if j < |ahead| {
        Spread(ahead, i, j);
      } else {
        assert i >= |ahead|;
        Spread(behind, i - |ahead|, j - |ahead|);
      }
    } else if j < |ahead| <= i {
      Spread(behind, i - |ahead|, |behind| - 1);
      Spread(ahead, 0, j);
    }
  }

  function RankOf(ahead: seq<nat>, behind: seq<nat>, i: nat): nat
    requires i < |ahead| + |behind|
  {
    if i < |ahead| then ahead[i] else behind[i - |ahead|]
  }

  lemma RotationIsDistinct(queue: seq<nat>, k: nat)
    requires Distinct(queue) && k <= |queue|
    ensures Distinct(queue[k..] + queue[..k])
  {
  }

  /** A link not reached in an unfinished first round has only moved up. */
  lemma UnreachedPosition(start: seq<nat>, queue: seq<nat>, behind: seq<nat>, cut: nat, rank: nat)
    requires cut <= rank < |start| && InOrder(start, queue, Ranks(cut, |start|), behind, cut)
    ensures start[rank] in queue && Position(queue, start[rank]) == rank - cut
  {
    OrderIsDistinct(start, queue, Ranks(cut, |start|), behind, cut);
    assert queue[rank - cut] == start[rank];
    PositionUnique(queue, start[rank], rank - cut);
  }

  // --- Waiting over many passes ---

  /** Links only joined at the back. */
  predicate Joined(was: seq<nat>, now: seq<nat>) { was <= now }

  lemma JoinedOn(a: seq<nat>, b: seq<nat>, c: seq<nat>)
    requires Joined(a, b) && Joined(b, c)
    ensures Joined(a, c)
  {
  }

  lemma JoinedHolds(was: seq<nat>, now: seq<nat>)
    requires Joined(was, now)
    ensures forall x :: x in was ==> x in now
  {
    assert was == now[..|was|];
  }

  lemma JoinedPush(was: seq<nat>, now: seq<nat>, index: nat)
    requires Joined(was, now)
    ensures Joined(was, Enqueued(now, index))
  {
  }

  /** One pass: the ring before and after it, and the links that got a turn: a visit
      not denied for lack of budget or queue space. */
  datatype Pass = Pass(before: seq<nat>, after: seq<nat>, turns: set<nat>)

  predicate Fair(pass: Pass) {
    forall x :: x in pass.before && x !in pass.turns ==>
      x in pass.after && Position(pass.after, x) < Position(pass.before, x)
  }

  /** Between passes links only join at the back. */
  predicate Chained(passes: seq<Pass>) {
    forall i :: 0 <= i < |passes| - 1 ==> Joined(passes[i].after, passes[i + 1].before)
  }

  lemma {:induction false} PrefixPosition(queue: seq<nat>, longer: seq<nat>, index: nat)
    requires queue <= longer && index in queue
    ensures index in longer && Position(longer, index) == Position(queue, index)
  {
    if queue[0] != index {
      assert longer[0] == queue[0] && queue[1..] <= longer[1..];
      PrefixPosition(queue[1..], longer[1..], index);
    }
  }

  /** A link in the ring gets a turn within as many passes as the ring is long. */
  lemma {:induction false} BoundedWait(passes: seq<Pass>, index: nat)
    requires |passes| > 0 && index in passes[0].before
    requires (forall i :: 0 <= i < |passes| ==> Fair(passes[i])) && Chained(passes)
    requires Position(passes[0].before, index) < |passes|
    ensures exists i :: 0 <= i <= Position(passes[0].before, index) && index in passes[i].turns
    decreases |passes|
  {
    if index !in passes[0].turns {
      var (was, next) := (Position(passes[0].before, index), passes[1..]);
      assert passes[1] == next[0];
      PrefixPosition(passes[0].after, passes[1].before, index);
      BoundedWait(next, index);
      var i :| 0 <= i <= Position(next[0].before, index) && index in next[i].turns;
      assert passes[i + 1] == next[i] && i + 1 <= was;
    }
  }

  // --- One pass over the ring ---

  /** A pass under way: the ranks still ahead and those put back this round, the links
      that got a turn, and the rank of the first one denied. */
  datatype Tour = Tour(
    start: seq<nat>, ahead: seq<nat>, behind: seq<nat>, cut: nat, first: bool, served: set<nat>, denied: Option<nat>)

  predicate Queued(t: Tour, rank: nat) { rank in t.ahead || rank in t.behind }

  /** Only links denied this pass, or not reached in its first round, lack a turn, and
      all of those are still in the ring. */
  predicate TourInv(t: Tour, queue: seq<nat>) {
    && InOrder(t.start, queue, t.ahead, t.behind, t.cut)
    && (t.first ==> t.cut <= |t.start| && t.ahead == Ranks(t.cut, |t.start|))
    && (forall r :: 0 <= r < |t.start| && t.start[r] !in t.served ==> Queued(t, r))
    && (forall r :: 0 <= r < |t.start| && t.start[r] !in t.served && (t.first ==> r < t.cut) ==>
          t.denied.Some? && t.denied.value <= r)
    && (t.denied.Some? ==>
          && t.denied.value < |t.start| && Queued(t, t.denied.value)
          && (t.first ==> t.denied.value < t.cut))
  }

  /** The pass did not open with a denial. */
  predicate Opened(t: Tour) {
    t.denied == Some(0) ==> forall r :: 0 <= r < |t.start| ==> t.start[r] in t.served
  }

  /** The links a first round has passed, or all of them, were reached. */
  predicate Reaches(t: Tour, reached: set<nat>) {
    forall r :: 0 <= r < |t.start| && (t.first ==> r < t.cut) ==> t.start[r] in reached
  }

  function StartTour(queue: seq<nat>): Tour {
    Tour(queue, Ranks(0, |queue|), [], 0, true, {}, None)
  }

  function Visited(t: Tour, put: bool, blocked: bool): Tour
    requires t.ahead != [] && t.ahead[0] < |t.start|
  {
    var rank := t.ahead[0];
    t.(ahead := t.ahead[1..], behind := if put then t.behind + [rank] else t.behind, cut := rank + 1,
       served := if blocked then t.served else t.served + {t.start[rank]},
       denied := if blocked && t.denied.None? then Some(rank) else t.denied)
  }

  function NextRound(t: Tour): Tour { t.(ahead := t.behind, behind := [], cut := 0, first := false) }

  lemma StartTourHolds(queue: seq<nat>)
    requires Distinct(queue)
    ensures TourInv(StartTour(queue), queue) && Opened(StartTour(queue)) && Reaches(StartTour(queue), {})
  {
    StartsInOrder(queue);
    forall r | 0 <= r < |queue| ensures r in Ranks(0, |queue|) {
      assert Ranks(0, |queue|)[r] == r;
    }
  }

  lemma VisitedHolds(t: Tour, queue: seq<nat>, put: bool, blocked: bool)
    requires TourInv(t, queue) && t.ahead != []
    requires blocked || t.denied == Some(t.ahead[0]) ==> put
    ensures queue != [] && queue[0] == t.start[t.ahead[0]] && queue[0] !in queue[1..]
    ensures TourInv(Visited(t, put, blocked), if put then queue[1..] + [queue[0]] else queue[1..])
  {
    hide InOrder, Queued;
    PopKeepsOrder(t.start, queue, t.ahead, t.behind, t.cut);
    RanksInRange(t, queue);
    VisitedQueued(t, put, blocked);
    if t.first {
      assert t.ahead[1..] == Ranks(t.ahead[0] + 1, |t.start|);
    }
  }

  lemma VisitedQueued(t: Tour, put: bool, blocked: bool)
    requires t.ahead != [] && t.ahead[0] < |t.start|
    ensures Queued(t, t.ahead[0])
    ensures forall r: nat :: Queued(t, r) && (r != t.ahead[0] || put) ==> Queued(Visited(t, put, blocked), r)
  {
    var next := Visited(t, put, blocked);
    forall r: nat | Queued(t, r) && (r != t.ahead[0] || put) ensures Queued(next, r) {
      if r == t.ahead[0] {
        assert next.behind[|t.behind|] == r;
      } else if r in t.ahead {
        assert t.ahead == [t.ahead[0]] + next.ahead;
      }
    }
  }

  lemma RanksInRange(t: Tour, queue: seq<nat>)
    requires InOrder(t.start, queue, t.ahead, t.behind, t.cut) && t.ahead != []
    ensures t.ahead[0] < |t.start|
    ensures forall r: nat :: Queued(t, r) && r != t.ahead[0] ==> r < |t.start| && t.start[r] != t.start[t.ahead[0]]
  {
  }

  lemma VisitedOpens(t: Tour, queue: seq<nat>, put: bool, blocked: bool)
    requires TourInv(t, queue) && t.ahead != []
    requires Opened(t) && !(blocked && t.first && t.cut == 0)
    ensures Opened(Visited(t, put, blocked))
  {
    RanksInRange(t, queue);
    hide InOrder;
    var next := Visited(t, put, blocked);
    if next.denied == Some(0) && t.denied.None? {
      assert !t.first;
      forall r | 0 <= r < |t.start| ensures t.start[r] in next.served {
        assert t.start[r] in t.served;
      }
    }
  }

  lemma TourLength(t: Tour, queue: seq<nat>)
    requires TourInv(t, queue)
    ensures |queue| == |t.ahead| + |t.behind| && (t.denied.Some? ==> t.denied.value < |t.start|)
  {
  }

  lemma HeadRank(t: Tour, queue: seq<nat>)
    requires TourInv(t, queue) && t.ahead != []
    ensures queue != [] && t.ahead[0] < |t.start| && queue[0] == t.start[t.ahead[0]] && queue[0] !in queue[1..]
    ensures t.denied.Some? && t.start[t.denied.value] == queue[0] ==> t.denied.value == t.ahead[0]
  {
    PopKeepsOrder(t.start, queue, t.ahead, t.behind, t.cut);
    hide InOrder;
    StartIsDistinct(t, queue);
  }

  lemma ReachesOn(t: Tour, queue: seq<nat>, after: Tour, blocked: bool, reached: set<nat>)
    requires TourInv(t, queue) && Reaches(t, reached)
    requires t.ahead != [] && t.ahead[0] < |t.start| && exists put :: after == Visited(t, put, blocked)
    ensures Reaches(after, reached + {t.start[t.ahead[0]]})
    ensures after.start == t.start && |after.ahead| == |t.ahead| - 1 && after.first == t.first && after.cut > 0
    ensures after.served == if blocked then t.served else t.served + {t.start[t.ahead[0]]}
  {
  }

  lemma ReachesAll(t: Tour, queue: seq<nat>, reached: set<nat>)
    requires TourInv(t, queue) && t.ahead == [] && Reaches(t, reached)
    ensures Reaches(NextRound(t), reached)
  {
    hide InOrder;
    assert t.first ==> t.cut == |t.start|;
  }

  lemma ReachesStart(t: Tour, reached: set<nat>)
    requires Reaches(t, reached) && !t.first
    ensures forall x :: x in t.start ==> x in reached
  {
  }

  lemma NextRoundHolds(t: Tour, queue: seq<nat>)
    requires TourInv(t, queue) && t.ahead == []
    ensures TourInv(NextRound(t), queue) && (Opened(t) ==> Opened(NextRound(t)))
  {
    hide InOrder;
    RoundKeepsOrder(t.start, queue, t.behind, t.cut);
    assert t.first ==> t.cut == |t.start|;
  }

  function Settled(t: Tour, queue: seq<nat>): seq<nat>
    requires t.denied.Some? ==> t.denied.value < |t.start|
  {
    if t.denied.Some? then Rotated(queue, t.start[t.denied.value]) else queue
  }

  /** A link that got no turn ends the pass strictly nearer the front. */
  lemma TourIsFair(t: Tour, queue: seq<nat>)
    requires TourInv(t, queue) && Opened(t) && (t.first ==> t.cut > 0)
    ensures Fair(Pass(t.start, Settled(t, queue), t.served))
  {
    hide InOrder, Rotated, Position;
    forall x | x in t.start && x !in t.served
      ensures x in Settled(t, queue) && Position(Settled(t, queue), x) < Position(t.start, x)
    {
      var r :| 0 <= r < |t.start| && t.start[r] == x;
      OrderIsDistinct(t.start, queue, t.ahead, t.behind, t.cut);
      StartIsDistinct(t, queue);
      PositionUnique(t.start, x, r);
      if t.denied.Some? && t.denied.value <= r {
        TurnedPosition(t.start, queue, t.ahead, t.behind, t.cut, t.denied.value, r);
      } else {
        UnreachedTurn(t, queue, r);
      }
    }
  }

  lemma StartIsDistinct(t: Tour, queue: seq<nat>)
    requires InOrder(t.start, queue, t.ahead, t.behind, t.cut)
    ensures Distinct(t.start)
  {
  }

  lemma UnreachedTurn(t: Tour, queue: seq<nat>, r: nat)
    requires TourInv(t, queue) && (t.first ==> t.cut > 0) && r < |t.start| && t.start[r] !in t.served
    requires !(t.denied.Some? && t.denied.value <= r)
    ensures t.denied.None? && t.start[r] in queue && Position(queue, t.start[r]) < r
  {
    hide Position;
    UnreachedPosition(t.start, queue, t.behind, t.cut, r);
  }

  lemma FairPrefix(before: seq<nat>, start: seq<nat>, after: seq<nat>, turns: set<nat>)
    requires Joined(before, start) && Fair(Pass(start, after, turns))
    ensures Fair(Pass(before, after, turns))
  {
    forall x | x in before && x !in turns ensures x in after && Position(after, x) < Position(before, x) {
      PrefixPosition(before, start, x);
    }
  }
}
