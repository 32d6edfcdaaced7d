/** Revocation against concurrent admission and delegation, one atomic step at a time. */
module Revocation {
  import opened Wire

  /** The largest number of operations one state word counts beside its flag. */
  const ACTIVE_COUNT: nat := 0x7FFF_FFFF_FFFF_FFFF

  /** How far a node's creation has come: not yet in its parent's child list, listed,
      past its parent's state word, or returned to its caller. */
  datatype Stage = Created | Listed | Passed | Open

  /** `dropped` says the last handle is gone; weak references may outlive it. */
  datatype Node = Node(
    parent: Option<nat>,
    flagged: bool,
    count: nat,
    complete: bool,
    children: seq<nat>,
    holder: Option<nat>,
    maker: nat,
    stage: Stage,
    dropped: bool)
  {
    predicate Reachable() { stage.Passed? || stage.Open? }
  }

  datatype EnterPc = Check(at: nat) | Count | Compare(seen: nat) | Recheck(at: nat) | Live | Leave

  datatype RestrictPc =
    | Permit(at: nat)
    | Make
    | Lock(child: nat)
    | Inside(child: nat, at: nat)
    | LoadList(child: nat)
    | StoreList(child: nat, copy: seq<nat>)
    | Unlock(child: nat, listed: bool)
    | Walk(child: nat, at: nat)

  datatype RevokePc =
    | Flag(seen: seq<nat>, i: nat)
    | Children(seen: seq<nat>, i: nat)
    | Await(seen: seq<nat>, i: nat)
    | Finish(seen: seq<nat>, i: nat)

  /** `late` records that the node or an ancestor was already flagged at the start. */
  datatype Thread =
    | Entering(node: nat, enter: EnterPc, late: bool)
    | Restricting(node: nat, restrict: RestrictPc, late: bool)
    | Revoking(root: nat, revoke: RevokePc)

  datatype System = System(nodes: seq<Node>, threads: map<nat, Thread>)

  /** What a step may choose: a deferred attempt, and which dropped weak references still
      resolve. */
  datatype Choice = Choice(deferred: bool, found: seq<nat>)

  datatype Step =
    | StartEnter(t: nat, node: nat)
    | StartRestrict(t: nat, node: nat)
    | StartRevoke(t: nat, node: nat)
    | Run(t: nat, choice: Choice)
    | Abandon(t: nat)
    | DropNode(node: nat)

  predicate Rooted(nodes: seq<Node>) {
    forall i :: 0 <= i < |nodes| && nodes[i].parent.Some? ==> nodes[i].parent.value < i
  }

  /** `is_revoked` with nothing else running. */
  predicate Revoked(nodes: seq<Node>, n: nat)
    requires Rooted(nodes) && n < |nodes|
    decreases n
  {
    nodes[n].flagged || (nodes[n].parent.Some? && Revoked(nodes, nodes[n].parent.value))
  }

  /** `d` is `m` or one of its descendants. */
  predicate Under(nodes: seq<Node>, m: nat, d: nat)
    requires Rooted(nodes) && d < |nodes|
    decreases d
  {
    d == m || (nodes[d].parent.Some? && Under(nodes, m, nodes[d].parent.value))
  }

  // --- Steps ---

  predicate Usable(s: System, n: nat) {
    n < |s.nodes| && s.nodes[n].stage.Open? && !s.nodes[n].dropped
  }

  /** A weak list read now: every undropped entry resolves, dropped ones may. */
  predicate Resolves(nodes: seq<Node>, list: seq<nat>, found: seq<nat>) {
    && (forall c :: c in found ==> c in list)
    && (forall c :: c in list && c < |nodes| && !nodes[c].dropped ==> c in found)
  }

  predicate Enabled(s: System, step: Step) {
    match step
    case StartEnter(t, node) => t !in s.threads && Usable(s, node)
    case StartRestrict(t, node) => t !in s.threads && Usable(s, node)
    case StartRevoke(t, node) => t !in s.threads && Usable(s, node)
    case Run(t, choice) => t in s.threads && CanRun(s, s.threads[t], choice)
    case Abandon(t) => t in s.threads && s.threads[t].Revoking?
    case DropNode(node) => Usable(s, node) && Unused(s, node)
  }

  predicate CanRun(s: System, thread: Thread, choice: Choice) {
    match thread
    case Entering(_, _, _) => true
    case Restricting(node, pc, _) =>
      (match pc
       case Lock(_) => node < |s.nodes| && s.nodes[node].holder.None?
       case StoreList(_, copy) => Resolves(s.nodes, copy, choice.found)
       case _ => true)
    case Revoking(_, pc) =>
      (match pc
       case Children(seen, i) =>
         i < |seen| && seen[i] < |s.nodes| && Resolves(s.nodes, s.nodes[seen[i]].children, choice.found)
       case Await(seen, i) => i < |seen| && seen[i] < |s.nodes| ==> s.nodes[seen[i]].count == 0
       case _ => true)
  }

  /** Nothing keeps the node: no operation, no undropped child, no call in progress on it. */
  predicate Unused(s: System, n: nat)
    requires n < |s.nodes|
  {
    && s.nodes[n].parent.Some? && s.nodes[n].count == 0
    && (forall c :: 0 <= c < |s.nodes| && s.nodes[c].parent == Some(n) ==> s.nodes[c].dropped)
    && (forall t :: t in s.threads ==> !s.threads[t].Revoking? ==> s.threads[t].node != n)
  }

  function With(s: System, t: nat, thread: Thread): System { s.(threads := s.threads[t := thread]) }
  function Ended(s: System, t: nat): System { s.(threads := s.threads - {t}) }
  function Put(s: System, n: nat, node: Node): System
    requires n < |s.nodes|
  {
    s.(nodes := s.nodes[n := node])
  }

  function Next(s: System, step: Step): System
    requires SystemInv(s) && Enabled(s, step)
  {
    match step
    case StartEnter(t, node) => With(s, t, Entering(node, Check(node), Revoked(s.nodes, node)))
    case StartRestrict(t, node) => With(s, t, Restricting(node, Permit(node), Revoked(s.nodes, node)))
    case StartRevoke(t, node) => With(s, t, Revoking(node, Flag([node], 0)))
    case Run(t, choice) =>
      (match s.threads[t]
       case Entering(_, _, _) => NextEnter(s, t, choice)
       case Restricting(_, _, _) => NextRestrict(s, t, choice)
       case Revoking(_, _) => NextRevoke(s, t, choice))
    case Abandon(t) => Ended(s, t)
    case DropNode(node) => Put(s, node, s.nodes[node].(dropped := true))
  }

  /** One atomic access of `enter_mode` or of an operation's end. */
  function NextEnter(s: System, t: nat, choice: Choice): System
    requires SystemInv(s) && t in s.threads && s.threads[t].Entering?
  {
    var thread := s.threads[t];
    var n := thread.node;
    assert ThreadInv(s.nodes, t, thread);
    match thread.enter
    case Check(at) =>
      if s.nodes[at].flagged then Ended(s, t)
      else if s.nodes[at].parent.Some? then With(s, t, thread.(enter := Check(s.nodes[at].parent.value)))
      else With(s, t, thread.(enter := Count))
    case Count =>
      if s.nodes[n].flagged || s.nodes[n].count >= ACTIVE_COUNT then Ended(s, t)
      else if choice.deferred then With(s, t, thread.(enter := Compare(s.nodes[n].count)))
      else With(Put(s, n, s.nodes[n].(count := s.nodes[n].count + 1)), t, thread.(enter := Recheck(n)))
    case Compare(seen) =>
      if s.nodes[n].flagged || s.nodes[n].count != seen then Ended(s, t)
      else With(Put(s, n, s.nodes[n].(count := s.nodes[n].count + 1)), t, thread.(enter := Recheck(n)))
    case Recheck(at) =>
      if s.nodes[at].flagged then With(s, t, thread.(enter := Leave))
      else if s.nodes[at].parent.Some? then With(s, t, thread.(enter := Recheck(s.nodes[at].parent.value)))
      else With(s, t, thread.(enter := Live))
    case Live => With(s, t, thread.(enter := Leave))
    case Leave =>
      Ended(Put(s, n, s.nodes[n].(count := if s.nodes[n].count > 0 then s.nodes[n].count - 1 else 0)), t)
  }

  /** One atomic access of `restrict`; a refused child is dropped before it was returned. */
  function NextRestrict(s: System, t: nat, choice: Choice): System
    requires SystemInv(s) && t in s.threads && s.threads[t].Restricting?
  {
    var thread := s.threads[t];
    var n := thread.node;
    assert ThreadInv(s.nodes, t, thread);
    match thread.restrict
    case Permit(at) =>
      if s.nodes[at].flagged then Ended(s, t)
      else if s.nodes[at].parent.Some? then With(s, t, thread.(restrict := Permit(s.nodes[at].parent.value)))
      else With(s, t, thread.(restrict := Make))
    case Make =>
      var child := Node(Some(n), false, 0, false, [], None, t, Created, false);
      With(s.(nodes := s.nodes + [child]), t, thread.(restrict := Lock(|s.nodes|)))
    case Lock(child) =>
      With(Put(s, n, s.nodes[n].(holder := Some(t))), t, thread.(restrict := Inside(child, n)))
    case Inside(child, at) =>
      if s.nodes[at].flagged then With(s, t, thread.(restrict := Unlock(child, false)))
      else if s.nodes[at].parent.Some? then With(s, t, thread.(restrict := Inside(child, s.nodes[at].parent.value)))
      else With(s, t, thread.(restrict := LoadList(child)))
    case LoadList(child) => With(s, t, thread.(restrict := StoreList(child, s.nodes[n].children)))
    case StoreList(child, copy) =>
      var listed := Put(s, n, s.nodes[n].(children := choice.found + [child]));
      With(Put(listed, child, listed.nodes[child].(stage := Listed)), t, thread.(restrict := Unlock(child, true)))
    case Unlock(child, listed) =>
      var open := Put(s, n, s.nodes[n].(holder := None));
      if listed then With(open, t, thread.(restrict := Walk(child, n)))
      else Ended(Put(open, child, open.nodes[child].(dropped := true)), t)
    case Walk(child, at) =>
      if s.nodes[at].flagged then Ended(Put(s, child, s.nodes[child].(dropped := true)), t)
      else if s.nodes[at].parent.Some? then
        With(Put(s, child, s.nodes[child].(stage := Passed)), t,
             thread.(restrict := Walk(child, s.nodes[at].parent.value)))
      else Ended(Put(s, child, s.nodes[child].(stage := Open)), t)
  }

  /** One atomic access of `revoke`. */
  function NextRevoke(s: System, t: nat, choice: Choice): System
    requires SystemInv(s) && t in s.threads && s.threads[t].Revoking?
  {
    var thread := s.threads[t];
    assert ThreadInv(s.nodes, t, thread);
    match thread.revoke
    case Flag(seen, i) =>
      if i == |seen| then With(s, t, thread.(revoke := Await(seen, 0)))
      else With(Put(s, seen[i], s.nodes[seen[i]].(flagged := true)), t, thread.(revoke := Children(seen, i)))
    case Children(seen, i) => With(s, t, thread.(revoke := Flag(seen + choice.found, i + 1)))
    case Await(seen, i) =>
      With(s, t, thread.(revoke := if i == |seen| then Finish(seen, 0) else Await(seen, i + 1)))
    case Finish(seen, i) =>
      if i == |seen| then Ended(s, t)
      else With(Put(s, seen[i], s.nodes[seen[i]].(complete := true)), t, thread.(revoke := Finish(seen, i + 1)))
  }

  // --- Invariant ---

  predicate TreeInv(nodes: seq<Node>) {
    && Rooted(nodes)
    && forall i :: 0 <= i < |nodes| ==> NodeInv(nodes, i)
  }

  /** A node hangs under an open one that outlives it, and once listed is in its list. */
  predicate NodeInv(nodes: seq<Node>, i: nat)
    requires Rooted(nodes) && i < |nodes|
  {
    var node := nodes[i];
    && (!node.stage.Open? || node.dropped ==> node.count == 0)
    && (forall c :: c in node.children ==> c < |nodes| && nodes[c].parent == Some(i))
    && (node.parent.Some? ==>
          && nodes[node.parent.value].stage.Open?
          && (nodes[node.parent.value].dropped ==> node.dropped)
          && (!node.stage.Created? && !node.dropped ==> i in nodes[node.parent.value].children))
  }

  predicate Walks(nodes: seq<Node>, from: nat, at: nat) { at < |nodes| && at <= from }

  predicate ThreadInv(nodes: seq<Node>, t: nat, thread: Thread)
  {
    && Rooted(nodes)
    && match thread
       case Entering(node, pc, late) =>
         && node < |nodes| && nodes[node].stage.Open? && !nodes[node].dropped
         && (pc.Check? || pc.Recheck? ==> Walks(nodes, node, pc.at))
         && (late ==> pc.Check? && Revoked(nodes, pc.at))
       case Restricting(node, pc, late) =>
         && node < |nodes| && nodes[node].stage.Open? && !nodes[node].dropped
         && (pc.Permit? || pc.Inside? || pc.Walk? ==> Walks(nodes, node, pc.at))
         && (late ==> pc.Permit? && Revoked(nodes, pc.at))
         && (!pc.Permit? && !pc.Make? ==> MakerInv(nodes, t, node, pc))
       case Revoking(root, pc) => root < |nodes| && RevokeInv(nodes, root, pc)
  }

  /** The calling thread alone decides its unreturned child, and holds the lock between
      reading and writing the list. */
  predicate MakerInv(nodes: seq<Node>, t: nat, node: nat, pc: RestrictPc)
    requires node < |nodes| && !pc.Permit? && !pc.Make?
  {
    && node < pc.child < |nodes| && nodes[pc.child].parent == Some(node)
    && nodes[pc.child].maker == t && !nodes[pc.child].dropped
    && nodes[pc.child].stage == (if pc.Walk? then (if pc.at == node then Listed else Passed)
                                 else if pc.Unlock? && pc.listed then Listed else Created)
    && (pc.Inside? || pc.LoadList? || pc.StoreList? || pc.Unlock? ==> nodes[node].holder == Some(t))
    && (pc.StoreList? ==> pc.copy == nodes[node].children)
  }

  predicate Below(node: Node, listed: seq<nat>) {
    node.Reachable() && !node.dropped && node.parent.Some? && node.parent.value in listed
  }

  /** Collected nodes are flagged; a node under one whose list was read is collected too
      unless it has not passed that node's state word. */
  predicate RevokeInv(nodes: seq<Node>, root: nat, pc: RevokePc)
    requires Rooted(nodes)
  {
    var flagged := if pc.Flag? then pc.i else if pc.Children? then pc.i + 1 else |pc.seen|;
    var loaded := if pc.Flag? || pc.Children? then pc.i else |pc.seen|;
    var idle := if pc.Await? then pc.i else if pc.Finish? then |pc.seen| else 0;
    && |pc.seen| > 0 && pc.seen[0] == root && pc.i <= |pc.seen| && flagged <= |pc.seen|
    && (forall k :: 0 <= k < |pc.seen| ==> pc.seen[k] < |nodes| && Under(nodes, root, pc.seen[k]))
    && (forall k :: 0 <= k < flagged ==> nodes[pc.seen[k]].flagged)
    && (forall c :: 0 <= c < |nodes| && Below(nodes[c], pc.seen[..loaded]) ==> c in pc.seen)
    && (forall k :: 0 <= k < idle ==> nodes[pc.seen[k]].count == 0)
    && (pc.Finish? && pc.i > 0 ==> nodes[root].complete)
  }

  /** The cutoff: below a completed node everything reachable is flagged and idle. */
  predicate Cut(nodes: seq<Node>, m: nat)
    requires Rooted(nodes)
  {
    forall d :: 0 <= d < |nodes| && nodes[d].Reachable() && !nodes[d].dropped && Under(nodes, m, d) ==>
      nodes[d].flagged && nodes[d].count == 0
  }

  predicate Holds(thread: Thread, n: nat) {
    thread.Entering? && thread.node == n && (thread.enter.Recheck? || thread.enter.Live? || thread.enter.Leave?)
  }

  function Holders(threads: map<nat, Thread>, n: nat): set<nat> {
    set t | t in threads && Holds(threads[t], n)
  }

  predicate Counted(s: System) {
    forall n :: 0 <= n < |s.nodes| ==> s.nodes[n].count == |Holders(s.threads, n)|
  }

  predicate AllThreads(s: System) {
    forall t :: t in s.threads ==> ThreadInv(s.nodes, t, s.threads[t])
  }

  predicate AllCut(nodes: seq<Node>)
    requires Rooted(nodes)
  {
    forall m :: 0 <= m < |nodes| && nodes[m].complete ==> nodes[m].flagged && Cut(nodes, m)
  }

  predicate SystemInv(s: System) {
    TreeInv(s.nodes) && AllThreads(s) && Counted(s) && AllCut(s.nodes)
  }

  // --- How a step may change the nodes ---

  /** What any step by thread `a` leaves of one node. */
  predicate Grows(a: nat, was: seq<Node>, now: seq<Node>, i: nat)
    requires Rooted(was) && i < |was| <= |now|
  {
    var (w, v) := (was[i], now[i]);
    && v.parent == w.parent && v.maker == w.maker
    && (w.flagged ==> v.flagged && v.count <= w.count)
    && (w.complete ==> v.complete) && (w.dropped ==> v.dropped)
    && (w.stage.Open? ==> v.stage.Open?) && (w.Reachable() ==> v.Reachable())
    && (v.Reachable() && !w.Reachable() ==> w.parent.Some? && !was[w.parent.value].flagged)
    && (w.maker != a ==> v.stage == w.stage && (!w.stage.Open? ==> v.dropped == w.dropped))
    && (w.holder.Some? && w.holder.value != a ==> v.holder == w.holder && v.children == w.children)
  }

  predicate Evolves(a: nat, was: seq<Node>, now: seq<Node>) {
    && Rooted(was) && Rooted(now) && |was| <= |now|
    && (forall i :: 0 <= i < |was| ==> Grows(a, was, now, i))
    && (forall i :: |was| <= i < |now| ==> now[i].stage.Created?)
  }

  lemma EvolvesOn(a: nat, x: seq<Node>, y: seq<Node>, z: seq<Node>)
    requires Evolves(a, x, y) && Evolves(a, y, z) && |x| == |y|
    ensures Evolves(a, x, z)
  {
    forall i | 0 <= i < |x| ensures Grows(a, x, z, i) {
      assert Grows(a, x, y, i) && Grows(a, y, z, i);
      if x[i].parent.Some? { assert Grows(a, x, y, x[i].parent.value); }
    }
  }

  lemma {:induction false} UnderStays(a: nat, was: seq<Node>, now: seq<Node>, m: nat, d: nat)
    requires Evolves(a, was, now) && d < |was|
    ensures Under(was, m, d) == Under(now, m, d)
    decreases d
  {
    assert Grows(a, was, now, d);
    if was[d].parent.Some? { UnderStays(a, was, now, m, was[d].parent.value); }
  }

  lemma {:induction false} RevokedStays(a: nat, was: seq<Node>, now: seq<Node>, n: nat)
    requires Evolves(a, was, now) && n < |was| && Revoked(was, n)
    ensures Revoked(now, n)
    decreases n
  {
    assert Grows(a, was, now, n);
    if !was[n].flagged { RevokedStays(a, was, now, was[n].parent.value); }
  }

  lemma {:induction false} UnderOn(nodes: seq<Node>, a: nat, b: nat, c: nat)
    requires Rooted(nodes) && b < |nodes| && c < |nodes| && Under(nodes, a, b) && Under(nodes, b, c)
    ensures Under(nodes, a, c)
    decreases c
  {
    if c != b { UnderOn(nodes, a, b, nodes[c].parent.value); }
  }

  /** What a changed node must keep of the one it replaces. */
  predicate Replaces(a: nat, nodes: seq<Node>, n: nat, v: Node)
    requires Rooted(nodes) && n < |nodes|
  {
    && Grows(a, nodes, nodes[n := v], n)
    && (!v.stage.Open? || v.dropped ==> v.count == 0)
    && (forall c :: c in v.children ==> c < |nodes| && nodes[c].parent == Some(n))
    && (forall c :: 0 <= c < |nodes| && nodes[c].parent == Some(n) ==>
          && (v.dropped ==> nodes[c].dropped)
          && (!nodes[c].stage.Created? && !nodes[c].dropped ==> c in v.children))
    && (v.parent.Some? && !v.stage.Created? && !v.dropped ==> n in nodes[v.parent.value].children)
  }

  /** What the tree says of a node's list, seen from the node. */
  lemma ListHolds(nodes: seq<Node>, n: nat)
    requires TreeInv(nodes) && n < |nodes|
    ensures NodeInv(nodes, n)
    ensures forall c :: 0 <= c < |nodes| && nodes[c].parent == Some(n) ==>
              && (nodes[n].dropped ==> nodes[c].dropped)
              && (!nodes[c].stage.Created? && !nodes[c].dropped ==> c in nodes[n].children)
  {
    forall c | 0 <= c < |nodes| && nodes[c].parent == Some(n)
      ensures nodes[n].dropped ==> nodes[c].dropped
      ensures !nodes[c].stage.Created? && !nodes[c].dropped ==> c in nodes[n].children
    {
      assert NodeInv(nodes, c);
    }
  }

  lemma PutHolds(a: nat, nodes: seq<Node>, n: nat, v: Node)
    requires TreeInv(nodes) && n < |nodes| && Replaces(a, nodes, n, v)
    ensures TreeInv(nodes[n := v]) && Evolves(a, nodes, nodes[n := v])
  {
    var now := nodes[n := v];
    forall i | 0 <= i < |nodes| ensures NodeInv(now, i) && Grows(a, nodes, now, i) {
      assert NodeInv(nodes, i);
      assert NodeInv(nodes, n);
    }
  }

  // --- What a step keeps of the other threads and of the cutoffs ---

  lemma RevokeStays(a: nat, was: seq<Node>, now: seq<Node>, root: nat, pc: RevokePc)
    requires Evolves(a, was, now) && root < |was| && RevokeInv(was, root, pc)
    ensures RevokeInv(now, root, pc)
  {
    assert Grows(a, was, now, root);
    var loaded := if pc.Flag? || pc.Children? then pc.i else |pc.seen|;
    forall k | 0 <= k < |pc.seen|
      ensures Under(now, root, pc.seen[k]) && Grows(a, was, now, pc.seen[k])
    {
      UnderStays(a, was, now, root, pc.seen[k]);
    }
    forall c | 0 <= c < |now| && Below(now[c], pc.seen[..loaded]) ensures c in pc.seen {
      assert c < |was|;
      assert Grows(a, was, now, c);
    }
  }

  lemma ThreadStays(a: nat, was: seq<Node>, now: seq<Node>, t: nat, thread: Thread)
    requires Evolves(a, was, now) && ThreadInv(was, t, thread) && t != a
    requires !thread.Revoking? ==> !now[thread.node].dropped
    ensures ThreadInv(now, t, thread)
  {
    hide RevokeInv;
    match thread {
      case Revoking(root, pc) => RevokeStays(a, was, now, root, pc);
      case Entering(node, pc, late) =>
        assert Grows(a, was, now, node);
        if late { RevokedStays(a, was, now, pc.at); }
      case Restricting(node, pc, late) =>
        assert Grows(a, was, now, node);
        if late { RevokedStays(a, was, now, pc.at); }
        if !pc.Permit? && !pc.Make? { assert Grows(a, was, now, pc.child); }
    }
  }

  lemma CutStays(a: nat, was: seq<Node>, now: seq<Node>, m: nat)
    requires TreeInv(was) && Evolves(a, was, now) && TreeInv(now)
    requires m < |was| && was[m].complete && was[m].flagged && Cut(was, m)
    ensures Cut(now, m)
  {
    forall d | 0 <= d < |now| && now[d].Reachable() && !now[d].dropped && Under(now, m, d)
      ensures now[d].flagged && now[d].count == 0
    {
      assert d < |was| && Grows(a, was, now, d) && NodeInv(was, d);
      UnderStays(a, was, now, m, d);
      if was[d].parent.Some? {
        var p := was[d].parent.value;
        assert was[p].stage.Open? && (d != m ==> Under(was, m, p));
      }
    }
  }

  lemma CutsStay(a: nat, was: seq<Node>, now: seq<Node>)
    requires TreeInv(was) && Evolves(a, was, now) && TreeInv(now) && AllCut(was)
    requires forall m :: 0 <= m < |now| && now[m].complete ==> m < |was| && was[m].complete
    ensures AllCut(now)
  {
    hide Cut, TreeInv;
    forall m | 0 <= m < |now| && now[m].complete ensures now[m].flagged && Cut(now, m) {
      assert Grows(a, was, now, m);
      CutStays(a, was, now, m);
    }
  }

  /** A step that completes no revocation: the other threads and the cutoffs stand. */
  lemma OthersStay(s: System, t: nat, now: seq<Node>)
    requires SystemInv(s) && TreeInv(now) && Evolves(t, s.nodes, now)
    requires forall m :: 0 <= m < |now| && now[m].complete ==> m < |s.nodes| && s.nodes[m].complete
    requires forall n :: 0 <= n < |s.nodes| && s.nodes[n].stage.Open? ==> now[n].dropped == s.nodes[n].dropped
    ensures AllCut(now) && forall o :: o in s.threads && o != t ==> ThreadInv(now, o, s.threads[o])
  {
    CutsStay(t, s.nodes, now);
    hide Evolves, TreeInv, AllCut;
    forall o | o in s.threads && o != t ensures ThreadInv(now, o, s.threads[o]) {
      ThreadStays(t, s.nodes, now, o, s.threads[o]);
    }
  }

  lemma SameNodes(a: nat, nodes: seq<Node>)
    requires Rooted(nodes)
    ensures Evolves(a, nodes, nodes)
  {
  }

  // --- Counting ---

  lemma HoldersChange(threads: map<nat, Thread>, t: nat, thread: Thread, n: nat)
    ensures Holders(threads[t := thread], n)
            == if Holds(thread, n) then Holders(threads, n) + {t} else Holders(threads, n) - {t}
    ensures Holders(threads - {t}, n) == Holders(threads, n) - {t}
    ensures t in Holders(threads, n) <==> t in threads && Holds(threads[t], n)
  {
  }

  /** The caller's own holding changes with the counter, and nothing else does. */
  lemma CountedOn(s: System, t: nat, thread: Thread, now: seq<Node>)
    requires Counted(s) && |s.nodes| <= |now|
    requires forall n :: |s.nodes| <= n < |now| ==>
               now[n].count == 0 && Holders(s.threads, n) == {} && !Holds(thread, n)
    requires forall n :: 0 <= n < |s.nodes| ==>
               now[n].count + (if t in Holders(s.threads, n) then 1 else 0)
               == s.nodes[n].count + (if Holds(thread, n) then 1 else 0)
    ensures Counted(System(now, s.threads[t := thread]))
  {
    hide Holders, Holds;
    forall n | 0 <= n < |now| ensures now[n].count == |Holders(s.threads[t := thread], n)| {
      HoldersChange(s.threads, t, thread, n);
    }
  }

  lemma CountedEnd(s: System, t: nat, now: seq<Node>)
    requires Counted(s) && |s.nodes| == |now|
    requires forall n :: 0 <= n < |s.nodes| ==>
               now[n].count + (if t in Holders(s.threads, n) then 1 else 0) == s.nodes[n].count
    ensures Counted(System(now, s.threads - {t}))
  {
    hide Holders, Holds;
    forall n | 0 <= n < |now| ensures now[n].count == |Holders(s.threads - {t}, n)| {
      HoldersChange(s.threads, t, Revoking(0, Flag([0], 0)), n);
    }
  }

  // --- Every step keeps the invariant ---

  /** Puts the pieces together when a thread goes on. */
  lemma GoesOn(s: System, t: nat, thread: Thread, now: seq<Node>)
    requires SystemInv(s) && TreeInv(now) && ThreadInv(now, t, thread) && AllCut(now)
    requires forall o :: o in s.threads && o != t ==> ThreadInv(now, o, s.threads[o])
    requires Counted(System(now, s.threads[t := thread]))
    ensures SystemInv(System(now, s.threads[t := thread]))
  {
    hide TreeInv, ThreadInv, Counted, AllCut;
  }

  lemma Stops(s: System, t: nat, now: seq<Node>)
    requires SystemInv(s) && TreeInv(now) && AllCut(now)
    requires forall o :: o in s.threads && o != t ==> ThreadInv(now, o, s.threads[o])
    requires Counted(System(now, s.threads - {t}))
    ensures SystemInv(System(now, s.threads - {t}))
  {
    hide TreeInv, ThreadInv, Counted, AllCut;
  }

  lemma NotHolding(s: System, t: nat, n: nat)
    requires t in s.threads ==> !Holds(s.threads[t], n)
    ensures t !in Holders(s.threads, n)
  {
  }

  /** A thread that reads and goes on, without holding before or after. */
  lemma ReadsOn(s: System, t: nat, thread: Thread)
    requires SystemInv(s) && ThreadInv(s.nodes, t, thread)
    requires forall n: nat :: (t in s.threads && Holds(s.threads[t], n)) == Holds(thread, n)
    ensures SystemInv(With(s, t, thread))
  {
    hide TreeInv, ThreadInv, AllCut, Holds;
    forall n: nat ensures (t in Holders(s.threads, n)) == Holds(thread, n) { HoldersChange(s.threads, t, thread, n); }
    CountedOn(s, t, thread, s.nodes);
    GoesOn(s, t, thread, s.nodes);
  }

  lemma ReadsEnd(s: System, t: nat)
    requires SystemInv(s) && (t in s.threads ==> forall n: nat :: !Holds(s.threads[t], n))
    ensures SystemInv(Ended(s, t))
  {
    hide TreeInv, ThreadInv, AllCut, Holds;
    forall n: nat ensures t !in Holders(s.threads, n) { NotHolding(s, t, n); }
    CountedEnd(s, t, s.nodes);
    Stops(s, t, s.nodes);
  }

  lemma CountMoves(t: nat, nodes: seq<Node>, n: nat, count: nat)
    requires TreeInv(nodes) && n < |nodes| && nodes[n].stage.Open? && !nodes[n].dropped
    requires nodes[n].flagged ==> count <= nodes[n].count
    ensures var now := nodes[n := nodes[n].(count := count)]; TreeInv(now) && Evolves(t, nodes, now)
  {
    ListHolds(nodes, n);
    PutHolds(t, nodes, n, nodes[n].(count := count));
  }

  /** Admission: the counter rises only while the node is open and unflagged. */
  lemma AdmitHolds(s: System, t: nat, thread: Thread)
    requires SystemInv(s) && t in s.threads && s.threads[t].Entering? && !s.threads[t].late
    requires s.threads[t].enter.Count? || s.threads[t].enter.Compare?
    requires thread == s.threads[t].(enter := Recheck(s.threads[t].node))
    requires s.threads[t].node < |s.nodes| && !s.nodes[s.threads[t].node].flagged
    ensures var n := thread.node;
            SystemInv(With(Put(s, n, s.nodes[n].(count := s.nodes[n].count + 1)), t, thread))
  {
    var n := thread.node;
    RunThread(s, t);
    InNodes(s.nodes, t, s.threads[t]);
    EnterIsOpen(s, t);
    var now := s.nodes[n := s.nodes[n].(count := s.nodes[n].count + 1)];
    CountMoves(t, s.nodes, n, s.nodes[n].count + 1);
    AdmitThread(s.nodes, now, t, s.threads[t], thread);
    OthersStay(s, t, now);
    AdmitCounted(s, t, thread);
    hide SystemInv, ThreadInv, Evolves, TreeInv, AllCut, Counted;
    GoesOn(s, t, thread, now);
  }

  lemma AdmitCounted(s: System, t: nat, thread: Thread)
    requires Counted(s) && t in s.threads && (forall m: nat :: !Holds(s.threads[t], m))
    requires thread.Entering? && thread.enter.Recheck? && thread.node < |s.nodes|
    ensures var n := thread.node;
            Counted(System(s.nodes[n := s.nodes[n].(count := s.nodes[n].count + 1)], s.threads[t := thread]))
  {
    var n := thread.node;
    var now := s.nodes[n := s.nodes[n].(count := s.nodes[n].count + 1)];
    hide Holders;
    forall m | 0 <= m < |now| ensures now[m].count == |Holders(s.threads[t := thread], m)| {
      HoldersChange(s.threads, t, thread, m);
      assert s.nodes[m].count == |Holders(s.threads, m)|;
    }
  }

  lemma EnterIsOpen(s: System, t: nat)
    requires SystemInv(s) && t in s.threads && s.threads[t].Entering?
    ensures s.threads[t].node < |s.nodes| && s.nodes[s.threads[t].node].stage.Open?
  {
    RunThread(s, t);
  }

  lemma AdmitThread(was: seq<Node>, now: seq<Node>, t: nat, thread: Thread, next: Thread)
    requires ThreadInv(was, t, thread) && thread.Entering? && !thread.late
             && next == thread.(enter := Recheck(thread.node))
    requires Rooted(now) && |now| == |was| && now[thread.node].stage.Open? && !now[thread.node].dropped
    ensures ThreadInv(now, t, next)
  {
  }

  lemma LeaveHolds(s: System, t: nat)
    requires SystemInv(s) && t in s.threads && s.threads[t].Entering? && s.threads[t].enter.Leave?
    requires s.threads[t].node < |s.nodes|
    ensures var n := s.threads[t].node;
            && s.nodes[n].count > 0
            && SystemInv(Ended(Put(s, n, s.nodes[n].(count := s.nodes[n].count - 1)), t))
  {
    var n := s.threads[t].node;
    assert ThreadInv(s.nodes, t, s.threads[t]);
    assert t in Holders(s.threads, n) && s.nodes[n].count == |Holders(s.threads, n)|;
    var now := s.nodes[n := s.nodes[n].(count := s.nodes[n].count - 1)];
    CountMoves(t, s.nodes, n, now[n].count);
    OthersStay(s, t, now);
    hide TreeInv, AllCut;
    CountedEnd(s, t, now);
    Stops(s, t, now);
  }

  lemma EnterReads(s: System, t: nat, pc: EnterPc)
    requires SystemInv(s) && t in s.threads && s.threads[t].Entering?
    requires ThreadInv(s.nodes, t, s.threads[t].(enter := pc))
    requires (pc.Recheck? || pc.Live? || pc.Leave?)
             == (s.threads[t].enter.Recheck? || s.threads[t].enter.Live? || s.threads[t].enter.Leave?)
    ensures SystemInv(With(s, t, s.threads[t].(enter := pc)))
  {
    hide SystemInv, ThreadInv;
    ReadsOn(s, t, s.threads[t].(enter := pc));
  }

  lemma EnterEnds(s: System, t: nat)
    requires SystemInv(s) && t in s.threads && s.threads[t].Entering?
    requires s.threads[t].enter.Check? || s.threads[t].enter.Count? || s.threads[t].enter.Compare?
    ensures SystemInv(Ended(s, t))
  {
    hide SystemInv;
    ReadsEnd(s, t);
  }

  lemma CheckHolds(s: System, t: nat, choice: Choice)
    requires SystemInv(s) && t in s.threads && s.threads[t].Entering? && s.threads[t].enter.Check?
    ensures SystemInv(NextEnter(s, t, choice))
  {
    assert ThreadInv(s.nodes, t, s.threads[t]);
    TreeIsRooted(s);
    hide SystemInv, RevokeInv, MakerInv;
    var at := s.threads[t].enter.at;
    if s.nodes[at].flagged {
      EnterEnds(s, t);
    } else {
      EnterReads(s, t, if s.nodes[at].parent.Some? then Check(s.nodes[at].parent.value) else Count);
    }
  }

  lemma CountHolds(s: System, t: nat, choice: Choice)
    requires SystemInv(s) && t in s.threads && s.threads[t].Entering?
    requires s.threads[t].enter.Count? || s.threads[t].enter.Compare?
    ensures SystemInv(NextEnter(s, t, choice))
  {
    RunThread(s, t);
    CountNext(s, t, choice);
    var (thread, n, next) := (s.threads[t], s.threads[t].node, NextEnter(s, t, choice));
    hide SystemInv, ThreadInv, NextEnter, With, Put, Ended;
    if next == Ended(s, t) {
      EnterEnds(s, t);
    } else if next == With(s, t, thread.(enter := Compare(s.nodes[n].count))) {
      EnterReads(s, t, Compare(s.nodes[n].count));
    } else {
      AdmitHolds(s, t, thread.(enter := Recheck(n)));
    }
  }

  /** The three outcomes of counting an operation: refused, read for a later exchange,
      or admitted while the flag is clear. */
  lemma CountNext(s: System, t: nat, choice: Choice)
    requires SystemInv(s) && t in s.threads && s.threads[t].Entering?
    requires s.threads[t].enter.Count? || s.threads[t].enter.Compare?
    ensures var (thread, n, next) := (s.threads[t], s.threads[t].node, NextEnter(s, t, choice));
            && n < |s.nodes| && !thread.late
            && ThreadInv(s.nodes, t, thread.(enter := Compare(s.nodes[n].count)))
            && (next == Ended(s, t)
                || (thread.enter.Count? && next == With(s, t, thread.(enter := Compare(s.nodes[n].count))))
                || (!s.nodes[n].flagged
                    && next == With(Put(s, n, s.nodes[n].(count := s.nodes[n].count + 1)), t,
                                    thread.(enter := Recheck(n)))))
  {
    RunThread(s, t);
  }

  lemma EnterHolds(s: System, t: nat, choice: Choice)
    requires SystemInv(s) && t in s.threads && s.threads[t].Entering?
    ensures SystemInv(NextEnter(s, t, choice))
  {
    assert ThreadInv(s.nodes, t, s.threads[t]);
    TreeIsRooted(s);
    hide SystemInv, RevokeInv, MakerInv;
    match s.threads[t].enter {
      case Check(_) => CheckHolds(s, t, choice);
      case Count => CountHolds(s, t, choice);
      case Compare(_) => CountHolds(s, t, choice);
      case Recheck(at) =>
        EnterReads(s, t, if s.nodes[at].flagged then Leave
                         else if s.nodes[at].parent.Some? then Recheck(s.nodes[at].parent.value) else Live);
      case Live => EnterReads(s, t, Leave);
      case Leave => LeaveHolds(s, t);
    }
  }

  lemma TreeIsRooted(s: System)
    requires SystemInv(s)
    ensures Rooted(s.nodes)
  {
  }

  /** A step of `restrict` that changes nodes but admits no operation. */
  lemma MakesOn(s: System, t: nat, thread: Thread, now: seq<Node>)
    requires SystemInv(s) && t in s.threads && s.threads[t].Restricting? && thread.Restricting?
    requires TreeInv(now) && Evolves(t, s.nodes, now) && ThreadInv(now, t, thread) && Quiet(s.nodes, now)
    ensures SystemInv(System(now, s.threads[t := thread]))
  {
    OthersStay(s, t, now);
    hide TreeInv, AllCut, Evolves, ThreadInv;
    forall m: nat ensures t !in Holders(s.threads, m) { NotHolding(s, t, m); }
    forall m | |s.nodes| <= m < |now| ensures Holders(s.threads, m) == {} { NobodyHolds(s, m); }
    CountedOn(s, t, thread, now);
    GoesOn(s, t, thread, now);
  }

  lemma MakesEnd(s: System, t: nat, now: seq<Node>)
    requires SystemInv(s) && t in s.threads && s.threads[t].Restricting?
    requires TreeInv(now) && Evolves(t, s.nodes, now) && Quiet(s.nodes, now) && |now| == |s.nodes|
    ensures SystemInv(System(now, s.threads - {t}))
  {
    OthersStay(s, t, now);
    hide TreeInv, AllCut, Evolves, ThreadInv;
    forall m: nat ensures t !in Holders(s.threads, m) { NotHolding(s, t, m); }
    CountedEnd(s, t, now);
    Stops(s, t, now);
  }

  lemma NobodyHolds(s: System, n: nat)
    requires SystemInv(s) && n >= |s.nodes|
    ensures Holders(s.threads, n) == {}
  {
    forall t | t in s.threads ensures !Holds(s.threads[t], n) {
      assert ThreadInv(s.nodes, t, s.threads[t]);
    }
  }

  /** No counter moves, no revocation completes, and no open node is dropped. */
  predicate Quiet(was: seq<Node>, now: seq<Node>) {
    && |was| <= |now|
    && (forall n :: 0 <= n < |was| ==>
          && now[n].count == was[n].count && now[n].complete == was[n].complete
          && (was[n].stage.Open? ==> now[n].dropped == was[n].dropped))
    && (forall n :: |was| <= n < |now| ==> now[n].count == 0 && !now[n].complete)
  }

  lemma MakeHolds(s: System, t: nat, choice: Choice)
    requires SystemInv(s) && t in s.threads && s.threads[t].Restricting? && s.threads[t].restrict.Make?
    ensures SystemInv(NextRestrict(s, t, choice))
  {
    var thread := s.threads[t];
    var n := thread.node;
    assert ThreadInv(s.nodes, t, thread);
    var now := s.nodes + [Node(Some(n), false, 0, false, [], None, t, Created, false)];
    forall i | 0 <= i < |now| ensures NodeInv(now, i) {
      if i < |s.nodes| { assert NodeInv(s.nodes, i); }
    }
    forall i | 0 <= i < |s.nodes| ensures Grows(t, s.nodes, now, i) {
      assert NodeInv(s.nodes, i);
    }
    hide SystemInv, TreeInv;
    MakesOn(s, t, thread.(restrict := Lock(|s.nodes|)), now);
  }

  lemma HolderMoves(t: nat, nodes: seq<Node>, n: nat, holder: Option<nat>)
    requires TreeInv(nodes) && n < |nodes| && (nodes[n].holder.Some? ==> nodes[n].holder == Some(t))
    ensures var now := nodes[n := nodes[n].(holder := holder)];
            TreeInv(now) && Evolves(t, nodes, now) && Quiet(nodes, now)
  {
    ListHolds(nodes, n);
    PutHolds(t, nodes, n, nodes[n].(holder := holder));
  }

  /** The call that made a child drops it before anyone else could have it. */
  lemma DropsChild(t: nat, nodes: seq<Node>, child: nat)
    requires TreeInv(nodes) && child < |nodes| && nodes[child].maker == t && !nodes[child].stage.Open?
    ensures var now := nodes[child := nodes[child].(dropped := true)];
            TreeInv(now) && Evolves(t, nodes, now) && Quiet(nodes, now)
  {
    ListHolds(nodes, child);
    forall c | 0 <= c < |nodes| ensures nodes[c].parent != Some(child) { assert NodeInv(nodes, c); }
    PutHolds(t, nodes, child, nodes[child].(dropped := true));
  }

  /** The locked rewrite of the list keeps every undropped entry and adds the child. */
  lemma ListsChild(t: nat, nodes: seq<Node>, n: nat, child: nat, found: seq<nat>)
    requires TreeInv(nodes) && n < child < |nodes| && nodes[child].parent == Some(n)
    requires nodes[child].maker == t && nodes[child].stage.Created? && nodes[n].holder == Some(t)
    requires Resolves(nodes, nodes[n].children, found)
    ensures var listed := nodes[n := nodes[n].(children := found + [child])];
            var now := listed[child := listed[child].(stage := Listed)];
            TreeInv(now) && Evolves(t, nodes, now) && Quiet(nodes, now)
  {
    var v := nodes[n].(children := found + [child]);
    var listed := nodes[n := v];
    ListHolds(nodes, n);
    PutHolds(t, nodes, n, v);
    ListHolds(listed, child);
    PutHolds(t, listed, child, listed[child].(stage := Listed));
    EvolvesOn(t, nodes, listed, listed[child := listed[child].(stage := Listed)]);
  }

  /** Past an unflagged state word the child is reachable, and at the root returned. */
  lemma RaisesChild(t: nat, nodes: seq<Node>, child: nat, stage: Stage)
    requires TreeInv(nodes) && child < |nodes| && nodes[child].maker == t && !nodes[child].dropped
    requires nodes[child].parent.Some? && (stage.Passed? || stage.Open?)
    requires (nodes[child].stage.Listed? && !nodes[nodes[child].parent.value].flagged) || nodes[child].stage.Passed?
    ensures var now := nodes[child := nodes[child].(stage := stage)];
            TreeInv(now) && Evolves(t, nodes, now) && Quiet(nodes, now)
  {
    ListHolds(nodes, child);
    PutHolds(t, nodes, child, nodes[child].(stage := stage));
  }

  lemma RestrictReads(s: System, t: nat, pc: RestrictPc)
    requires SystemInv(s) && t in s.threads && s.threads[t].Restricting?
    requires ThreadInv(s.nodes, t, s.threads[t].(restrict := pc))
    ensures SystemInv(With(s, t, s.threads[t].(restrict := pc)))
  {
    hide SystemInv, ThreadInv;
    ReadsOn(s, t, s.threads[t].(restrict := pc));
  }

  lemma WalkHolds(s: System, t: nat, choice: Choice)
    requires SystemInv(s) && t in s.threads && s.threads[t].Restricting? && s.threads[t].restrict.Walk?
    ensures SystemInv(NextRestrict(s, t, choice))
  {
    var thread := s.threads[t];
    assert ThreadInv(s.nodes, t, thread);
    TreeIsRooted(s);
    var (child, at) := (thread.restrict.child, thread.restrict.at);
    hide TreeInv, Evolves, AllCut, Counted;
    if s.nodes[at].flagged {
      DropsChild(t, s.nodes, child);
      MakesEnd(s, t, s.nodes[child := s.nodes[child].(dropped := true)]);
    } else if s.nodes[at].parent.Some? {
      RaisesChild(t, s.nodes, child, Passed);
      MakesOn(s, t, thread.(restrict := Walk(child, s.nodes[at].parent.value)),
              s.nodes[child := s.nodes[child].(stage := Passed)]);
    } else {
      RaisesChild(t, s.nodes, child, Open);
      MakesEnd(s, t, s.nodes[child := s.nodes[child].(stage := Open)]);
    }
  }

  lemma StoreHolds(s: System, t: nat, choice: Choice)
    requires SystemInv(s) && t in s.threads && s.threads[t].Restricting? && s.threads[t].restrict.StoreList?
    requires CanRun(s, s.threads[t], choice)
    ensures SystemInv(NextRestrict(s, t, choice))
  {
    var thread := s.threads[t];
    assert ThreadInv(s.nodes, t, thread);
    var (n, child) := (thread.node, thread.restrict.child);
    hide TreeInv, Evolves, AllCut, Counted;
    ListsChild(t, s.nodes, n, child, choice.found);
    var listed := s.nodes[n := s.nodes[n].(children := choice.found + [child])];
    MakesOn(s, t, thread.(restrict := Unlock(child, true)), listed[child := listed[child].(stage := Listed)]);
  }

  lemma UnlockHolds(s: System, t: nat, choice: Choice)
    requires SystemInv(s) && t in s.threads && s.threads[t].Restricting? && s.threads[t].restrict.Unlock?
    ensures SystemInv(NextRestrict(s, t, choice))
  {
    var thread := s.threads[t];
    assert ThreadInv(s.nodes, t, thread);
    var (n, child) := (thread.node, thread.restrict.child);
    hide TreeInv, Evolves, AllCut, Counted;
    HolderMoves(t, s.nodes, n, None);
    var open := s.nodes[n := s.nodes[n].(holder := None)];
    if thread.restrict.listed {
      MakesOn(s, t, thread.(restrict := Walk(child, n)), open);
    } else {
      DropsChild(t, open, child);
      var now := open[child := open[child].(dropped := true)];
      EvolvesOn(t, s.nodes, open, now);
      MakesEnd(s, t, now);
    }
  }

  lemma RestrictHolds(s: System, t: nat, choice: Choice)
    requires SystemInv(s) && t in s.threads && s.threads[t].Restricting? && CanRun(s, s.threads[t], choice)
    ensures SystemInv(NextRestrict(s, t, choice))
  {
    var thread := s.threads[t];
    assert ThreadInv(s.nodes, t, thread);
    TreeIsRooted(s);
    var n := thread.node;
    hide SystemInv;
    match thread.restrict {
      case Permit(at) =>
        if s.nodes[at].flagged {
          ReadsEnd(s, t);
        } else {
          RestrictReads(s, t, if s.nodes[at].parent.Some? then Permit(s.nodes[at].parent.value) else Make);
        }
      case Make => MakeHolds(s, t, choice);
      case Lock(child) => LockHolds(s, t, choice);
      case Inside(child, at) =>
        RestrictReads(s, t, if s.nodes[at].flagged then Unlock(child, false)
                            else if s.nodes[at].parent.Some? then Inside(child, s.nodes[at].parent.value)
                            else LoadList(child));
      case LoadList(child) => RestrictReads(s, t, StoreList(child, s.nodes[n].children));
      case StoreList(child, copy) => StoreHolds(s, t, choice);
      case Unlock(child, listed) => UnlockHolds(s, t, choice);
      case Walk(child, at) => WalkHolds(s, t, choice);
    }
  }

  lemma LockHolds(s: System, t: nat, choice: Choice)
    requires SystemInv(s) && t in s.threads && s.threads[t].Restricting? && s.threads[t].restrict.Lock?
    requires CanRun(s, s.threads[t], choice)
    ensures SystemInv(NextRestrict(s, t, choice))
  {
    var thread := s.threads[t];
    assert ThreadInv(s.nodes, t, thread);
    var (n, child) := (thread.node, thread.restrict.child);
    hide TreeInv, Evolves, AllCut, Counted;
    HolderMoves(t, s.nodes, n, Some(t));
    MakesOn(s, t, thread.(restrict := Inside(child, n)), s.nodes[n := s.nodes[n].(holder := Some(t))]);
  }

  // --- Steps of revoke ---

  lemma RevokeOn(s: System, t: nat, pc: RevokePc, now: seq<Node>)
    requires SystemInv(s) && t in s.threads && s.threads[t].Revoking?
    requires TreeInv(now) && Evolves(t, s.nodes, now) && AllCut(now) && |now| == |s.nodes|
    requires forall n :: 0 <= n < |now| ==> now[n].count == s.nodes[n].count && now[n].dropped == s.nodes[n].dropped
    requires ThreadInv(now, t, s.threads[t].(revoke := pc))
    ensures SystemInv(System(now, s.threads[t := s.threads[t].(revoke := pc)]))
  {
    hide TreeInv, AllCut, Evolves, ThreadInv;
    forall o | o in s.threads && o != t ensures ThreadInv(now, o, s.threads[o]) {
      assert ThreadInv(s.nodes, o, s.threads[o]);
      if !s.threads[o].Revoking? { InNodes(s.nodes, o, s.threads[o]); }
      ThreadStays(t, s.nodes, now, o, s.threads[o]);
    }
    forall m: nat ensures t !in Holders(s.threads, m) { NotHolding(s, t, m); }
    var thread := s.threads[t].(revoke := pc);
    CountedOn(s, t, thread, now);
    GoesOn(s, t, thread, now);
  }

  lemma InNodes(nodes: seq<Node>, t: nat, thread: Thread)
    requires ThreadInv(nodes, t, thread) && !thread.Revoking?
    ensures thread.node < |nodes| && !nodes[thread.node].dropped
  {
  }

  lemma FlagNext(nodes: seq<Node>, root: nat, seen: seq<nat>, i: nat)
    requires Rooted(nodes) && RevokeInv(nodes, root, Flag(seen, i)) && i < |seen| && nodes[seen[i]].flagged
    ensures RevokeInv(nodes, root, Children(seen, i))
  {
  }

  lemma FlagHolds(s: System, t: nat, choice: Choice)
    requires SystemInv(s) && t in s.threads && s.threads[t].Revoking? && s.threads[t].revoke.Flag?
    requires s.threads[t].revoke.i < |s.threads[t].revoke.seen|
    ensures SystemInv(NextRevoke(s, t, choice))
  {
    var thread := s.threads[t];
    assert ThreadInv(s.nodes, t, thread);
    var (root, seen, i) := (thread.root, thread.revoke.seen, thread.revoke.i);
    var now := s.nodes[seen[i] := s.nodes[seen[i]].(flagged := true)];
    ListHolds(s.nodes, seen[i]);
    PutHolds(t, s.nodes, seen[i], now[seen[i]]);
    CutsStay(t, s.nodes, now);
    RevokeStays(t, s.nodes, now, root, thread.revoke);
    hide TreeInv, AllCut, Evolves, Counted, AllThreads;
    FlagNext(now, root, seen, i);
    hide RevokeInv;
    RevokeOn(s, t, Children(seen, i), now);
  }

  /** Reading the flagged node's list collects every child that got past its word. */
  lemma ChildrenHolds(s: System, t: nat, choice: Choice)
    requires SystemInv(s) && t in s.threads && s.threads[t].Revoking? && s.threads[t].revoke.Children?
    requires CanRun(s, s.threads[t], choice)
    ensures SystemInv(NextRevoke(s, t, choice))
  {
    var thread := s.threads[t];
    assert ThreadInv(s.nodes, t, thread);
    var (root, seen, i) := (thread.root, thread.revoke.seen, thread.revoke.i);
    var (n, more) := (seen[i], seen + choice.found);
    ChildrenNext(s.nodes, root, seen, i, choice.found);
    SameNodes(t, s.nodes);
    hide TreeInv, AllCut, Evolves, Counted, AllThreads, RevokeInv;
    RevokeOn(s, t, Flag(more, i + 1), s.nodes);
  }

  lemma ChildrenNext(nodes: seq<Node>, root: nat, seen: seq<nat>, i: nat, found: seq<nat>)
    requires TreeInv(nodes) && root < |nodes| && RevokeInv(nodes, root, Children(seen, i)) && i < |seen|
    requires Resolves(nodes, nodes[seen[i]].children, found)
    ensures RevokeInv(nodes, root, Flag(seen + found, i + 1))
  {
    var (n, more) := (seen[i], seen + found);
    ListHolds(nodes, n);
    forall k | 0 <= k < |more| ensures more[k] < |nodes| && Under(nodes, root, more[k]) {
      if k >= |seen| { assert more[k] in found && nodes[more[k]].parent == Some(n); }
    }
    assert more[..i + 1] == seen[..i] + [n];
    forall c | 0 <= c < |nodes| && Below(nodes[c], more[..i + 1]) ensures c in more {
      if nodes[c].parent.value != n { assert Below(nodes[c], seen[..i]); }
    }
  }

  lemma {:induction false} SeenCovers(nodes: seq<Node>, root: nat, seen: seq<nat>, d: nat)
    requires TreeInv(nodes) && |seen| > 0 && seen[0] == root && d < |nodes|
    requires forall c :: 0 <= c < |nodes| && Below(nodes[c], seen) ==> c in seen
    requires nodes[d].Reachable() && !nodes[d].dropped && Under(nodes, root, d)
    ensures d in seen
    decreases d
  {
    if d != root {
      assert NodeInv(nodes, d);
      SeenCovers(nodes, root, seen, nodes[d].parent.value);
      assert Below(nodes[d], seen);
    }
  }

  /** Once every collected node is flagged and idle, the whole subtree is cut. */
  lemma SeenIsCut(nodes: seq<Node>, root: nat, pc: RevokePc, m: nat)
    requires TreeInv(nodes) && root < |nodes| && RevokeInv(nodes, root, pc) && pc.Finish? && m in pc.seen
    ensures m < |nodes| && nodes[m].flagged && Cut(nodes, m)
  {
    assert pc.seen[..|pc.seen|] == pc.seen;
    forall d | 0 <= d < |nodes| && nodes[d].Reachable() && !nodes[d].dropped && Under(nodes, m, d)
      ensures nodes[d].flagged && nodes[d].count == 0
    {
      UnderOn(nodes, root, m, d);
      SeenCovers(nodes, root, pc.seen, d);
    }
  }

  lemma FinishNext(nodes: seq<Node>, root: nat, seen: seq<nat>, i: nat)
    requires Rooted(nodes) && RevokeInv(nodes, root, Finish(seen, i)) && i < |seen| && nodes[seen[i]].complete
    ensures RevokeInv(nodes, root, Finish(seen, i + 1))
  {
  }

  /** Marking a collected node complete keeps the tree and the cutoffs. */
  lemma FinishNodes(t: nat, nodes: seq<Node>, root: nat, pc: RevokePc)
    requires TreeInv(nodes) && AllCut(nodes) && root < |nodes| && RevokeInv(nodes, root, pc)
    requires pc.Finish? && pc.i < |pc.seen|
    ensures pc.seen[pc.i] < |nodes|
    ensures var m := pc.seen[pc.i];
            var now := nodes[m := nodes[m].(complete := true)];
            TreeInv(now) && Evolves(t, nodes, now) && AllCut(now) && RevokeInv(now, root, pc)
  {
    var m := pc.seen[pc.i];
    var now := nodes[m := nodes[m].(complete := true)];
    SeenIsCut(nodes, root, pc, m);
    ListHolds(nodes, m);
    hide Cut, RevokeInv, AllCut;
    PutHolds(t, nodes, m, now[m]);
    RevokeStays(t, nodes, now, root, pc);
    CompletesCut(t, nodes, now, m);
  }

  lemma FinishHolds(s: System, t: nat, choice: Choice)
    requires SystemInv(s) && t in s.threads && s.threads[t].Revoking? && s.threads[t].revoke.Finish?
    requires s.threads[t].revoke.i < |s.threads[t].revoke.seen|
    ensures SystemInv(NextRevoke(s, t, choice))
  {
    var thread := s.threads[t];
    assert ThreadInv(s.nodes, t, thread);
    TreeIsRooted(s);
    assert TreeInv(s.nodes) && AllCut(s.nodes);
    hide SystemInv, TreeInv, AllCut, Evolves, RevokeInv, Rooted;
    var (root, seen, i) := (thread.root, thread.revoke.seen, thread.revoke.i);
    FinishNodes(t, s.nodes, root, thread.revoke);
    var now := s.nodes[seen[i] := s.nodes[seen[i]].(complete := true)];
    FinishNext(now, root, seen, i);
    assert NextRevoke(s, t, choice) == System(now, s.threads[t := thread.(revoke := Finish(seen, i + 1))]);
    hide NextRevoke, ThreadInv;
    CompleteOnly(s.nodes, seen[i]);
    FinishThread(now, t, root, Finish(seen, i + 1));
    RevokeOn(s, t, Finish(seen, i + 1), now);
  }

  lemma CompleteOnly(nodes: seq<Node>, m: nat)
    requires m < |nodes|
    ensures var now := nodes[m := nodes[m].(complete := true)];
            forall n :: 0 <= n < |now| ==> now[n].count == nodes[n].count && now[n].dropped == nodes[n].dropped
  {
  }

  lemma FinishThread(nodes: seq<Node>, t: nat, root: nat, pc: RevokePc)
    requires Rooted(nodes) && root < |nodes| && RevokeInv(nodes, root, pc)
    ensures ThreadInv(nodes, t, Revoking(root, pc))
  {
  }

  lemma CompletesCut(t: nat, was: seq<Node>, now: seq<Node>, m: nat)
    requires TreeInv(was) && TreeInv(now) && Evolves(t, was, now) && AllCut(was)
    requires m < |was| && now == was[m := was[m].(complete := true)] && was[m].flagged && Cut(was, m)
    ensures AllCut(now)
  {
    hide Evolves;
    forall k | 0 <= k < |now| && now[k].complete ensures now[k].flagged && Cut(now, k) {
      assert was[k].flagged && Cut(was, k);
      forall d | 0 <= d < |now| && now[d].Reachable() && !now[d].dropped && Under(now, k, d)
        ensures now[d].flagged && now[d].count == 0
      {
        UnderStays(t, was, now, k, d);
      }
    }
  }

  lemma RevokeHolds(s: System, t: nat, choice: Choice)
    requires SystemInv(s) && t in s.threads && s.threads[t].Revoking? && CanRun(s, s.threads[t], choice)
    ensures SystemInv(NextRevoke(s, t, choice))
  {
    var thread := s.threads[t];
    assert ThreadInv(s.nodes, t, thread);
    TreeIsRooted(s);
    hide SystemInv, RevokeInv;
    match thread.revoke {
      case Flag(seen, i) =>
        if i == |seen| {
          AwaitNext(s.nodes, thread.root, thread.revoke, Await(seen, 0));
          RevokeReads(s, t, Await(seen, 0));
        } else {
          FlagHolds(s, t, choice);
        }
      case Children(seen, i) => ChildrenHolds(s, t, choice);
      case Await(seen, i) =>
        var pc := if i == |seen| then Finish(seen, 0) else Await(seen, i + 1);
        AwaitNext(s.nodes, thread.root, thread.revoke, pc);
        RevokeReads(s, t, pc);
      case Finish(seen, i) =>
        if i == |seen| { RevokeEnds(s, t); } else { FinishHolds(s, t, choice); }
    }
  }

  /** Waiting moves on only over idle nodes. */
  lemma AwaitNext(nodes: seq<Node>, root: nat, pc: RevokePc, next: RevokePc)
    requires Rooted(nodes) && root < |nodes| && RevokeInv(nodes, root, pc)
    requires (pc.Flag? && pc.i == |pc.seen| && next == Await(pc.seen, 0))
             || (pc.Await? && pc.i == |pc.seen| && next == Finish(pc.seen, 0))
             || (pc.Await? && pc.i < |pc.seen| && nodes[pc.seen[pc.i]].count == 0 && next == Await(pc.seen, pc.i + 1))
    ensures RevokeInv(nodes, root, next)
  {
  }

  lemma RevokeReads(s: System, t: nat, pc: RevokePc)
    requires SystemInv(s) && t in s.threads && s.threads[t].Revoking?
    requires ThreadInv(s.nodes, t, s.threads[t].(revoke := pc))
    ensures SystemInv(With(s, t, s.threads[t].(revoke := pc)))
  {
    hide SystemInv, ThreadInv;
    ReadsOn(s, t, s.threads[t].(revoke := pc));
  }

  lemma RevokeEnds(s: System, t: nat)
    requires SystemInv(s) && t in s.threads && s.threads[t].Revoking?
    ensures SystemInv(Ended(s, t))
  {
    hide SystemInv;
    ReadsEnd(s, t);
  }

  // --- Starts, ends and handles ---

  lemma StartHolds(s: System, t: nat, node: nat, step: Step)
    requires SystemInv(s) && Enabled(s, step)
    requires step == StartEnter(t, node) || step == StartRestrict(t, node) || step == StartRevoke(t, node)
    ensures SystemInv(Next(s, step))
  {
    TreeIsRooted(s);
    var thread := if step.StartEnter? then Entering(node, Check(node), Revoked(s.nodes, node))
                  else if step.StartRestrict? then Restricting(node, Permit(node), Revoked(s.nodes, node))
                  else Revoking(node, Flag([node], 0));
    assert ThreadInv(s.nodes, t, thread);
    hide SystemInv, ThreadInv;
    ReadsOn(s, t, thread);
  }

  lemma DropHolds(s: System, node: nat)
    requires SystemInv(s) && Usable(s, node) && Unused(s, node)
    ensures SystemInv(Put(s, node, s.nodes[node].(dropped := true)))
  {
    var now := s.nodes[node := s.nodes[node].(dropped := true)];
    var a := SpareId(s.threads.Keys);
    assert a !in s.threads;
    ListHolds(s.nodes, node);
    PutHolds(a, s.nodes, node, now[node]);
    CutsStay(a, s.nodes, now);
    forall o | o in s.threads ensures ThreadInv(now, o, s.threads[o]) {
      assert ThreadInv(s.nodes, o, s.threads[o]);
      if !s.threads[o].Revoking? { InNodes(s.nodes, o, s.threads[o]); }
      ThreadStays(a, s.nodes, now, o, s.threads[o]);
    }
    hide TreeInv, AllCut, ThreadInv, Evolves, Holders;
    forall n | 0 <= n < |now| ensures now[n].count == |Holders(s.threads, n)| {
      assert s.nodes[n].count == |Holders(s.threads, n)|;
    }
  }

  lemma {:induction false} SpareId(ids: set<nat>) returns (a: nat)
    ensures forall id :: id in ids ==> id < a
    decreases |ids|
  {
    a := 0;
    if ids != {} {
      var id :| id in ids;
      var rest := SpareId(ids - {id});
      a := rest + id + 1;
      forall other | other in ids ensures other < a {
        assert other == id || other in ids - {id};
      }
    }
  }

  lemma NextHolds(s: System, step: Step)
    requires SystemInv(s) && Enabled(s, step)
    ensures SystemInv(Next(s, step))
  {
    hide SystemInv;
    match step {
      case StartEnter(t, node) => StartHolds(s, t, node, step);
      case StartRestrict(t, node) => StartHolds(s, t, node, step);
      case StartRevoke(t, node) => StartHolds(s, t, node, step);
      case Run(t, choice) =>
        match s.threads[t] {
          case Entering(_, _, _) => EnterHolds(s, t, choice);
          case Restricting(_, _, _) => RestrictHolds(s, t, choice);
          case Revoking(_, _) => RevokeHolds(s, t, choice);
        }
      case Abandon(t) => RevokeEnds(s, t);
      case DropNode(node) => DropHolds(s, node);
    }
  }

  // --- Runs ---

  /** A fresh scope: one open root grant and no call in progress. */
  function Start(): System {
    System([Node(None, false, 0, false, [], None, 0, Open, false)], map[])
  }

  lemma StartSystemHolds()
    ensures SystemInv(Start())
  {
    forall n | 0 <= n < 1 ensures Holders(Start().threads, n) == {} {
    }
  }

  /** `Next` is defined on sound states; that every state of a run is one is proved. */
  predicate StepOf(s: System, step: Step, after: System) {
    Enabled(s, step) && (SystemInv(s) ==> after == Next(s, step))
  }

  /** One state after another, each by an enabled step. */
  predicate RunOf(states: seq<System>, steps: seq<Step>) {
    && |states| == |steps| + 1
    && forall i :: 0 <= i < |steps| ==> StepOf(states[i], steps[i], states[i + 1])
  }

  lemma {:induction false} RunHolds(states: seq<System>, steps: seq<Step>, i: nat)
    requires RunOf(states, steps) && states[0] == Start() && i < |states|
    ensures SystemInv(states[i])
    decreases i
  {
    hide SystemInv, Next, Enabled;
    if i == 0 {
      StartSystemHolds();
    } else {
      RunHolds(states, steps, i - 1);
      assert StepOf(states[i - 1], steps[i - 1], states[i]);
      NextHolds(states[i - 1], steps[i - 1]);
    }
  }

  /** Completion is never taken back. */
  lemma StepKeepsComplete(s: System, step: Step, n: nat)
    requires SystemInv(s) && Enabled(s, step) && n < |s.nodes| && s.nodes[n].complete
    ensures n < |Next(s, step).nodes| && Next(s, step).nodes[n].complete
  {
    hide SystemInv;
    if step.Run? {
      match s.threads[step.t] {
        case Entering(_, _, _) => EnterKeepsComplete(s, step.t, step.choice, n);
        case Restricting(_, _, _) => RestrictKeepsComplete(s, step.t, step.choice, n);
        case Revoking(_, _) => RevokeKeepsComplete(s, step.t, step.choice, n);
      }
    }
  }

  lemma EnterKeepsComplete(s: System, t: nat, choice: Choice, n: nat)
    requires SystemInv(s) && t in s.threads && s.threads[t].Entering? && n < |s.nodes| && s.nodes[n].complete
    ensures n < |NextEnter(s, t, choice).nodes| && NextEnter(s, t, choice).nodes[n].complete
  {
    RunThread(s, t);
    hide SystemInv, Revoked, Rooted, RevokeInv;
  }

  lemma RestrictKeepsComplete(s: System, t: nat, choice: Choice, n: nat)
    requires SystemInv(s) && t in s.threads && s.threads[t].Restricting? && n < |s.nodes| && s.nodes[n].complete
    ensures n < |NextRestrict(s, t, choice).nodes| && NextRestrict(s, t, choice).nodes[n].complete
  {
    RunThread(s, t);
    hide SystemInv, Revoked, Rooted, RevokeInv;
  }

  lemma RevokeKeepsComplete(s: System, t: nat, choice: Choice, n: nat)
    requires SystemInv(s) && t in s.threads && s.threads[t].Revoking? && n < |s.nodes| && s.nodes[n].complete
    ensures n < |NextRevoke(s, t, choice).nodes| && NextRevoke(s, t, choice).nodes[n].complete
  {
    RunThread(s, t);
    hide SystemInv;
  }

  lemma RunThread(s: System, t: nat)
    requires SystemInv(s) && t in s.threads
    ensures ThreadInv(s.nodes, t, s.threads[t])
  {
  }

  lemma {:induction false} CompleteStays(states: seq<System>, steps: seq<Step>, i: nat, j: nat, n: nat)
    requires RunOf(states, steps) && states[0] == Start() && i <= j < |states|
    requires n < |states[i].nodes| && states[i].nodes[n].complete
    ensures n < |states[j].nodes| && states[j].nodes[n].complete
    decreases j
  {
    hide SystemInv, Next, Enabled;
    if i < j {
      CompleteStays(states, steps, i, j - 1, n);
      RunHolds(states, steps, j - 1);
      assert StepOf(states[j - 1], steps[j - 1], states[j]);
      StepKeepsComplete(states[j - 1], steps[j - 1], n);
    }
  }

  /** Nothing below a completed revocation holds an admission. */
  lemma CutIsIdle(s: System, n: nat, t: nat)
    requires SystemInv(s) && n < |s.nodes| && s.nodes[n].complete && t in s.threads && s.threads[t].Entering?
    requires s.threads[t].node < |s.nodes| && Under(s.nodes, n, s.threads[t].node)
    ensures !Holds(s.threads[t], s.threads[t].node)
  {
    var d := s.threads[t].node;
    assert ThreadInv(s.nodes, t, s.threads[t]) && Cut(s.nodes, n);
    assert s.nodes[d].count == |Holders(s.threads, d)|;
    assert Holders(s.threads, d) == {};
    HoldersChange(s.threads, t, s.threads[t], d);
  }

  /** The cutoff theorem. In every interleaving, from the moment a node's revocation is
      complete no admitted operation is live on the node or on any descendant, however
      late it was delegated, and that stays so for the rest of the run. */
  lemma RevocationCutoff(states: seq<System>, steps: seq<Step>, i: nat, j: nat, n: nat, t: nat)
    requires RunOf(states, steps) && states[0] == Start() && i <= j < |states|
    requires n < |states[i].nodes| && states[i].nodes[n].complete
    ensures SystemInv(states[j])
    ensures t in states[j].threads && states[j].threads[t].Entering? ==>
              var d := states[j].threads[t].node;
              d < |states[j].nodes| && (Under(states[j].nodes, n, d) ==> !states[j].threads[t].enter.Live?)
  {
    RunHolds(states, steps, j);
    CompleteStays(states, steps, i, j, n);
    if t in states[j].threads && states[j].threads[t].Entering? {
      assert ThreadInv(states[j].nodes, t, states[j].threads[t]);
      if Under(states[j].nodes, n, states[j].threads[t].node) { CutIsIdle(states[j], n, t); }
    }
  }

  /** A revocation that returns success has completed its node. */
  lemma ReturnsComplete(s: System, t: nat, choice: Choice)
    requires SystemInv(s) && t in s.threads && s.threads[t].Revoking? && CanRun(s, s.threads[t], choice)
    requires t !in Next(s, Run(t, choice)).threads
    ensures s.threads[t].root < |s.nodes| && s.nodes[s.threads[t].root].complete
  {
    assert ThreadInv(s.nodes, t, s.threads[t]);
  }

  /** A call that begins below a flagged node is refused by its own first walk: it never
      admits an operation, never makes a child, whatever the revocation has done since. */
  lemma LateCallsFail(states: seq<System>, steps: seq<Step>, i: nat, t: nat)
    requires RunOf(states, steps) && states[0] == Start() && i < |states|
    requires t in states[i].threads && !states[i].threads[t].Revoking? && states[i].threads[t].late
    ensures states[i].threads[t].Entering? ==> states[i].threads[t].enter.Check?
    ensures states[i].threads[t].Restricting? ==> states[i].threads[t].restrict.Permit?
  {
    RunHolds(states, steps, i);
    assert ThreadInv(states[i].nodes, t, states[i].threads[t]);
  }
}
