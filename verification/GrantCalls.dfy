/** What enter, restrict and revoke achieve: a call left alone succeeds whenever nothing on its
    path to the root forbids it, and in every interleaving it fails only for cause. */
module GrantCalls {
  import opened Wire
  import opened Revocation

  // --- One thread running alone ---

  /** Thread `t` takes one step for each choice and nothing else happens. */
  ghost predicate Alone(s: System, t: nat, choices: seq<Choice>, end: System)
    decreases |choices|
  {
    if choices == [] then end == s
    else
      && SystemInv(s) && Enabled(s, Run(t, choices[0]))
      && Alone(Next(s, Run(t, choices[0])), t, choices[1..], end)
  }

  lemma OneMore(s: System, t: nat, choice: Choice, rest: seq<Choice>, end: System)
    requires SystemInv(s) && Enabled(s, Run(t, choice)) && Alone(Next(s, Run(t, choice)), t, rest, end)
    ensures Alone(s, t, [choice] + rest, end)
  {
    hide SystemInv, Next, Enabled;
    assert ([choice] + rest)[1..] == rest;
  }

  lemma {:induction false} AloneOn(s: System, t: nat, first: seq<Choice>, mid: System, rest: seq<Choice>, end: System)
    requires Alone(s, t, first, mid) && Alone(mid, t, rest, end)
    ensures Alone(s, t, first + rest, end)
    decreases |first|
  {
    hide SystemInv, Next, Enabled;
    if first == [] {
      assert first + rest == rest;
    } else {
      assert (first + rest)[1..] == first[1..] + rest;
      AloneOn(Next(s, Run(t, first[0])), t, first[1..], mid, rest, end);
    }
  }

  // --- Enter ---

  /** The system with thread `t` of an enter at this point of its program. */
  function At(s: System, t: nat, pc: EnterPc): System
    requires t in s.threads && s.threads[t].Entering?
  {
    With(s, t, s.threads[t].(enter := pc))
  }

  /** A walk up an unflagged path ends at the root with nothing changed. */
  lemma {:induction false} WalksUp(s: System, t: nat, at: nat, choice: Choice, recheck: bool)
    returns (choices: seq<Choice>, end: System)
    requires SystemInv(s) && t in s.threads && s.threads[t].Entering? && at < |s.nodes| && !Revoked(s.nodes, at)
    requires s.threads[t].enter == if recheck then Recheck(at) else Check(at)
    ensures Alone(s, t, choices, end) && SystemInv(end)
    ensures end == At(s, t, if recheck then Live else Count)
    decreases at
  {
    assert ThreadInv(s.nodes, t, s.threads[t]);
    var next := Next(s, Run(t, choice));
    NextHolds(s, Run(t, choice));
    var parent := s.nodes[at].parent;
    if parent.Some? {
      assert next == At(s, t, if recheck then Recheck(parent.value) else Check(parent.value));
      var rest;
      rest, end := WalksUp(next, t, parent.value, choice, recheck);
      assert end == At(s, t, if recheck then Live else Count);
      hide SystemInv, Next, Enabled;
      OneMore(s, t, choice, rest, end);
      choices := [choice] + rest;
    } else {
      choices, end := [choice], next;
      assert [choice][1..] == [];
    }
  }

  /** The count steps: one access, or a load and an exchange when deferred. */
  lemma CountsOne(s: System, t: nat, choice: Choice) returns (choices: seq<Choice>, end: System)
    requires SystemInv(s) && t in s.threads && s.threads[t].Entering? && s.threads[t].enter == Count
    requires var n := s.threads[t].node;
             n < |s.nodes| && !s.nodes[n].flagged && s.nodes[n].count < ACTIVE_COUNT
    ensures Alone(s, t, choices, end) && SystemInv(end)
    ensures var n := s.threads[t].node;
            end == At(Put(s, n, s.nodes[n].(count := s.nodes[n].count + 1)), t, Recheck(n))
  {
    CountStep(s, t, choice);
    var next := OneStep(s, t, choice);
    hide SystemInv, Next;
    if choice.deferred {
      CompareStep(next, t, choice);
      end := OneStep(next, t, choice);
      AloneOn(s, t, [choice], next, [choice], end);
      choices := [choice] + [choice];
    } else {
      choices, end := [choice], next;
    }
  }

  lemma CountStep(s: System, t: nat, choice: Choice)
    requires SystemInv(s) && t in s.threads && s.threads[t].Entering? && s.threads[t].enter == Count
    requires var n := s.threads[t].node;
             n < |s.nodes| && !s.nodes[n].flagged && s.nodes[n].count < ACTIVE_COUNT
    ensures var n := s.threads[t].node;
            Next(s, Run(t, choice))
            == if choice.deferred then At(s, t, Compare(s.nodes[n].count))
               else At(Put(s, n, s.nodes[n].(count := s.nodes[n].count + 1)), t, Recheck(n))
  {
    hide SystemInv, ThreadInv;
  }

  lemma CompareStep(s: System, t: nat, choice: Choice)
    requires SystemInv(s) && t in s.threads && s.threads[t].Entering? && s.threads[t].enter.Compare?
    requires var n := s.threads[t].node;
             n < |s.nodes| && !s.nodes[n].flagged && s.nodes[n].count == s.threads[t].enter.seen
    ensures var n := s.threads[t].node;
            Next(s, Run(t, choice)) == At(Put(s, n, s.nodes[n].(count := s.nodes[n].count + 1)), t, Recheck(n))
  {
    hide SystemInv, ThreadInv;
  }

  lemma {:induction false} CountKeepsPath(s: System, n: nat, count: nat, at: nat)
    requires Rooted(s.nodes) && n < |s.nodes| && at < |s.nodes|
    ensures Rooted(Put(s, n, s.nodes[n].(count := count)).nodes)
    ensures Revoked(Put(s, n, s.nodes[n].(count := count)).nodes, at) == Revoked(s.nodes, at)
    decreases at
  {
    if s.nodes[at].parent.Some? { CountKeepsPath(s, n, count, s.nodes[at].parent.value); }
  }

  /** With no flag on the path to the root and room in the counter, an enter left alone ends in a
      live operation, counted once, with nothing else changed. */
  lemma EnterSucceeds(s: System, t: nat, node: nat, deferred: bool) returns (choices: seq<Choice>, end: System)
    requires SystemInv(s) && Enabled(s, StartEnter(t, node))
    requires !Revoked(s.nodes, node) && s.nodes[node].count < ACTIVE_COUNT
    ensures Alone(Next(s, StartEnter(t, node)), t, choices, end) && SystemInv(end)
    ensures end.nodes == s.nodes[node := s.nodes[node].(count := s.nodes[node].count + 1)]
    ensures end.threads.Keys == s.threads.Keys + {t} && (forall o :: o in s.threads ==> end.threads[o] == s.threads[o])
    ensures end.threads[t].Entering? && end.threads[t].node == node && end.threads[t].enter.Live?
  {
    var (choice, begun) := (Choice(deferred, []), Next(s, StartEnter(t, node)));
    NextHolds(s, StartEnter(t, node));
    var first, counting := WalksUp(begun, t, node, choice, false);
    NotFlagged(s.nodes, node);
    var second, counted := CountsOne(counting, t, choice);
    CountKeepsPath(counting, node, s.nodes[node].count + 1, node);
    var third;
    third, end := WalksUp(counted, t, node, choice, true);
    hide SystemInv, Next, Enabled;
    AloneOn(begun, t, first, counting, second, counted);
    AloneOn(begun, t, first + second, counted, third, end);
    choices := first + second + third;
  }

  /** A live operation left alone ends, and gives back exactly the one it counted. */
  lemma OperationEnds(s: System, t: nat) returns (choices: seq<Choice>, end: System)
    requires SystemInv(s) && t in s.threads && s.threads[t].Entering? && s.threads[t].enter.Live?
    ensures Alone(s, t, choices, end) && SystemInv(end)
    ensures var n := s.threads[t].node;
            && n < |s.nodes| && s.nodes[n].count > 0 && end.threads == s.threads - {t}
            && end.nodes == s.nodes[n := s.nodes[n].(count := s.nodes[n].count - 1)]
  {
    assert ThreadInv(s.nodes, t, s.threads[t]);
    var choice := Choice(false, []);
    var leaving := OneStep(s, t, choice);
    assert ThreadInv(leaving.nodes, t, leaving.threads[t]);
    end := OneStep(leaving, t, choice);
    LeaveHolds(leaving, t);
    hide SystemInv, Next, Enabled;
    AloneOn(s, t, [choice], leaving, [choice], end);
    choices := [choice] + [choice];
    assert leaving.threads - {t} == s.threads - {t};
  }

  lemma NotFlagged(nodes: seq<Node>, n: nat)
    requires Rooted(nodes) && n < |nodes| && !Revoked(nodes, n)
    ensures !nodes[n].flagged
  {
  }

  // --- Restrict ---

  function AtRestrict(s: System, t: nat, pc: RestrictPc): System
    requires t in s.threads && s.threads[t].Restricting?
  {
    With(s, t, s.threads[t].(restrict := pc))
  }

  /** The permission walk, and the walk under the lock. */
  lemma {:induction false} PermitsUp(s: System, t: nat, at: nat, choice: Choice, child: Option<nat>)
    returns (choices: seq<Choice>, end: System)
    requires SystemInv(s) && t in s.threads && s.threads[t].Restricting? && at < |s.nodes| && !Revoked(s.nodes, at)
    requires s.threads[t].restrict == if child.Some? then Inside(child.value, at) else Permit(at)
    ensures Alone(s, t, choices, end) && SystemInv(end)
    ensures end == AtRestrict(s, t, if child.Some? then LoadList(child.value) else Make)
    decreases at
  {
    assert ThreadInv(s.nodes, t, s.threads[t]);
    var next := Next(s, Run(t, choice));
    NextHolds(s, Run(t, choice));
    var parent := s.nodes[at].parent;
    if parent.Some? {
      assert next == AtRestrict(s, t, if child.Some? then Inside(child.value, parent.value) else Permit(parent.value));
      var rest;
      rest, end := PermitsUp(next, t, parent.value, choice, child);
      assert end == AtRestrict(s, t, if child.Some? then LoadList(child.value) else Make);
      hide SystemInv, Next, Enabled;
      OneMore(s, t, choice, rest, end);
      choices := [choice] + rest;
    } else {
      choices, end := [choice], next;
      assert [choice][1..] == [];
    }
  }

  /** The last walk, past every ancestor's state word: the child ends open. */
  lemma {:induction false} PassesUp(s: System, t: nat, child: nat, at: nat, choice: Choice)
    returns (choices: seq<Choice>, end: System)
    requires SystemInv(s) && t in s.threads && s.threads[t].Restricting? && s.threads[t].restrict == Walk(child, at)
    requires at < |s.nodes| && !Revoked(s.nodes, at) && child < |s.nodes| && at < child
    ensures Alone(s, t, choices, end) && SystemInv(end)
    ensures end == Ended(Put(s, child, s.nodes[child].(stage := Open)), t)
    decreases at
  {
    assert ThreadInv(s.nodes, t, s.threads[t]);
    var next := Next(s, Run(t, choice));
    NextHolds(s, Run(t, choice));
    var parent := s.nodes[at].parent;
    if parent.Some? {
      StageKeepsPath(s, child, Passed, parent.value);
      var rest;
      rest, end := PassesUp(next, t, child, parent.value, choice);
      assert end == Ended(Put(s, child, s.nodes[child].(stage := Open)), t);
      hide SystemInv, Next, Enabled;
      OneMore(s, t, choice, rest, end);
      choices := [choice] + rest;
    } else {
      choices, end := [choice], next;
      assert [choice][1..] == [];
    }
  }

  lemma {:induction false} StageKeepsPath(s: System, child: nat, stage: Stage, at: nat)
    requires Rooted(s.nodes) && child < |s.nodes| && at < |s.nodes|
    ensures Rooted(Put(s, child, s.nodes[child].(stage := stage)).nodes)
    ensures Revoked(Put(s, child, s.nodes[child].(stage := stage)).nodes, at) == Revoked(s.nodes, at)
    decreases at
  {
    if s.nodes[at].parent.Some? { StageKeepsPath(s, child, stage, s.nodes[at].parent.value); }
  }

  lemma OneStep(s: System, t: nat, choice: Choice) returns (next: System)
    requires SystemInv(s) && Enabled(s, Run(t, choice))
    ensures next == Next(s, Run(t, choice)) && SystemInv(next) && Alone(s, t, [choice], next)
  {
    next := Next(s, Run(t, choice));
    NextHolds(s, Run(t, choice));
    hide SystemInv, Next, Enabled;
    assert [choice][1..] == [];
  }

  /** Two accesses: the child is made and the parent's lock taken. */
  lemma MakesAndLocks(s: System, t: nat, choice: Choice) returns (end: System)
    requires SystemInv(s) && t in s.threads && s.threads[t].Restricting? && s.threads[t].restrict.Make?
    requires s.threads[t].node < |s.nodes| && s.nodes[s.threads[t].node].holder.None?
    ensures Alone(s, t, [choice, choice], end) && SystemInv(end)
    ensures var (n, c) := (s.threads[t].node, |s.nodes|);
            && end.nodes == s.nodes[n := s.nodes[n].(holder := Some(t))]
                            + [Node(Some(n), false, 0, false, [], None, t, Created, false)]
            && end.threads == s.threads[t := s.threads[t].(restrict := Inside(c, n))]
  {
    assert ThreadInv(s.nodes, t, s.threads[t]);
    var made := OneStep(s, t, choice);
    assert ThreadInv(made.nodes, t, made.threads[t]);
    end := OneStep(made, t, choice);
    hide SystemInv, Next, Enabled;
    AloneOn(s, t, [choice], made, [choice], end);
    assert [choice] + [choice] == [choice, choice];
  }

  /** Three accesses under and after the lock: the child joins the list and the lock is given back. */
  lemma ListsAndUnlocks(s: System, t: nat, child: nat, choice: Choice) returns (end: System)
    requires SystemInv(s) && t in s.threads && s.threads[t].Restricting? && s.threads[t].restrict == LoadList(child)
    requires var n := s.threads[t].node;
             n < child < |s.nodes| && choice.found == s.nodes[n].children
    ensures Alone(s, t, [choice, choice, choice], end) && SystemInv(end)
    ensures var n := s.threads[t].node;
            && end.nodes == s.nodes[n := s.nodes[n].(children := s.nodes[n].children + [child], holder := None)]
                                   [child := s.nodes[child].(stage := Listed)]
            && end.threads == s.threads[t := s.threads[t].(restrict := Walk(child, n))]
  {
    assert ThreadInv(s.nodes, t, s.threads[t]);
    var loaded := OneStep(s, t, choice);
    assert ThreadInv(loaded.nodes, t, loaded.threads[t]);
    var stored := OneStep(loaded, t, choice);
    assert ThreadInv(stored.nodes, t, stored.threads[t]);
    end := OneStep(stored, t, choice);
    hide SystemInv, Next, Enabled;
    AloneOn(s, t, [choice], loaded, [choice], stored);
    AloneOn(s, t, [choice] + [choice], stored, [choice], end);
    assert [choice] + [choice] + [choice] == [choice, choice, choice];
  }

  /** The path above a node does not see what is added after it or changed but for flags. */
  lemma {:induction false} SamePath(was: seq<Node>, now: seq<Node>, at: nat)
    requires Rooted(was) && Rooted(now) && at < |was| <= |now|
    requires forall i :: 0 <= i < |was| ==> now[i].parent == was[i].parent && now[i].flagged == was[i].flagged
    ensures Revoked(now, at) == Revoked(was, at)
    decreases at
  {
    if was[at].parent.Some? { SamePath(was, now, was[at].parent.value); }
  }

  lemma InvIsRooted(s: System)
    requires SystemInv(s)
    ensures Rooted(s.nodes)
  {
  }

  /** The first half: permission, a child, the lock, and permission again. */
  lemma RestrictMakes(s: System, t: nat, node: nat, choice: Choice) returns (choices: seq<Choice>, end: System)
    requires SystemInv(s) && t in s.threads && s.threads[t].Restricting? && s.threads[t].node == node < |s.nodes|
    requires s.threads[t].restrict == Permit(node) && !Revoked(s.nodes, node) && s.nodes[node].holder.None?
    ensures Alone(s, t, choices, end) && SystemInv(end)
    ensures end.threads == s.threads[t := s.threads[t].(restrict := LoadList(|s.nodes|))]
    ensures end.nodes == s.nodes[node := s.nodes[node].(holder := Some(t))]
                         + [Node(Some(node), false, 0, false, [], None, t, Created, false)]
  {
    var first, making := PermitsUp(s, t, node, choice, None);
    var locked := MakesAndLocks(making, t, choice);
    InvIsRooted(locked);
    SamePath(s.nodes, locked.nodes, node);
    var third;
    third, end := PermitsUp(locked, t, node, choice, Some(|s.nodes|));
    hide SystemInv, Next, Enabled, Revoked, Rooted;
    AloneOn(s, t, first, making, [choice, choice], locked);
    AloneOn(s, t, first + [choice, choice], locked, third, end);
    choices := first + [choice, choice] + third;
  }

  /** The second half: the child is listed, the lock given back, and every state word passed. */
  lemma RestrictLists(s: System, t: nat, node: nat, child: nat, choice: Choice)
    returns (choices: seq<Choice>, end: System)
    requires SystemInv(s) && t in s.threads && s.threads[t].Restricting?
    requires s.threads[t].node == node < child < |s.nodes|
    requires s.threads[t].restrict == LoadList(child) && !Revoked(s.nodes, node)
    requires choice.found == s.nodes[node].children
    ensures Alone(s, t, choices, end) && SystemInv(end) && end.threads == s.threads - {t}
    ensures end.nodes == s.nodes[node := s.nodes[node].(children := s.nodes[node].children + [child], holder := None)]
                                [child := s.nodes[child].(stage := Open)]
  {
    var listed := ListsAndUnlocks(s, t, child, choice);
    InvIsRooted(listed);
    SamePath(s.nodes, listed.nodes, node);
    var rest;
    rest, end := PassesUp(listed, t, child, node, choice);
    hide SystemInv, Next, Enabled, Revoked, Rooted;
    AloneOn(s, t, [choice, choice, choice], listed, rest, end);
    choices := [choice, choice, choice] + rest;
  }

  /** With no flag on the path to the root and the list unlocked, a restrict left alone ends with
      one new open child in its parent's list, and nothing else changed. */
  lemma RestrictSucceeds(s: System, t: nat, node: nat) returns (choices: seq<Choice>, end: System)
    requires SystemInv(s) && Enabled(s, StartRestrict(t, node))
    requires !Revoked(s.nodes, node) && s.nodes[node].holder.None?
    ensures Alone(Next(s, StartRestrict(t, node)), t, choices, end) && SystemInv(end)
    ensures end.threads == s.threads
    ensures end.nodes == s.nodes[node := s.nodes[node].(children := s.nodes[node].children + [|s.nodes|])]
                         + [Node(Some(node), false, 0, false, [], None, t, Open, false)]
  {
    var (choice, begun, c) := (Choice(false, s.nodes[node].children), Next(s, StartRestrict(t, node)), |s.nodes|);
    NextHolds(s, StartRestrict(t, node));
    var first, made := RestrictMakes(begun, t, node, choice);
    InvIsRooted(made);
    SamePath(s.nodes, made.nodes, node);
    var second;
    second, end := RestrictLists(made, t, node, c, choice);
    hide SystemInv, Next, Enabled, Revoked, Rooted;
    AloneOn(begun, t, first, made, second, end);
    choices := first + second;
    assert end.threads == s.threads;
  }

  // --- Revoke ---

  lemma ListedLater(nodes: seq<Node>, n: nat)
    requires TreeInv(nodes) && n < |nodes|
    ensures forall k :: 0 <= k < |nodes[n].children| ==> n < nodes[n].children[k] < |nodes|
  {
    assert NodeInv(nodes, n);
    forall k | 0 <= k < |nodes[n].children| ensures n < nodes[n].children[k] < |nodes| {
      var c := nodes[n].children[k];
      assert c in nodes[n].children;
      assert nodes[c].parent == Some(n);
    }
  }

  /** The nodes a walk down the child lists visits from `n`, with repetitions. */
  function Weight(nodes: seq<Node>, n: nat): nat
    requires TreeInv(nodes) && n < |nodes|
    decreases |nodes| - n, 1, 0
  {
    ListedLater(nodes, n);
    1 + Weights(nodes, n, nodes[n].children)
  }

  function Weights(nodes: seq<Node>, after: nat, list: seq<nat>): nat
    requires TreeInv(nodes) && after < |nodes| && forall k :: 0 <= k < |list| ==> after < list[k] < |nodes|
    decreases |nodes| - after, 0, |list|
  {
    if list == [] then 0 else Weight(nodes, list[0]) + Weights(nodes, after, list[1..])
  }

  predicate Existing(nodes: seq<Node>, seen: seq<nat>) { forall k :: 0 <= k < |seen| ==> seen[k] < |nodes| }

  /** What a revocation that has read the lists of the first `i` collected nodes still visits. */
  function Todo(nodes: seq<Node>, seen: seq<nat>, i: nat): nat
    requires TreeInv(nodes) && i <= |seen| && Existing(nodes, seen)
    decreases |seen| - i
  {
    if i == |seen| then 0 else Weight(nodes, seen[i]) + Todo(nodes, seen, i + 1)
  }

  lemma {:induction false} TodoGrows(nodes: seq<Node>, seen: seq<nat>, i: nat, after: nat, list: seq<nat>)
    requires TreeInv(nodes) && i <= |seen| && Existing(nodes, seen) && after < |nodes|
    requires forall k :: 0 <= k < |list| ==> after < list[k] < |nodes|
    ensures Existing(nodes, seen + list)
    ensures Todo(nodes, seen + list, i) == Todo(nodes, seen, i) + Weights(nodes, after, list)
    decreases |seen| - i + |list|
  {
    hide Weight, TreeInv;
    if i < |seen| {
      TodoGrows(nodes, seen, i + 1, after, list);
      assert (seen + list)[i] == seen[i];
    } else if list == [] {
      assert seen + list == seen;
    } else {
      var (head, tail) := (seen + [list[0]], list[1..]);
      TodoGrows(nodes, head, i + 1, after, tail);
      assert head + tail == seen + list && (seen + list)[i] == list[0];
    }
  }

  /** Only flags and completion marks differ. */
  predicate SameShape(was: seq<Node>, now: seq<Node>) {
    && |now| == |was|
    && forall i :: 0 <= i < |was| ==> now[i] == was[i].(flagged := now[i].flagged, complete := now[i].complete)
  }

  /** A revocation left alone collects its whole subtree: each list is read once a visit. */
  lemma {:induction false} Collects(base: seq<Node>, s: System, t: nat, seen: seq<nat>, i: nat)
    returns (choices: seq<Choice>, end: System)
    requires TreeInv(base) && SameShape(base, s.nodes) && SystemInv(s) && t in s.threads && s.threads[t].Revoking?
    requires s.threads[t].revoke == Flag(seen, i) && i <= |seen| && Existing(base, seen)
    ensures Alone(s, t, choices, end) && SystemInv(end) && SameShape(base, end.nodes)
    ensures t in end.threads && end.threads[t].Revoking? && end.threads[t].root == s.threads[t].root
    ensures end.threads[t].revoke.Await? && end.threads[t].revoke.i == 0 && end.threads - {t} == s.threads - {t}
    decreases Todo(base, seen, i)
  {
    hide Weight, Todo, TreeInv;
    assert ThreadInv(s.nodes, t, s.threads[t]);
    if i == |seen| {
      end := OneStep(s, t, Choice(false, []));
      choices := [Choice(false, [])];
    } else {
      var list := base[seen[i]].children;
      var (first, second) := (Choice(false, []), Choice(false, list));
      var flagged := OneStep(s, t, first);
      assert ThreadInv(flagged.nodes, t, flagged.threads[t]);
      var read := OneStep(flagged, t, second);
      ListedLater(base, seen[i]);
      Shrinks(base, seen, i);
      var rest;
      rest, end := Collects(base, read, t, seen + list, i + 1);
      hide SystemInv, Next, Enabled;
      AloneOn(s, t, [first], flagged, [second], read);
      AloneOn(s, t, [first] + [second], read, rest, end);
      choices := [first] + [second] + rest;
    }
  }

  lemma Shrinks(nodes: seq<Node>, seen: seq<nat>, i: nat)
    requires TreeInv(nodes) && i < |seen| && Existing(nodes, seen)
    ensures var list := nodes[seen[i]].children;
            Existing(nodes, seen + list) && Todo(nodes, seen + list, i + 1) < Todo(nodes, seen, i)
  {
    ListedLater(nodes, seen[i]);
    TodoGrows(nodes, seen, i + 1, seen[i], nodes[seen[i]].children);
  }

  /** With no operation under way on what was collected, the waits are over at once and every
      collected node is marked complete. */
  lemma {:induction false} Finishes(s: System, t: nat) returns (choices: seq<Choice>, end: System)
    requires SystemInv(s) && t in s.threads && s.threads[t].Revoking?
    requires var pc := s.threads[t].revoke;
             && (pc.Await? || pc.Finish?)
             && forall k :: 0 <= k < |pc.seen| ==> pc.seen[k] < |s.nodes| && s.nodes[pc.seen[k]].count == 0
    requires s.threads[t].revoke.i <= |s.threads[t].revoke.seen|
    ensures Alone(s, t, choices, end) && SystemInv(end) && end.threads == s.threads - {t}
    ensures s.threads[t].root < |end.nodes| == |s.nodes| && end.nodes[s.threads[t].root].complete
    decreases s.threads[t].revoke.Await?, |s.threads[t].revoke.seen| - s.threads[t].revoke.i
  {
    var (pc, choice) := (s.threads[t].revoke, Choice(false, []));
    assert ThreadInv(s.nodes, t, s.threads[t]);
    var next := OneStep(s, t, choice);
    if pc.Finish? && pc.i == |pc.seen| {
      choices, end := [choice], next;
    } else {
      var rest;
      rest, end := Finishes(next, t);
      hide SystemInv, Next, Enabled;
      AloneOn(s, t, [choice], next, rest, end);
      choices := [choice] + rest;
      assert next.threads - {t} == s.threads - {t};
    }
  }

  /** With no operation under way below it, a revocation left alone returns, its node complete. */
  lemma RevokeSucceeds(s: System, t: nat, root: nat) returns (choices: seq<Choice>, end: System)
    requires SystemInv(s) && Enabled(s, StartRevoke(t, root)) && Rooted(s.nodes)
    requires forall d :: 0 <= d < |s.nodes| && Under(s.nodes, root, d) ==> s.nodes[d].count == 0
    ensures Alone(Next(s, StartRevoke(t, root)), t, choices, end) && SystemInv(end)
    ensures end.threads == s.threads && |end.nodes| == |s.nodes| && end.nodes[root].complete
  {
    var begun := Next(s, StartRevoke(t, root));
    NextHolds(s, StartRevoke(t, root));
    var first, waiting := Collects(s.nodes, begun, t, [root], 0);
    CollectedBelow(s.nodes, waiting, t);
    var second;
    second, end := Finishes(waiting, t);
    hide SystemInv, Next, Enabled;
    AloneOn(begun, t, first, waiting, second, end);
    choices := first + second;
  }

  lemma CollectedBelow(base: seq<Node>, s: System, t: nat)
    requires SystemInv(s) && Rooted(base) && SameShape(base, s.nodes) && t in s.threads && s.threads[t].Revoking?
    ensures Rooted(s.nodes) && s.threads[t].revoke.i <= |s.threads[t].revoke.seen|
    ensures forall k :: 0 <= k < |s.threads[t].revoke.seen| ==>
              s.threads[t].revoke.seen[k] < |base| && Under(base, s.threads[t].root, s.threads[t].revoke.seen[k])
  {
    assert ThreadInv(s.nodes, t, s.threads[t]);
    forall k | 0 <= k < |s.threads[t].revoke.seen|
      ensures s.threads[t].revoke.seen[k] < |base| && Under(base, s.threads[t].root, s.threads[t].revoke.seen[k])
    {
      SameBelow(base, s.nodes, s.threads[t].root, s.threads[t].revoke.seen[k]);
    }
  }

  lemma {:induction false} SameBelow(was: seq<Node>, now: seq<Node>, m: nat, d: nat)
    requires Rooted(was) && Rooted(now) && d < |was| <= |now|
    requires forall i :: 0 <= i < |was| ==> now[i].parent == was[i].parent
    ensures Under(was, m, d) == Under(now, m, d)
    decreases d
  {
    if was[d].parent.Some? { SameBelow(was, now, m, was[d].parent.value); }
  }

  // --- Calls fail only for cause ---

  /** Every walk under way is somewhere on the path from its node to the root. */
  predicate OnPath(nodes: seq<Node>, node: nat, at: nat) {
    Rooted(nodes) && node < |nodes| && at < |nodes| && Under(nodes, at, node)
  }

  predicate ThreadOnPath(nodes: seq<Node>, thread: Thread) {
    match thread
    case Entering(node, pc, _) => pc.Check? || pc.Recheck? ==> OnPath(nodes, node, pc.at)
    case Restricting(node, pc, _) => pc.Permit? || pc.Inside? || pc.Walk? ==> OnPath(nodes, node, pc.at)
    case Revoking(_, _) => true
  }

  predicate AllOnPath(s: System) { forall t :: t in s.threads ==> ThreadOnPath(s.nodes, s.threads[t]) }

  lemma OnPathStays(was: seq<Node>, now: seq<Node>, node: nat, at: nat)
    requires OnPath(was, node, at) && Rooted(now) && |was| <= |now|
    requires forall i :: 0 <= i < |was| ==> now[i].parent == was[i].parent
    ensures OnPath(now, node, at)
  {
    SameBelow(was, now, at, node);
  }

  lemma ParentOnPath(nodes: seq<Node>, node: nat, at: nat)
    requires OnPath(nodes, node, at) && nodes[at].parent.Some?
    ensures OnPath(nodes, node, nodes[at].parent.value)
  {
    assert Under(nodes, nodes[at].parent.value, at);
    UnderOn(nodes, nodes[at].parent.value, at, node);
  }

  lemma SelfOnPath(nodes: seq<Node>, node: nat)
    requires Rooted(nodes) && node < |nodes|
    ensures OnPath(nodes, node, node)
  {
  }

  predicate SameParents(was: seq<Node>, now: seq<Node>) {
    |was| <= |now| && forall i :: 0 <= i < |was| ==> now[i].parent == was[i].parent
  }

  lemma EnterStands(s: System, t: nat, choice: Choice)
    requires SystemInv(s) && t in s.threads && s.threads[t].Entering?
    ensures SameParents(s.nodes, NextEnter(s, t, choice).nodes)
  {
    RunThread(s, t);
    var (n, node) := (s.threads[t].node, s.nodes[s.threads[t].node]);
    hide SystemInv, ThreadInv, Revoked, Rooted, SameParents;
    PutStands(s, n, node);
    PutStands(s, n, node.(count := node.count + 1));
    PutStands(s, n, node.(count := if node.count > 0 then node.count - 1 else 0));
  }

  lemma PutStands(s: System, n: nat, node: Node)
    requires n < |s.nodes| && node.parent == s.nodes[n].parent
    ensures SameParents(s.nodes, Put(s, n, node).nodes) && SameParents(s.nodes, s.nodes)
  {
  }

  lemma EnterMovesOne(s: System, t: nat, choice: Choice)
    requires SystemInv(s) && t in s.threads && s.threads[t].Entering?
    ensures NextEnter(s, t, choice).threads - {t} == s.threads - {t}
  {
    hide SystemInv, ThreadInv, Revoked, Rooted;
  }

  lemma RestrictStands(s: System, t: nat, choice: Choice)
    requires SystemInv(s) && t in s.threads && s.threads[t].Restricting?
    ensures SameParents(s.nodes, NextRestrict(s, t, choice).nodes)
  {
    RunThread(s, t);
    hide SystemInv, Revoked, Rooted, RevokeInv;
  }

  lemma RestrictMovesOne(s: System, t: nat, choice: Choice)
    requires SystemInv(s) && t in s.threads && s.threads[t].Restricting?
    ensures NextRestrict(s, t, choice).threads - {t} == s.threads - {t}
  {
    RunThread(s, t);
    hide SystemInv, Revoked, Rooted, RevokeInv, MakerInv;
  }

  lemma RevokeStands(s: System, t: nat, choice: Choice)
    requires SystemInv(s) && t in s.threads && s.threads[t].Revoking?
    ensures SameParents(s.nodes, NextRevoke(s, t, choice).nodes)
    ensures NextRevoke(s, t, choice).threads - {t} == s.threads - {t}
  {
    RunThread(s, t);
    hide SystemInv;
  }

  function Mover(step: Step): Option<nat> { if step.DropNode? then None else Some(step.t) }

  /** No step moves a node to another parent, or any thread but its own. */
  lemma StepStands(s: System, step: Step)
    requires SystemInv(s) && Enabled(s, step)
    ensures Rooted(s.nodes) && Rooted(Next(s, step).nodes) && SameParents(s.nodes, Next(s, step).nodes)
    ensures forall t :: t in s.threads && Mover(step) != Some(t) ==>
              t in Next(s, step).threads && Next(s, step).threads[t] == s.threads[t]
    ensures forall t :: t in Next(s, step).threads && Mover(step) != Some(t) ==> t in s.threads
  {
    NextHolds(s, step);
    InvIsRooted(s);
    InvIsRooted(Next(s, step));
    hide SystemInv, NextEnter, NextRestrict, NextRevoke, Revoked, Rooted, CanRun;
    var now := Next(s, step);
    if step.Run? {
      match s.threads[step.t] {
        case Entering(_, _, _) => EnterStands(s, step.t, step.choice); EnterMovesOne(s, step.t, step.choice);
        case Restricting(_, _, _) => RestrictStands(s, step.t, step.choice); RestrictMovesOne(s, step.t, step.choice);
        case Revoking(_, _) => RevokeStands(s, step.t, step.choice);
      }
      forall t | t in s.threads && t != step.t ensures t in now.threads && now.threads[t] == s.threads[t] {
        assert t in s.threads - {step.t} && (s.threads - {step.t})[t] == s.threads[t];
      }
      forall t | t in now.threads && t != step.t ensures t in s.threads { assert t in now.threads - {step.t}; }
    }
  }

  /** A step of a walk goes to the parent, and a walk starts at the node. */
  lemma MoverOnPath(s: System, step: Step, t: nat)
    requires SystemInv(s) && Enabled(s, step) && AllOnPath(s) && Mover(step) == Some(t)
    ensures t in Next(s, step).threads ==> ThreadOnPath(s.nodes, Next(s, step).threads[t])
  {
    InvIsRooted(s);
    if step.StartEnter? || step.StartRestrict? {
      SelfOnPath(s.nodes, step.node);
    } else if step.Run? {
      assert ThreadOnPath(s.nodes, s.threads[t]);
      match s.threads[t] {
        case Entering(_, _, _) => EnterOnPath(s, t, step.choice);
        case Restricting(_, _, _) => RestrictOnPath(s, t, step.choice);
        case Revoking(_, _) => RunThread(s, t);
      }
    }
    hide SystemInv, Rooted, Revoked, RevokeInv, CanRun, Under, OnPath, NextEnter, NextRestrict;
  }

  lemma EnterOnPath(s: System, t: nat, choice: Choice)
    requires SystemInv(s) && t in s.threads && s.threads[t].Entering? && ThreadOnPath(s.nodes, s.threads[t])
    ensures var now := NextEnter(s, t, choice);
            t in now.threads ==> ThreadOnPath(s.nodes, now.threads[t])
  {
    RunThread(s, t);
    InvIsRooted(s);
    SelfOnPath(s.nodes, s.threads[t].node);
    WalkOnPath(s, s.threads[t]);
    hide SystemInv, Rooted, Revoked, OnPath, Under;
  }

  lemma RestrictOnPath(s: System, t: nat, choice: Choice)
    requires SystemInv(s) && t in s.threads && s.threads[t].Restricting? && ThreadOnPath(s.nodes, s.threads[t])
    ensures var now := NextRestrict(s, t, choice);
            t in now.threads ==> ThreadOnPath(s.nodes, now.threads[t])
  {
    RunThread(s, t);
    InvIsRooted(s);
    SelfOnPath(s.nodes, s.threads[t].node);
    WalkOnPath(s, s.threads[t]);
    hide SystemInv, Rooted, Revoked, OnPath, Under;
  }

  lemma WalkOnPath(s: System, thread: Thread)
    requires ThreadOnPath(s.nodes, thread)
    ensures thread.Entering? && (thread.enter.Check? || thread.enter.Recheck?) ==>
              && OnPath(s.nodes, thread.node, thread.enter.at)
              && (s.nodes[thread.enter.at].parent.Some? ==>
                    OnPath(s.nodes, thread.node, s.nodes[thread.enter.at].parent.value))
    ensures thread.Restricting? && (thread.restrict.Permit? || thread.restrict.Inside? || thread.restrict.Walk?) ==>
              && OnPath(s.nodes, thread.node, thread.restrict.at)
              && (s.nodes[thread.restrict.at].parent.Some? ==>
                    OnPath(s.nodes, thread.node, s.nodes[thread.restrict.at].parent.value))
  {
    hide OnPath;
    if thread.Entering? && (thread.enter.Check? || thread.enter.Recheck?) {
      InRange(s.nodes, thread.node, thread.enter.at);
      if s.nodes[thread.enter.at].parent.Some? { ParentOnPath(s.nodes, thread.node, thread.enter.at); }
    }
    if thread.Restricting? && (thread.restrict.Permit? || thread.restrict.Inside? || thread.restrict.Walk?) {
      InRange(s.nodes, thread.node, thread.restrict.at);
      if s.nodes[thread.restrict.at].parent.Some? { ParentOnPath(s.nodes, thread.node, thread.restrict.at); }
    }
  }

  lemma InRange(nodes: seq<Node>, node: nat, at: nat)
    requires OnPath(nodes, node, at)
    ensures node < |nodes| && at < |nodes| && Rooted(nodes)
  {
  }

  lemma StepOnPath(s: System, step: Step)
    requires SystemInv(s) && Enabled(s, step) && AllOnPath(s)
    ensures AllOnPath(Next(s, step))
  {
    StepStands(s, step);
    var now := Next(s, step);
    forall t | t in now.threads ensures ThreadOnPath(now.nodes, now.threads[t]) {
      if Mover(step) == Some(t) { MoverOnPath(s, step, t); }
      assert ThreadOnPath(s.nodes, now.threads[t]);
      hide SystemInv, Next, Enabled, Under, Rooted;
      ThreadStaysOnPath(s.nodes, now.nodes, now.threads[t]);
    }
  }

  lemma ThreadStaysOnPath(was: seq<Node>, now: seq<Node>, thread: Thread)
    requires ThreadOnPath(was, thread) && Rooted(now) && SameParents(was, now)
    ensures ThreadOnPath(now, thread)
  {
    hide OnPath, Rooted;
    match thread {
      case Entering(node, pc, _) => if pc.Check? || pc.Recheck? { OnPathStays(was, now, node, pc.at); }
      case Restricting(node, pc, _) =>
        if pc.Permit? || pc.Inside? || pc.Walk? { OnPathStays(was, now, node, pc.at); }
      case Revoking(_, _) =>
    }
  }

  lemma {:induction false} RunOnPath(states: seq<System>, steps: seq<Step>, i: nat)
    requires RunOf(states, steps) && states[0] == Start() && i < |states|
    ensures SystemInv(states[i]) && AllOnPath(states[i])
    decreases i
  {
    RunHolds(states, steps, i);
    hide SystemInv, Next, Enabled, ThreadOnPath;
    if i > 0 {
      RunOnPath(states, steps, i - 1);
      assert StepOf(states[i - 1], steps[i - 1], states[i - 1 + 1]);
      StepOnPath(states[i - 1], steps[i - 1]);
    }
  }

  /** A flag stands on the path from the node to the root. */
  predicate FlagAbove(nodes: seq<Node>, node: nat) {
    Rooted(nodes) && node < |nodes| && exists at :: 0 <= at < |nodes| && Under(nodes, at, node) && nodes[at].flagged
  }

  /** In every interleaving an enter ends without a live operation, or gives its operation back
      unasked, only at a step that finds a flag on its node's path to the root, a full counter,
      or, deferred, a state word changed since it was read. */
  lemma EnterFailsForCause(states: seq<System>, steps: seq<Step>, i: nat, t: nat)
    requires RunOf(states, steps) && states[0] == Start() && i < |steps|
    requires t in states[i].threads && states[i].threads[t].Entering?
    requires !states[i].threads[t].enter.Live? && !states[i].threads[t].enter.Leave?
    requires !(t in states[i + 1].threads && states[i + 1].threads[t].Entering?)
             || states[i + 1].threads[t].enter.Leave?
    ensures var (node, pc) := (states[i].threads[t].node, states[i].threads[t].enter);
            && node < |states[i].nodes|
            && (FlagAbove(states[i].nodes, node) || states[i].nodes[node].count >= ACTIVE_COUNT
                || (pc.Compare? && states[i].nodes[node].count != pc.seen))
  {
    RunOnPath(states, steps, i);
    var (s, step) := (states[i], steps[i]);
    assert StepOf(s, step, states[i + 1]);
    StepStands(s, step);
    RunThread(s, t);
    assert ThreadOnPath(s.nodes, s.threads[t]);
    SelfOnPath(s.nodes, s.threads[t].node);
    hide SystemInv, Revoked, Under, Rooted, CanRun, AllOnPath;
  }

  /** A restrict is refused under the lock, or ends, only at a step that finds a flag on its node's
      path to the root; otherwise it ends only with its child open, or after such a refusal. */
  lemma RestrictFailsForCause(states: seq<System>, steps: seq<Step>, i: nat, t: nat)
    requires RunOf(states, steps) && states[0] == Start() && i < |steps|
    requires t in states[i].threads && states[i].threads[t].Restricting?
    ensures var (node, pc) := (states[i].threads[t].node, states[i].threads[t].restrict);
            var now := states[i + 1];
            && (t !in now.threads && !(pc.Unlock? && !pc.listed) ==>
                  || FlagAbove(states[i].nodes, node)
                  || (pc.Walk? && pc.child < |now.nodes| && now.nodes[pc.child].stage.Open?
                      && now.nodes[pc.child].parent == Some(node) && !now.nodes[pc.child].dropped))
            && (t in now.threads && now.threads[t].Restricting? && now.threads[t].restrict.Unlock?
                && !now.threads[t].restrict.listed && !pc.Unlock? ==>
                  FlagAbove(states[i].nodes, node))
  {
    RunOnPath(states, steps, i);
    var (s, step) := (states[i], steps[i]);
    assert StepOf(s, step, states[i + 1]);
    StepStands(s, step);
    RunThread(s, t);
    assert ThreadOnPath(s.nodes, s.threads[t]);
    hide SystemInv, Revoked, Under, Rooted, CanRun, AllOnPath;
  }
}
