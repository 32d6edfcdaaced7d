/** Either backend may stand behind the same handles: run side by side they answer alike. */
module Backends {
  import opened Wire
  import opened RetainedLog
  import opened StaticStream
  import opened DynamicStream

  datatype Reply<T> =
    | JoinReply(joining: Joining)
    | SendReply(sending: Sending)
    | ReceiveReply(receiving: Receiving<T>)
    | LeaveReply

  /** What the one unbounded log replies. */
  function Replies<T>(l: Log<T>, ops: seq<Op<T>>): seq<Reply<T>>
    decreases |ops|
  {
    if ops == [] then [] else [ReplyOf(l, ops[0])] + Replies(Apply(l, ops[0]), ops[1..])
  }

  function ReplyOf<T>(l: Log<T>, op: Op<T>): Reply<T> {
    match op
    case DoJoin(required) => JoinReply(Join(l, required).1)
    case DoSend(value) => SendReply(Send(l, value).1)
    case DoReceive(index, id) => ReceiveReply(Receive(l, index, id).1)
    case _ => LeaveReply
  }

  /** What users of both backends can do: handles leave once, and neither revokes nor evicts. */
  predicate Shared<T>(op: Op<T>) { op.DoJoin? || op.DoSend? || op.DoReceive? || op.DoLeave? }

  /** Nothing outside the log's own cursors is revoked. */
  predicate Unrevoked(cursors: seq<Option<Cursor>>) {
    forall k :: 0 <= k < |cursors| && cursors[k].Some? ==> !cursors[k].value.revoked
  }

  lemma OneMoreReply<T>(l: Log<T>, ops: seq<Op<T>>, k: nat, replies: seq<Reply<T>>)
    requires k < |ops|
    ensures replies + Replies(l, ops[k..]) == replies + [ReplyOf(l, ops[k])] + Replies(Apply(l, ops[k]), ops[k + 1..])
  {
    assert ops[k..][0] == ops[k] && ops[k..][1..] == ops[k + 1..];
  }

  /** The static ring answers any calls as the unbounded log does. */
  method RunRing<T>(latest: bool, capacity: nat, slots: nat, ops: seq<Op<T>>) returns (replies: seq<Reply<T>>)
    requires 0 < capacity && (latest ==> capacity == 1) && forall k :: 0 <= k < |ops| ==> Shared(ops[k])
    ensures replies == Replies(Empty(latest, capacity, slots), ops)
  {
    var ring := new Ring<T>(latest, capacity, slots);
    replies := [];
    assert ops[0..] == ops && ops[|ops|..] == [];
    assert forall l: Log<T> :: Replies(l, []) == [];
    hide Replies, Apply, ReplyOf, LogInv;
    for k := 0 to |ops|
      invariant fresh(ring) && fresh(ring.values) && fresh(ring.cursors)
      invariant ring.Valid() && ring.closed.None? && |ring.Model().cursors| == slots
      invariant Replies(Empty(latest, capacity, slots), ops) == replies + Replies(ring.Model(), ops[k..])
    {
      OneMoreReply(ring.Model(), ops, k, replies);
      var reply := RingStep(ring, ops[k]);
      replies := replies + [reply];
    }
  }

  method RingStep<T>(ring: Ring<T>, op: Op<T>) returns (reply: Reply<T>)
    requires ring.Valid() && ring.closed.None? && Shared(op)
    modifies ring`nextGeneration, ring`tail, ring`sent, ring`changed, ring.values, ring.cursors
    ensures ring.Valid() && ring.Model() == Apply(old(ring.Model()), op) && reply == ReplyOf(old(ring.Model()), op)
  {
    match op {
      case DoJoin(required) =>
        var answer := ring.Subscribe(required);
        reply := JoinReply(answer.value);
      case DoSend(value) =>
        var answer := ring.SendNow(value);
        reply := SendReply(answer.value);
      case DoReceive(index, id) =>
        var answer := ring.RecvNow(index, id);
        reply := ReceiveReply(answer.value);
      case DoLeave(index, id) =>
        if index < ring.cursors.Length {
          ring.DropReceiver(index, id);
        }
        reply := LeaveReply;
    }
  }

  /** The deque between calls of unrevoked users that leave nothing prepared or reserved. */
  ghost predicate Plain<T>(deque: Deque<T>, limits: seq<nat>)
    reads deque
  {
    && deque.Valid() && !deque.closed && !deque.needsRoom && deque.retired.None? && Unrevoked(deque.subscribers)
    && |deque.accounts| == |limits|
    && forall p :: 0 <= p < |limits| ==>
         deque.accounts[p].limit == limits[p] && deque.accounts[p].prepared == 0 && deque.accounts[p].reserved == 0
  }

  /** So does the owned deque, for any publishers, up to a send by one whose allowance is used
      up; one that exceeds the deque's capacity never is. */
  method RunDeque<T>(latest: bool, capacity: nat, slots: nat, limits: seq<nat>, owners: seq<nat>, ops: seq<Op<T>>)
    returns (replies: seq<Reply<T>>, deque: Deque<T>)
    requires 0 < capacity && (latest ==> capacity == 1) && forall k :: 0 <= k < |ops| ==> Shared(ops[k])
    requires |owners| == |ops| && forall k :: 0 <= k < |owners| ==> owners[k] < |limits|
    ensures fresh(deque) && Plain(deque, limits)
    ensures replies <= Replies(Empty(latest, capacity, slots), ops) && |replies| <= |ops|
    ensures |replies| == |ops| ==> replies == Replies(Empty(latest, capacity, slots), ops)
    ensures |replies| < |ops| ==>
              ops[|replies|].DoSend? && Exhausts(deque.accounts, owners[|replies|])
                && limits[owners[|replies|]] <= capacity
  {
    deque := new Deque<T>(latest, capacity, slots, limits);
    replies := [];
    assert ops[0..] == ops && ops[|ops|..] == [];
    assert forall l: Log<T> :: Replies(l, []) == [];
    hide Replies, Apply, ReplyOf, LogInv;
    for k := 0 to |ops|
      invariant fresh(deque) && Plain(deque, limits) && |replies| == k && deque.capacity == capacity
      invariant Replies(Empty(latest, capacity, slots), ops) == replies + Replies(deque.Model(), ops[k..])
    {
      if ops[k].DoSend? && Exhausts(deque.accounts, owners[k]) {
        AllowanceUsed(deque, limits, owners[k]);
        return;
      }
      OneMoreReply(deque.Model(), ops, k, replies);
      var reply := DequeStep(deque, limits, owners[k], ops[k]);
      replies := replies + [reply];
    }
  }

  predicate Exhausts(accounts: seq<Account>, owner: nat) {
    owner < |accounts| && accounts[owner].used >= accounts[owner].limit
  }

  lemma {:induction false} OwnedAtMost<T>(entries: seq<Entry<T>>, owner: nat)
    ensures Owned(entries, owner) <= |entries|
    decreases |entries|
  {
    if entries != [] { OwnedAtMost(entries[1..], owner); }
  }

  lemma AllowanceUsed<T>(deque: Deque<T>, limits: seq<nat>, owner: nat)
    requires Plain(deque, limits) && Exhausts(deque.accounts, owner)
    ensures limits[owner] <= deque.capacity
  {
    OwnedAtMost(deque.entries, owner);
  }

  method DequeStep<T>(deque: Deque<T>, limits: seq<nat>, owner: nat, op: Op<T>) returns (reply: Reply<T>)
    requires Plain(deque, limits) && Shared(op) && owner < |limits| && (op.DoSend? ==> !Exhausts(deque.accounts, owner))
    modifies deque
    ensures Plain(deque, limits) && deque.Model() == Apply(old(deque.Model()), op)
            && reply == ReplyOf(old(deque.Model()), op)
  {
    hide Balanced, Retains, LogInv, Unread;
    match op {
      case DoJoin(required) =>
        var answer := deque.Subscribe(required);
        reply := JoinReply(answer.value);
      case DoSend(value) =>
        var admission := deque.SendNow(owner, value);
        reply := SendReply(if admission.Admitted? then Accepted else admission.sending);
      case DoReceive(index, id) =>
        var answer := deque.ReceiveNow(index, id);
        reply := ReceiveReply(answer.value);
      case DoLeave(index, id) =>
        if index < |deque.subscribers| && deque.subscribers[index].Some? && deque.subscribers[index].value.id == id {
          deque.DropReceiver(index, id);
        }
        reply := LeaveReply;
    }
  }
}
