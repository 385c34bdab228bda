/**
  The mutex object of one node, updated in place by its message handlers and its `acquire` thread.
  Every method is tied to the matching transition of `LamportNode`, over which the protocol is proved.
 */
module LamportMutex {
  import opened Wrappers
  import opened Order
  import opened LamportNode

  class Mutex {
    const selfId: Id
    const leaseDuration: nat
    var lamport: int
    var currentRequestTs: Option<int>
    var acks: set<Id>
    var deferred: set<Ticket>
    var lastHolder: Option<Lease>
    var inCs: bool
    var dynamicNodeIds: set<Id>

    function View(): NodeState
      reads this
    {
      NodeState(selfId, leaseDuration, lamport, currentRequestTs, acks, deferred, lastHolder, inCs, dynamicNodeIds)
    }

    constructor (selfId: Id, nodeIds: set<Id>)
      ensures View() == Initial(selfId, nodeIds, 1000)
    {
      this.selfId, leaseDuration := selfId, 1000;
      lamport, currentRequestTs := 0, None;
      acks, deferred, lastHolder, inCs := {}, {}, None, false;
      dynamicNodeIds := nodeIds + {selfId};
    }

    function RequiredAcks(): nat
      reads this
    {
      |dynamicNodeIds|
    }

    /** Adds the sender and everyone it knows; reports whether anyone was new. */
    method UpdateMembership(from: Id, known: Option<set<Id>>) returns (changed: bool)
      modifies this`dynamicNodeIds
      ensures dynamicNodeIds == Learned(old(dynamicNodeIds), from, known)
      ensures changed == Learns(old(dynamicNodeIds), from, known)
    {
      changed := false;
      if from !in dynamicNodeIds {
        dynamicNodeIds := dynamicNodeIds + {from};
        changed := true;
      }
      if known.Some? {
        var rest := known.value;
        while rest != {}
          invariant rest <= known.value
          invariant dynamicNodeIds == old(dynamicNodeIds) + {from} + (known.value - rest)
          invariant changed <==> dynamicNodeIds != old(dynamicNodeIds)
          decreases rest
        {
          var id :| id in rest;
          if id !in dynamicNodeIds {
            dynamicNodeIds := dynamicNodeIds + {id};
            changed := true;
          }
          rest := rest - {id};
        }
      }
    }

    /** Grants or defers a request, once its clock and membership news are taken in. */
    method Decide(now: int, from: Id, ts: int) returns (reply: bool)
      modifies this`lastHolder, this`deferred
      ensures reply == Grants(old(View()), now, Ticket(ts, from))
      ensures reply ==> deferred == set t | t in old(deferred) && t.id != from
      ensures reply ==> lastHolder == Some(Lease(from, ts, GrantDeadline(old(View()), now, Ticket(ts, from))))
      ensures !reply ==> deferred == old(deferred) + {Ticket(ts, from)} && lastHolder == old(lastHolder)
    {
      reply := false;
      if inCs {
        deferred := deferred + {Ticket(ts, from)};
      } else {
        var deferredByLease := false;
        if lastHolder.Some? && lastHolder.value.holder != from && lastHolder.value.deadline > now {
          deferred := deferred + {Ticket(ts, from)};
          deferredByLease := true;
        }
        if !deferredByLease {
          var grantNow;
          match currentRequestTs {
            case None => grantNow := true;
            case Some(myTs) =>
              grantNow := if ts < myTs then true else if ts == myTs then Less(from, selfId) else false;
          }
          if grantNow {
            var deadline := now + leaseDuration;
            if lastHolder.Some? && lastHolder.value.holder == from && lastHolder.value.ts == ts {
              deadline := lastHolder.value.deadline;
            }
            lastHolder := Some(Lease(from, ts, deadline));
            deferred := set t | t in deferred && t.id != from;
            reply := true;
          } else {
            deferred := deferred + {Ticket(ts, from)};
          }
        }
      }
    }

    /** Handles a request; `reply` says whether a grant is sent back, `gossip` whether the grown
        membership is announced. */
    method HandleRequest(now: int, from: Id, ts: int, known: Option<set<Id>>) returns (reply: bool, gossip: bool)
      modifies this
      ensures View() == OnRequest(old(View()), now, from, ts, known)
      ensures reply == Grants(old(View()), now, Ticket(ts, from))
      ensures gossip == Learns(old(dynamicNodeIds), from, known)
    {
      lamport := (if lamport < ts then ts else lamport) + 1;
      gossip := UpdateMembership(from, known);
      reply := Decide(now, from, ts);
    }

    method HandleReply(from: Id, membershipOnly: bool, known: Option<set<Id>>) returns (gossip: bool)
      modifies this
      ensures View() == OnReply(old(View()), from, membershipOnly, known)
      ensures gossip == Learns(old(dynamicNodeIds), from, known)
    {
      gossip := UpdateMembership(from, known);
      if currentRequestTs.Some? && !membershipOnly {
        acks := acks + {from};
      }
    }

    /** Handles a release; `granted` is the request whose owner is sent the grant that follows. */
    method HandleRelease(now: int, from: Id, known: Option<set<Id>>) returns (granted: Option<Ticket>, gossip: bool)
      modifies this
      ensures View() == OnRelease(old(View()), now, from, known)
      ensures granted == NextGrant(old(View()))
      ensures gossip == Learns(old(dynamicNodeIds), from, known)
    {
      gossip := UpdateMembership(from, known);
      if lastHolder.Some? && lastHolder.value.holder == from {
        lastHolder := None;
      }
      granted := None;
      if deferred != {} {
        var first := First(deferred);
        deferred := deferred - {first};
        lastHolder := Some(Lease(first.id, first.ts, now + leaseDuration));
        granted := Some(first);
      }
    }

    /** The start of `acquire`: a fresh timestamp, and the own ack alone. */
    method BeginAcquire() returns (ts: int)
      modifies this
      ensures View() == Begin(old(View()))
      ensures currentRequestTs == Some(ts)
    {
      lamport := lamport + 1;
      ts := lamport;
      currentRequestTs := Some(ts);
      acks := {};
      acks := acks + {selfId};
    }

    /** One pass of the wait loop; the clock is read again for the new lease. */
    method TryEnter(ts: int, now: int, later: int) returns (entered: bool)
      modifies this
      ensures entered == MayEnter(old(View()), now)
      ensures View() == if entered then Enter(old(View()), ts, later) else old(View())
    {
      entered := false;
      if |acks| >= RequiredAcks() {
        var canEnter;
        match lastHolder {
          case None => canEnter := true;
          case Some(lease) => canEnter := if lease.holder == selfId then true else lease.deadline <= now;
        }
        if canEnter {
          inCs := true;
          lastHolder := Some(Lease(selfId, ts, later + leaseDuration));
          entered := true;
        }
      }
    }

    /** The end of `acquire`: the vote goes to the earliest deferred request, or to nobody. */
    method FinishAcquire(now: int) returns (granted: Option<Ticket>)
      modifies this
      ensures View() == Finish(old(View()), now)
      ensures granted == NextGrant(old(View()))
    {
      granted := None;
      if deferred != {} {
        var first := First(deferred);
        deferred := deferred - {first};
        lastHolder := Some(Lease(first.id, first.ts, now + leaseDuration));
        granted := Some(first);
      } else {
        lastHolder := None;
      }
      inCs := false;
      currentRequestTs := None;
      acks := {};
    }

    /** Forgets every node that could not be reached, together with its deferred requests and its
        hold on the vote. Acks already counted stay. */
    method PruneUnreachable(unreachable: seq<Id>)
      modifies this
      ensures View() == Prune(old(View()), set id | id in unreachable)
    {
      var i := 0;
      while i < |unreachable|
        invariant 0 <= i <= |unreachable|
        invariant View() == Prune(old(View()), set id | id in unreachable[..i])
      {
        var id := unreachable[i];
        dynamicNodeIds := dynamicNodeIds - {id};
        deferred := set t | t in deferred && t.id != id;
        if lastHolder.Some? && lastHolder.value.holder == id {
          lastHolder := None;
        }
        assert unreachable[..i + 1] == unreachable[..i] + [id];
        i := i + 1;
      }
      assert unreachable[..i] == unreachable;
    }

    /** Sends the request to every other member exactly once and prunes those it did not reach. */
    method BroadcastRequest(delivered: Id -> bool) returns (tried: seq<Id>)
      modifies this
      ensures forall id :: id in tried <==> id in old(dynamicNodeIds) && id != selfId
      ensures forall i, j :: 0 <= i < j < |tried| ==> tried[i] != tried[j]
      ensures View() == Prune(old(View()), set id | id in old(dynamicNodeIds) && id != selfId && !delivered(id))
    {
      tried := [];
      var unreachable := [];
      var ids := dynamicNodeIds;
      while ids != {}
        invariant ids <= dynamicNodeIds && View() == old(View())
        invariant forall id :: id in tried <==> id in dynamicNodeIds - ids && id != selfId
        invariant forall id :: id in unreachable <==> id in tried && !delivered(id)
        invariant forall i, j :: 0 <= i < j < |tried| ==> tried[i] != tried[j]
        decreases ids
      {
        var id :| id in ids;
        assert id !in tried;
        ids := ids - {id};
        if id != selfId {
          tried := tried + [id];
          if !delivered(id) {
            unreachable := unreachable + [id];
          }
        }
      }
      assert (set id | id in unreachable) == (set id | id in dynamicNodeIds && id != selfId && !delivered(id));
      PruneUnreachable(unreachable);
    }
  }
}
