/**
  One participant of the lease-based Lamport mutex: its state and the transitions its message
  handlers and its `acquire` thread make. Clock readings are parameters.
 */
module LamportNode {
  import opened Wrappers
  import opened Order

  type Id = string

  /** A request, ordered by timestamp and then by the requester's id. */
  datatype Ticket = Ticket(ts: int, id: Id)

  predicate Before(a: Ticket, b: Ticket) {
    a.ts < b.ts || (a.ts == b.ts && Less(a.id, b.id))
  }

  /** The vote a node has given away: to whom, for which request, and until when it is binding. */
  datatype Lease = Lease(holder: Id, ts: int, deadline: int)

  datatype NodeState = NodeState(
    selfId: Id,
    leaseDuration: nat,
    lamport: int,
    request: Option<int>,
    acks: set<Id>,
    deferred: set<Ticket>,
    lastHolder: Option<Lease>,
    inCs: bool,
    members: set<Id>)
  {
    predicate HeldBy(id: Id) {
      lastHolder.Some? && lastHolder.value.holder == id
    }

    /** The vote is recorded as given to `id` for this very request. */
    predicate Backs(id: Id, ts: Option<int>) {
      HeldBy(id) && Some(lastHolder.value.ts) == ts
    }

    predicate HeldByOther(id: Id) {
      lastHolder.Some? && lastHolder.value.holder != id
    }

    /** Some other node than `id` holds this node's vote under a lease still running at `now`. */
    predicate LeaseBlocks(id: Id, now: int) {
      HeldByOther(id) && lastHolder.value.deadline > now
    }
  }

  // ----- the ticket order -----

  lemma BeforeAsymmetric(a: Ticket, b: Ticket)
    ensures !(Before(a, b) && Before(b, a))
  {
    LessAsymmetric(a.id, b.id);
  }

  lemma BeforeTransitive(a: Ticket, b: Ticket, c: Ticket)
    requires Before(a, b) && Before(b, c)
    ensures Before(a, c)
  {
    if a.ts == b.ts == c.ts {
      LessTransitive(a.id, b.id, c.id);
    }
  }

  lemma BeforeTotal(a: Ticket, b: Ticket)
    ensures Before(a, b) || a == b || Before(b, a)
  {
    LessTotal(a.id, b.id);
  }

  predicate IsFirst(t: Ticket, d: set<Ticket>) {
    t in d && forall u | u in d :: u == t || Before(t, u)
  }

  lemma {:induction false} FirstExists(d: set<Ticket>)
    requires d != {}
    ensures exists t :: IsFirst(t, d)
    decreases |d|
  {
    var t :| t in d;
    if d == {t} {
      assert IsFirst(t, d);
    } else {
      var rest := d - {t};
      FirstExists(rest);
      var f :| IsFirst(f, rest);
      BeforeTotal(t, f);
      if Before(t, f) {
        forall u | u in d ensures u == t || Before(t, u) {
          if u != t && u != f { BeforeTransitive(t, f, u); }
        }
        assert IsFirst(t, d);
      } else {
        assert IsFirst(f, d);
      }
    }
  }

  lemma FirstUnique(t: Ticket, u: Ticket, d: set<Ticket>)
    requires IsFirst(t, d) && IsFirst(u, d)
    ensures t == u
  {
    BeforeAsymmetric(t, u);
  }

  /** The earliest deferred request: what iterating the ordered set yields first. */
  function First(d: set<Ticket>): (t: Ticket)
    requires d != {}
    ensures IsFirst(t, d)
  {
    FirstExists(d);
    assert forall t, u | IsFirst(t, d) && IsFirst(u, d) :: t == u by {
      forall t, u | IsFirst(t, d) && IsFirst(u, d) ensures t == u { FirstUnique(t, u, d); }
    }
    var t :| t in d && IsFirst(t, d);
    t
  }

  // ----- transitions -----

  function Initial(selfId: Id, nodeIds: set<Id>, leaseDuration: nat): NodeState {
    NodeState(selfId, leaseDuration, 0, None, {}, {}, None, false, nodeIds + {selfId})
  }

  /** Membership after hearing from `from`, who says it knows `known`. */
  function Learned(members: set<Id>, from: Id, known: Option<set<Id>>): set<Id> {
    members + {from} + known.GetOr({})
  }

  predicate Learns(members: set<Id>, from: Id, known: Option<set<Id>>) {
    Learned(members, from, known) != members
  }

  /** Would the node grant a request of `ticket` at `now`, neither critical section nor lease
      nor an earlier request of its own being in the way? */
  predicate Grants(n: NodeState, now: int, ticket: Ticket) {
    && !n.inCs
    && !n.LeaseBlocks(ticket.id, now)
    && (n.request.None? || Before(ticket, Ticket(n.request.value, n.selfId)))
  }

  /** The deadline a grant at `now` records: a retry of the request already granted keeps its own. */
  function GrantDeadline(n: NodeState, now: int, ticket: Ticket): int {
    if n.HeldBy(ticket.id) && n.lastHolder.value.ts == ticket.ts
    then n.lastHolder.value.deadline
    else now + n.leaseDuration
  }

  function OnRequest(n: NodeState, now: int, from: Id, ts: int, known: Option<set<Id>>): NodeState {
    var heard := n.(
      lamport := (if n.lamport < ts then ts else n.lamport) + 1,
      members := Learned(n.members, from, known));
    var ticket := Ticket(ts, from);
    if Grants(n, now, ticket) then
      heard.(
        lastHolder := Some(Lease(from, ts, GrantDeadline(n, now, ticket))),
        deferred := (set t | t in n.deferred && t.id != from))
    else
      heard.(deferred := n.deferred + {ticket})
  }

  function OnReply(n: NodeState, from: Id, membershipOnly: bool, known: Option<set<Id>>): NodeState {
    n.(
      members := Learned(n.members, from, known),
      acks := if n.request.Some? && !membershipOnly then n.acks + {from} else n.acks)
  }

  /** Give the vote to the earliest deferred request, if there is one. */
  function GrantNext(n: NodeState, now: int): NodeState {
    if n.deferred == {} then n
    else
      var t := First(n.deferred);
      n.(deferred := n.deferred - {t},
         lastHolder := Some(Lease(t.id, t.ts, now + n.leaseDuration)))
  }

  function NextGrant(n: NodeState): Option<Ticket> {
    if n.deferred == {} then None else Some(First(n.deferred))
  }

  function OnRelease(n: NodeState, now: int, from: Id, known: Option<set<Id>>): NodeState {
    var heard := n.(
      members := Learned(n.members, from, known),
      lastHolder := if n.HeldBy(from) then None else n.lastHolder);
    GrantNext(heard, now)
  }

  function Begin(n: NodeState): NodeState {
    n.(lamport := n.lamport + 1, request := Some(n.lamport + 1), acks := {n.selfId})
  }

  /** The entry test of `acquire`: enough acks, and the own vote not bound to someone else. */
  predicate MayEnter(n: NodeState, now: int) {
    |n.acks| >= |n.members| && !n.LeaseBlocks(n.selfId, now)
  }

  function Enter(n: NodeState, ts: int, now: int): NodeState {
    n.(inCs := true, lastHolder := Some(Lease(n.selfId, ts, now + n.leaseDuration)))
  }

  function Finish(n: NodeState, now: int): NodeState {
    GrantNext(n.(lastHolder := None), now).(inCs := false, request := None, acks := {})
  }

  function Prune(n: NodeState, gone: set<Id>): NodeState {
    n.(members := n.members - gone,
       deferred := (set t | t in n.deferred && t.id !in gone),
       lastHolder := if n.lastHolder.Some? && n.lastHolder.value.holder in gone then None else n.lastHolder)
  }
}
