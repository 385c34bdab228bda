/** Timestamps: the order they put on requests, and what leases do with retries. */
module MutexOrder {
  import opened Wrappers
  import opened LamportNode
  import opened MutexSystem

  // ----- timestamps over whole runs, whatever fails -----

  lemma ClockStep(s: System, a: Action, x: Id)
    requires Enabled(s, a) && x in s.sites
    ensures x in Apply(s, a).sites
    ensures s.sites[x].node.lamport <= Apply(s, a).sites[x].node.lamport
  {
  }

  lemma {:induction false} ClockMonotone(trace: seq<System>, acts: seq<Action>, i: nat, j: nat, x: Id)
    requires IsRun(trace, acts) && i <= j < |trace| && x in trace[i].sites
    ensures x in trace[j].sites && trace[i].sites[x].node.lamport <= trace[j].sites[x].node.lamport
    decreases j - i
  {
    if i < j {
      ClockMonotone(trace, acts, i, j - 1, x);
      ClockStep(trace[j - 1], acts[j - 1], x);
    }
  }

  /** The request recorded by the start at position `i`. */
  ghost function Issued(trace: seq<System>, acts: seq<Action>, i: nat): Ticket
    requires IsRun(trace, acts) && i < |acts| && acts[i].Start?
  {
    assert trace[i + 1] == Apply(trace[i], acts[i]);
    Ticket(trace[i + 1].sites[acts[i].y].node.request.value, acts[i].y)
  }

  /** No two requests of a run are the same ticket; a node's own come in increasing order. */
  lemma TicketsUnique(trace: seq<System>, acts: seq<Action>, i: nat, j: nat)
    requires IsRun(trace, acts) && i < j < |acts| && acts[i].Start? && acts[j].Start?
    ensures Issued(trace, acts, i) != Issued(trace, acts, j)
    ensures acts[i].y == acts[j].y ==> Issued(trace, acts, i).ts < Issued(trace, acts, j).ts
  {
    var y := acts[i].y;
    if y == acts[j].y {
      assert trace[i + 1] == Apply(trace[i], acts[i]) && trace[j + 1] == Apply(trace[j], acts[j]);
      ClockMonotone(trace, acts, i + 1, j, y);
    }
  }

  /** A node's request is later than every request it handled before. */
  lemma RequestAfterHandled(trace: seq<System>, acts: seq<Action>, i: nat, j: nat)
    requires IsRun(trace, acts) && i < j < |acts|
    requires acts[i].TakeRequest? && acts[j].Start? && acts[i].x == acts[j].y
    ensures trace[i].LinkOf(acts[i].y, acts[i].x).wire[0].ts < Issued(trace, acts, j).ts
  {
    assert trace[i + 1] == Apply(trace[i], acts[i]) && trace[j + 1] == Apply(trace[j], acts[j]);
    ClockMonotone(trace, acts, i + 1, j, acts[i].x);
  }

  /** Of two nodes that both ask, neither bound by a critical section or a lease, exactly one grants
      the other. */
  lemma ExactlyOneYields(a: NodeState, b: NodeState, nowA: int, nowB: int)
    requires a.selfId != b.selfId && a.request.Some? && b.request.Some? && !a.inCs && !b.inCs
    requires !a.LeaseBlocks(b.selfId, nowA) && !b.LeaseBlocks(a.selfId, nowB)
    ensures Grants(a, nowA, Ticket(b.request.value, b.selfId)) != Grants(b, nowB, Ticket(a.request.value, a.selfId))
  {
    var ta, tb := Ticket(a.request.value, a.selfId), Ticket(b.request.value, b.selfId);
    BeforeTotal(ta, tb);
    BeforeAsymmetric(ta, tb);
  }

  // ----- leases and retries at one node -----

  /** What can reach a node, or its own `acquire` thread do, short of a release, an exit or a prune. */
  datatype Event =
    | Asked(now: int, from: Id, ts: int, known: Option<set<Id>>)
    | Answered(from: Id, membershipOnly: bool, known: Option<set<Id>>)
    | Begins
    | TriesToEnter(ts: int, now: int, later: int)

  function React(n: NodeState, e: Event): NodeState {
    match e
    case Asked(now, from, ts, known) => OnRequest(n, now, from, ts, known)
    case Answered(from, membershipOnly, known) => OnReply(n, from, membershipOnly, known)
    case Begins => Begin(n)
    case TriesToEnter(ts, now, later) => if MayEnter(n, now) then Enter(n, ts, later) else n
  }

  function ReactAll(n: NodeState, es: seq<Event>): NodeState
    decreases |es|
  {
    if es == [] then n else ReactAll(React(n, es[0]), es[1..])
  }

  /** Anyone but the holder acts before the deadline; the holder only repeats the request it has
      been granted, whenever it likes. */
  ghost predicate WithinLease(e: Event, lease: Lease) {
    match e
    case Asked(now, from, ts, _) => if from == lease.holder then ts == lease.ts else now < lease.deadline
    case TriesToEnter(_, now, _) => now < lease.deadline
    case _ => true
  }

  ghost predicate GrantsAnother(n: NodeState, e: Event, lease: Lease) {
    e.Asked? && e.from != lease.holder && Grants(n, e.now, Ticket(e.ts, e.from))
  }

  /** However often the granted request is repeated and whoever else asks meanwhile, the recorded
      lease stays what it was, nobody else is granted and the node itself does not enter. */
  lemma {:induction false} RetriesKeepLease(n: NodeState, es: seq<Event>, lease: Lease)
    requires n.lastHolder == Some(lease) && lease.holder != n.selfId && !n.inCs
    requires forall e | e in es :: WithinLease(e, lease)
    ensures ReactAll(n, es).lastHolder == Some(lease) && !ReactAll(n, es).inCs
    ensures forall i | 0 <= i < |es| :: !GrantsAnother(ReactAll(n, es[..i]), es[i], lease)
    decreases |es|
  {
    if es != [] {
      var next := React(n, es[0]);
      assert WithinLease(es[0], lease);
      assert next.lastHolder == Some(lease) && next.selfId == n.selfId && !next.inCs;
      RetriesKeepLease(next, es[1..], lease);
      forall i | 0 <= i < |es| ensures !GrantsAnother(ReactAll(n, es[..i]), es[i], lease) {
        if i > 0 {
          assert es[..i][1..] == es[1..][..i - 1] && es[..i][0] == es[0];
          assert !GrantsAnother(ReactAll(next, es[1..][..i - 1]), es[1..][i - 1], lease);
        }
      }
    }
  }

  /** The lease a grant creates runs from that moment, for a request the voter had not granted yet. */
  lemma GrantStartsLease(n: NodeState, now: int, from: Id, ts: int, known: Option<set<Id>>, es: seq<Event>)
    requires Grants(n, now, Ticket(ts, from)) && from != n.selfId
    requires n.lastHolder.Some? ==> n.lastHolder.value.holder != from || n.lastHolder.value.ts != ts
    requires forall e | e in es :: WithinLease(e, Lease(from, ts, now + n.leaseDuration))
    ensures ReactAll(OnRequest(n, now, from, ts, known), es).lastHolder == Some(Lease(from, ts, now + n.leaseDuration))
  {
    RetriesKeepLease(OnRequest(n, now, from, ts, known), es, Lease(from, ts, now + n.leaseDuration));
  }
}
