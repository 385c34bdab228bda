/**
  A system of mutex nodes: the nodes, the messages under way between them and the steps of all their
  threads. A run is any interleaving of these steps.

  Requests and releases from one node to another are sent by the sender's `acquire` thread alone and
  travel in order. Grants are sent by whichever thread decided them after it left the lock, so they
  travel unordered; each carries the timestamp of the request it answers, which the wire format does
  not. Membership announcements are unordered too.
 */
module MutexSystem {
  import opened Wrappers
  import opened LamportNode

  datatype Wire =
    | Request(ts: int, known: set<Id>)
    | Release(known: set<Id>)

  datatype Grant = Grant(round: int, known: set<Id>)

  datatype Gossip = Gossip(from: Id, to: Id, known: set<Id>)

  /** Where the `acquire` thread of a node is. */
  datatype Pc =
    | Idle
    | Begun
    | Asking(to: set<Id>, known: set<Id>, failed: set<Id>)
    | Waiting
    | Critical
    | ReleaseDue
    | Releasing(to: set<Id>, known: set<Id>)

  /** A node, its `acquire` thread, and its membership announcements: owed, and sent so far. */
  datatype Site = Site(node: NodeState, pc: Pc, gossipDue: nat, gossipSent: nat)

  /** Everything between a requester and a voter: the requester's requests and releases under way,
      the voter's grants under way, and the latest of the requests the voter has handled. */
  datatype Link = Link(wire: seq<Wire>, grants: multiset<Grant>, seen: int)

  const EMPTY_LINK := Link([], multiset{}, 0)

  datatype System = System(sites: map<Id, Site>, links: map<(Id, Id), Link>, gossip: multiset<Gossip>) {
    /** The link from requester `y` to voter `x`. */
    function LinkOf(y: Id, x: Id): Link {
      if (y, x) in links then links[(y, x)] else EMPTY_LINK
    }

    function PutSite(x: Id, site: Site): System {
      this.(sites := sites[x := site])
    }

    function PutLink(y: Id, x: Id, link: Link): System {
      this.(links := links[(y, x) := link])
    }

    /** Puts the grant of voter `x` for `ticket`, if any, on its way. */
    function PutGrant(x: Id, ticket: Option<Ticket>, known: set<Id>): System {
      if ticket.None? then this
      else
        var y := ticket.value.id;
        var l := LinkOf(y, x);
        PutLink(y, x, l.(grants := l.grants + multiset{Grant(ticket.value.ts, known)}))
    }
  }

  datatype Action =
    | Start(y: Id)
    | Broadcast(y: Id)
    | SendRequest(y: Id, x: Id)
    | FailRequest(y: Id, x: Id)
    | Settle(y: Id)
    | EnterCs(y: Id, now: int, later: int)
    | ExitCs(y: Id, now: int)
    | BeginRelease(y: Id)
    | SendRelease(y: Id, x: Id)
    | Return(y: Id)
    | TakeRequest(y: Id, x: Id, now: int)
    | TakeGrant(y: Id, x: Id, grant: Grant)
    | TakeRelease(y: Id, x: Id, now: int)
    | SendGossip(x: Id)
    | TakeGossip(msg: Gossip)

  predicate Enabled(s: System, a: Action) {
    match a
    case Start(y) => y in s.sites && s.sites[y].pc.Idle?
    case Broadcast(y) => y in s.sites && (s.sites[y].pc.Begun? || s.sites[y].pc.Waiting?)
    case SendRequest(y, x) => CanSendRequest(s, y, x)
    case FailRequest(y, x) => CanSendRequest(s, y, x)
    case Settle(y) => y in s.sites && s.sites[y].pc.Asking? && s.sites[y].pc.to == {}
    case EnterCs(y, now, _) => y in s.sites && s.sites[y].pc.Waiting? && MayEnter(s.sites[y].node, now)
    case ExitCs(y, _) => y in s.sites && s.sites[y].pc.Critical?
    case BeginRelease(y) => y in s.sites && s.sites[y].pc.ReleaseDue?
    case SendRelease(y, x) =>
      y in s.sites && s.sites[y].pc.Releasing? && x in s.sites[y].pc.to
    case Return(y) => y in s.sites && s.sites[y].pc.Releasing? && s.sites[y].pc.to == {}
    case TakeRequest(y, x, _) =>
      x in s.sites && s.LinkOf(y, x).wire != [] && s.LinkOf(y, x).wire[0].Request?
    case TakeGrant(y, x, g) => y in s.sites && g in s.LinkOf(y, x).grants
    case TakeRelease(y, x, _) =>
      x in s.sites && s.LinkOf(y, x).wire != [] && s.LinkOf(y, x).wire[0].Release?
    case SendGossip(x) => x in s.sites && s.sites[x].gossipDue > 0
    case TakeGossip(m) => m in s.gossip && m.to in s.sites
  }

  predicate CanSendRequest(s: System, y: Id, x: Id) {
    && y in s.sites
    && s.sites[y].pc.Asking?
    && x in s.sites[y].pc.to
    && s.sites[y].node.request.Some?
  }

  /** The site once its node took a message in: a grown membership has to be announced. */
  function Heard(site: Site, node: NodeState): Site {
    site.(node := node,
          gossipDue := if node.members != site.node.members then site.gossipDue + 1 else site.gossipDue)
  }

  function Announcements(n: NodeState): multiset<Gossip> {
    multiset(set id | id in n.members && id != n.selfId :: Gossip(n.selfId, id, n.members))
  }

  /** The node that takes a step. */
  function Mover(a: Action): Id {
    match a
    case TakeRequest(_, x, _) => x
    case TakeRelease(_, x, _) => x
    case SendGossip(x) => x
    case TakeGossip(m) => m.to
    case Start(y) => y
    case Broadcast(y) => y
    case SendRequest(y, _) => y
    case FailRequest(y, _) => y
    case Settle(y) => y
    case EnterCs(y, _, _) => y
    case ExitCs(y, _) => y
    case BeginRelease(y) => y
    case SendRelease(y, _) => y
    case Return(y) => y
    case TakeGrant(y, _, _) => y
  }

  /** What a step does at the node that takes it. */
  function Moved(s: System, a: Action): Site
    requires Enabled(s, a)
  {
    var site := s.sites[Mover(a)];
    var n, pc := site.node, site.pc;
    match a
    case Start(y) => site.(node := Begin(n), pc := Begun)
    case Broadcast(y) => site.(pc := Asking(n.members - {y}, n.members, {}))
    case SendRequest(y, x) => site.(pc := Asking(pc.to - {x}, pc.known, pc.failed))
    case FailRequest(y, x) => site.(pc := Asking(pc.to - {x}, pc.known, pc.failed + {x}))
    case Settle(y) => site.(node := Prune(n, pc.failed), pc := Waiting)
    case EnterCs(y, _, later) => site.(node := Enter(n, n.request.GetOr(0), later), pc := Critical)
    case ExitCs(y, now) => site.(node := Finish(n, now), pc := ReleaseDue)
    case BeginRelease(y) => site.(pc := Releasing(n.members - {y}, n.members))
    case SendRelease(y, x) => site.(pc := Releasing(pc.to - {x}, pc.known))
    case Return(y) => site.(pc := Idle)
    case TakeRequest(y, x, now) =>
      var w := s.LinkOf(y, x).wire[0];
      Heard(site, OnRequest(n, now, y, w.ts, Some(w.known)))
    case TakeGrant(y, x, g) => Heard(site, OnReply(n, x, false, Some(g.known)))
    case TakeRelease(y, x, now) =>
      Heard(site, OnRelease(n, now, y, Some(s.LinkOf(y, x).wire[0].known)))
    case SendGossip(x) => site.(gossipDue := site.gossipDue - 1, gossipSent := site.gossipSent + 1)
    case TakeGossip(m) => Heard(site, OnReply(n, m.from, true, Some(m.known)))
  }

  /** What a step does to the messages under way. */
  function Carried(s: System, a: Action): System
    requires Enabled(s, a)
  {
    match a
    case SendRequest(y, x) =>
      var site, l := s.sites[y], s.LinkOf(y, x);
      s.PutLink(y, x, l.(wire := l.wire + [Request(site.node.request.value, site.pc.known)]))
    case SendRelease(y, x) =>
      var l := s.LinkOf(y, x);
      s.PutLink(y, x, l.(wire := l.wire + [Release(s.sites[y].pc.known)]))
    case ExitCs(y, now) =>
      s.PutGrant(y, NextGrant(s.sites[y].node), s.sites[y].node.members)
    case TakeRequest(y, x, now) =>
      var l := s.LinkOf(y, x);
      var ticket := Ticket(l.wire[0].ts, y);
      s.PutLink(y, x, l.(wire := l.wire[1..], seen := ticket.ts))
       .PutGrant(x, if Grants(s.sites[x].node, now, ticket) then Some(ticket) else None, Moved(s, a).node.members)
    case TakeGrant(y, x, g) =>
      var l := s.LinkOf(y, x);
      s.PutLink(y, x, l.(grants := l.grants - multiset{g}))
    case TakeRelease(y, x, now) =>
      var l := s.LinkOf(y, x);
      s.PutLink(y, x, l.(wire := l.wire[1..]))
       .PutGrant(x, NextGrant(s.sites[x].node), Moved(s, a).node.members)
    case SendGossip(x) => s.(gossip := s.gossip + Announcements(s.sites[x].node))
    case TakeGossip(m) => s.(gossip := s.gossip - multiset{m})
    case _ => s
  }

  function Apply(s: System, a: Action): System
    requires Enabled(s, a)
  {
    Carried(s, a).PutSite(Mover(a), Moved(s, a))
  }

  // ----- runs -----

  predicate InitialSite(x: Id, site: Site) {
    && site.node == Initial(x, site.node.members, site.node.leaseDuration)
    && site.pc == Idle && site.gossipDue == 0 && site.gossipSent == 0
  }

  /** Nothing has happened yet; every node knows itself and whomever it was told of. */
  predicate InitialSystem(s: System) {
    && (forall x | x in s.sites :: InitialSite(x, s.sites[x]))
    && (forall p | p in s.links :: s.links[p] == EMPTY_LINK)
    && s.gossip == multiset{}
  }

  /** Every node knows exactly the nodes there are. */
  predicate FullyKnown(s: System) {
    forall x | x in s.sites :: s.sites[x].node.members == s.sites.Keys
  }

  predicate IsRun(trace: seq<System>, acts: seq<Action>) {
    && |trace| == |acts| + 1
    && InitialSystem(trace[0])
    && forall i | 0 <= i < |acts| :: Enabled(trace[i], acts[i]) && trace[i + 1] == Apply(trace[i], acts[i])
  }

  // ----- assumptions on the steps of a run -----

  /** No send fails. */
  predicate Delivered(a: Action) {
    !a.FailRequest?
  }

  /** Nobody acts on the lapse of a lease it gave to another node. */
  predicate LeasesHold(s: System, a: Action)
    requires Enabled(s, a)
  {
    match a
    case EnterCs(y, now, _) => s.sites[y].node.HeldByOther(y) ==> s.sites[y].node.LeaseBlocks(y, now)
    case TakeRequest(y, x, now) =>
      !s.sites[x].node.inCs && s.sites[x].node.HeldByOther(y) ==> s.sites[x].node.LeaseBlocks(y, now)
    case _ => true
  }

  /** A grant that arrives while a request is pending finds its voter's vote still given to that very
      request, whichever request the grant was sent for. */
  predicate GrantsBacked(s: System, a: Action)
    requires Enabled(s, a)
  {
    a.TakeGrant? && s.sites[a.y].node.request.Some? ==>
      a.x in s.sites && s.sites[a.x].node.Backs(a.y, s.sites[a.y].node.request)
  }

  /** No request is broadcast twice in its round. */
  predicate SentOnce(s: System, a: Action)
    requires Enabled(s, a)
  {
    a.Broadcast? ==> s.sites[a.y].pc.Begun?
  }
}
