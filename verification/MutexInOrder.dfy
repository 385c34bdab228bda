/**
  Runs of the mutex system in which all messages from one node to another arrive in the order they
  were sent: requests, releases, grants and announcements alike.
 */
module MutexInOrder {
  import opened Wrappers
  import opened LamportNode
  import opened MutexSystem

  /** Sender and receiver. */
  type Channel = (Id, Id)

  datatype Msg = Posted(wire: Wire) | Granted(grant: Grant) | Told(gossip: Gossip)

  /** The messages on their way, by channel, the oldest first. */
  type Queues = Channel -> seq<Msg>

  /** The message a step receives, if any, with its channel, and those it sends, at most one on each. */
  datatype Traffic = Traffic(taken: Option<(Channel, Msg)>, sent: map<Channel, Msg>)

  const QUIET := Traffic(None, map[])

  function GrantTo(x: Id, ticket: Option<Ticket>, known: set<Id>): map<Channel, Msg> {
    match ticket
    case None => map[]
    case Some(t) => map[(x, t.id) := Granted(Grant(t.ts, known))]
  }

  function RequestTraffic(s: System, y: Id, x: Id, now: int): Traffic
    requires Enabled(s, TakeRequest(y, x, now))
  {
    var w := s.LinkOf(y, x).wire[0];
    var ticket := Ticket(w.ts, y);
    Traffic(Some(((y, x), Posted(w))),
            GrantTo(x, if Grants(s.sites[x].node, now, ticket) then Some(ticket) else None, Moved(s, TakeRequest(y, x, now)).node.members))
  }

  function ReleaseTraffic(s: System, y: Id, x: Id, now: int): Traffic
    requires Enabled(s, TakeRelease(y, x, now))
  {
    Traffic(Some(((y, x), Posted(s.LinkOf(y, x).wire[0]))),
            GrantTo(x, NextGrant(s.sites[x].node), Moved(s, TakeRelease(y, x, now)).node.members))
  }

  function GossipTo(n: NodeState): map<Channel, Msg> {
    map id | id in n.members && id != n.selfId :: (n.selfId, id) := Told(Gossip(n.selfId, id, n.members))
  }

  function TrafficOf(s: System, a: Action): Traffic
    requires Enabled(s, a)
  {
    match a
    case SendRequest(y, x) => Traffic(None, map[(y, x) := Posted(Request(s.sites[y].node.request.value, s.sites[y].pc.known))])
    case SendRelease(y, x) => Traffic(None, map[(y, x) := Posted(Release(s.sites[y].pc.known))])
    case ExitCs(y, _) => Traffic(None, GrantTo(y, NextGrant(s.sites[y].node), s.sites[y].node.members))
    case TakeRequest(y, x, now) => RequestTraffic(s, y, x, now)
    case TakeRelease(y, x, now) => ReleaseTraffic(s, y, x, now)
    case TakeGrant(y, x, g) => Traffic(Some(((x, y), Granted(g))), map[])
    case SendGossip(x) => Traffic(None, GossipTo(s.sites[x].node))
    case TakeGossip(m) => Traffic(Some(((m.from, m.to), Told(m))), map[])
    case _ => QUIET
  }

  /** What is received is the oldest message of its channel. */
  predicate TakesOldest(q: Queues, t: Traffic) {
    t.taken.Some? ==> q(t.taken.value.0) != [] && q(t.taken.value.0)[0] == t.taken.value.1
  }

  predicate Takes(t: Traffic, c: Channel) {
    t.taken.Some? && t.taken.value.0 == c
  }

  function Added(t: Traffic, c: Channel): seq<Msg> {
    if c in t.sent then [t.sent[c]] else []
  }

  ghost predicate Passes(q: Queues, t: Traffic, q': Queues) {
    && TakesOldest(q, t)
    && forall c :: q'(c) == (if Takes(t, c) then q(c)[1..] else q(c)) + Added(t, c)
  }

  ghost predicate InOrderBy(trace: seq<System>, acts: seq<Action>, queues: seq<Queues>) {
    && |trace| == |queues| == |acts| + 1
    && (forall c :: queues[0](c) == [])
    && forall i | 0 <= i < |acts| :: Enabled(trace[i], acts[i]) && Passes(queues[i], TrafficOf(trace[i], acts[i]), queues[i + 1])
  }

  /** All messages between any two nodes arrive in order. */
  ghost predicate InOrder(trace: seq<System>, acts: seq<Action>) {
    exists queues :: InOrderBy(trace, acts, queues)
  }

  // ----- the queues hold the messages of the system -----

  function Wires(q: seq<Msg>): seq<Wire> {
    if q == [] then []
    else (if q[0].Posted? then [q[0].wire] else []) + Wires(q[1..])
  }

  function Votes(q: seq<Msg>): multiset<Grant> {
    if q == [] then multiset{}
    else (if q[0].Granted? then multiset{q[0].grant} else multiset{}) + Votes(q[1..])
  }

  lemma Unfold(q: seq<Msg>, m: Msg) returns (rest: seq<Msg>)
    requires q != []
    ensures rest == q[1..] && (q + [m])[1..] == rest + [m] && (q + [m])[0] == q[0]
  {
    rest := q[1..];
  }

  lemma {:induction false} WiresAppended(q: seq<Msg>, m: Msg)
    ensures Wires(q + [m]) == Wires(q) + Wires([m])
  {
    if q == [] {
      assert q + [m] == [m];
    } else {
      var rest := Unfold(q, m);
      WiresAppended(rest, m);
      var first := if q[0].Posted? then [q[0].wire] else [];
      assert first + (Wires(rest) + Wires([m])) == (first + Wires(rest)) + Wires([m]);
    }
  }

  lemma {:induction false} VotesAppended(q: seq<Msg>, m: Msg)
    ensures Votes(q + [m]) == Votes(q) + Votes([m])
  {
    if q == [] {
      assert q + [m] == [m];
    } else {
      var rest := Unfold(q, m);
      VotesAppended(rest, m);
    }
  }

  lemma Single(m: Msg)
    ensures Wires([m]) == (if m.Posted? then [m.wire] else [])
    ensures Votes([m]) == (if m.Granted? then multiset{m.grant} else multiset{})
  {
    assert [m][1..] == [];
  }

  ghost predicate CarriesAt(s: System, q: Queues, y: Id, x: Id) {
    s.LinkOf(y, x).wire == Wires(q((y, x))) && s.LinkOf(y, x).grants == Votes(q((x, y)))
  }

  ghost predicate Carries(s: System, q: Queues) {
    forall y, x :: CarriesAt(s, q, y, x)
  }

  /** The link between two nodes changes by what is received and sent on its two channels. */
  ghost predicate FollowsAt(l: Link, l': Link, t: Traffic, y: Id, x: Id) {
    && (Takes(t, (y, x)) && t.taken.value.1.Posted? ==> l.wire != [] && l.wire[0] == t.taken.value.1.wire)
    && l'.wire == (if Takes(t, (y, x)) && t.taken.value.1.Posted? then l.wire[1..] else l.wire) + Wires(Added(t, (y, x)))
    && l'.grants == (if Takes(t, (x, y)) && t.taken.value.1.Granted? then l.grants - multiset{t.taken.value.1.grant} else l.grants)
                    + Votes(Added(t, (x, y)))
  }

  ghost predicate Follows(s: System, m: System, t: Traffic) {
    forall y, x :: FollowsAt(s.LinkOf(y, x), m.LinkOf(y, x), t, y, x)
  }

  lemma QueueAfter(q: Queues, t: Traffic, q': Queues, c: Channel)
    requires Passes(q, t, q')
    ensures Wires(q'(c)) == (if Takes(t, c) && t.taken.value.1.Posted? then Wires(q(c))[1..] else Wires(q(c))) + Wires(Added(t, c))
    ensures Votes(q'(c)) == (if Takes(t, c) && t.taken.value.1.Granted? then Votes(q(c)) - multiset{t.taken.value.1.grant} else Votes(q(c)))
                            + Votes(Added(t, c))
  {
    var left := if Takes(t, c) then q(c)[1..] else q(c);
    if c in t.sent {
      WiresAppended(left, t.sent[c]);
      VotesAppended(left, t.sent[c]);
    } else {
      assert left + [] == left;
    }
  }

  /** Queues that pass messages in order keep holding those of the system. */
  lemma CarriesOn(s: System, m: System, t: Traffic, q: Queues, q': Queues)
    requires Carries(s, q) && Follows(s, m, t) && Passes(q, t, q')
    ensures Carries(m, q')
  {
    forall y, x ensures CarriesAt(m, q', y, x) {
      assert CarriesAt(s, q, y, x) && FollowsAt(s.LinkOf(y, x), m.LinkOf(y, x), t, y, x);
      QueueAfter(q, t, q', (y, x));
      QueueAfter(q, t, q', (x, y));
    }
  }

  // ----- each step's links follow its traffic -----

  lemma GrantFollows(s: System, x: Id, ticket: Option<Ticket>, known: set<Id>)
    ensures Follows(s, s.PutGrant(x, ticket, known), Traffic(None, GrantTo(x, ticket, known)))
  {
    if ticket.Some? { Single(Granted(Grant(ticket.value.ts, known))); }
  }

  lemma TakenThenSent(l: Link, l1: Link, l2: Link, c: Channel, w: Wire, sent: map<Channel, Msg>, y: Id, x: Id)
    requires c == (y, x) ==> l.wire != [] && l.wire[0] == w && l1.wire == l.wire[1..]
    requires c != (y, x) ==> l1.wire == l.wire
    requires l1.grants == l.grants && FollowsAt(l1, l2, Traffic(None, sent), y, x)
    ensures FollowsAt(l, l2, Traffic(Some((c, Posted(w))), sent), y, x)
  {
  }

  /** A message taken off the wire, and the grant it leads to. */
  lemma HandledFollows(s: System, y: Id, x: Id, seen: int, ticket: Option<Ticket>, known: set<Id>)
    requires s.LinkOf(y, x).wire != []
    ensures
      var l := s.LinkOf(y, x);
      var m := s.PutLink(y, x, l.(wire := l.wire[1..], seen := seen)).PutGrant(x, ticket, known);
      Follows(s, m, Traffic(Some(((y, x), Posted(l.wire[0]))), GrantTo(x, ticket, known)))
  {
    var l := s.LinkOf(y, x);
    var taken := s.PutLink(y, x, l.(wire := l.wire[1..], seen := seen));
    var m, sent := taken.PutGrant(x, ticket, known), GrantTo(x, ticket, known);
    GrantFollows(taken, x, ticket, known);
    forall v, w ensures FollowsAt(s.LinkOf(v, w), m.LinkOf(v, w), Traffic(Some(((y, x), Posted(l.wire[0]))), sent), v, w) {
      assert FollowsAt(taken.LinkOf(v, w), m.LinkOf(v, w), Traffic(None, sent), v, w);
      TakenThenSent(s.LinkOf(v, w), taken.LinkOf(v, w), m.LinkOf(v, w), (y, x), l.wire[0], sent, v, w);
    }
  }

  lemma PostedFollows(s: System, y: Id, x: Id, w: Wire)
    ensures Follows(s, s.PutLink(y, x, s.LinkOf(y, x).(wire := s.LinkOf(y, x).wire + [w])), Traffic(None, map[(y, x) := Posted(w)]))
  {
    Single(Posted(w));
  }

  lemma CountedFollows(s: System, y: Id, x: Id, g: Grant)
    ensures Follows(s, s.PutLink(y, x, s.LinkOf(y, x).(grants := s.LinkOf(y, x).grants - multiset{g})), Traffic(Some(((x, y), Granted(g))), map[]))
  {
  }

  lemma GossipFollows(s: System, m: System, t: Traffic)
    requires m.links == s.links
    requires t.taken.Some? ==> t.taken.value.1.Told?
    requires forall c | c in t.sent :: t.sent[c].Told?
    ensures Follows(s, m, t)
  {
    forall c | c in t.sent ensures Wires([t.sent[c]]) == [] && Votes([t.sent[c]]) == multiset{} { Single(t.sent[c]); }
  }

  lemma RequestFollows(s: System, y: Id, x: Id, now: int)
    requires Enabled(s, TakeRequest(y, x, now))
    ensures Follows(s, Carried(s, TakeRequest(y, x, now)), RequestTraffic(s, y, x, now))
  {
    var w := s.LinkOf(y, x).wire[0];
    var ticket := Ticket(w.ts, y);
    HandledFollows(s, y, x, w.ts, if Grants(s.sites[x].node, now, ticket) then Some(ticket) else None, Moved(s, TakeRequest(y, x, now)).node.members);
  }

  lemma ReleaseFollows(s: System, y: Id, x: Id, now: int)
    requires Enabled(s, TakeRelease(y, x, now))
    ensures Follows(s, Carried(s, TakeRelease(y, x, now)), ReleaseTraffic(s, y, x, now))
  {
    HandledFollows(s, y, x, s.LinkOf(y, x).seen, NextGrant(s.sites[x].node), Moved(s, TakeRelease(y, x, now)).node.members);
  }

  lemma SendFollows(s: System, a: Action)
    requires Enabled(s, a) && !a.TakeRequest? && !a.TakeRelease?
    ensures Follows(s, Carried(s, a), TrafficOf(s, a))
  {
    if a.SendRequest? {
      PostedFollows(s, a.y, a.x, Request(s.sites[a.y].node.request.value, s.sites[a.y].pc.known));
    } else if a.SendRelease? {
      PostedFollows(s, a.y, a.x, Release(s.sites[a.y].pc.known));
    } else if a.ExitCs? {
      GrantFollows(s, a.y, NextGrant(s.sites[a.y].node), s.sites[a.y].node.members);
    } else if a.TakeGrant? {
      CountedFollows(s, a.y, a.x, a.grant);
    } else {
      GossipFollows(s, Carried(s, a), TrafficOf(s, a));
    }
  }

  lemma StepFollows(s: System, a: Action)
    requires Enabled(s, a)
    ensures Follows(s, Apply(s, a), TrafficOf(s, a))
  {
    assert Follows(s, Carried(s, a), TrafficOf(s, a)) by {
      if a.TakeRequest? {
        RequestFollows(s, a.y, a.x, a.now);
      } else if a.TakeRelease? {
        ReleaseFollows(s, a.y, a.x, a.now);
      } else {
        SendFollows(s, a);
      }
    }
    SiteApart(s, Carried(s, a), TrafficOf(s, a), Mover(a), Moved(s, a));
  }

  lemma SiteApart(s: System, m: System, t: Traffic, z: Id, site: Site)
    requires Follows(s, m, t)
    ensures Follows(s, m.PutSite(z, site), t)
  {
    forall y, x ensures FollowsAt(s.LinkOf(y, x), m.PutSite(z, site).LinkOf(y, x), t, y, x) {
      assert FollowsAt(s.LinkOf(y, x), m.LinkOf(y, x), t, y, x);
    }
  }
}
