/** Membership: how far gossip can go, and what the count of acks says. */
module MutexMembership {
  import opened Wrappers
  import opened LamportNode
  import opened MutexSystem
  import opened MutexInvariant

  /** A site of a system that only ever heard of `all`, and that knew `first` at the start. */
  ghost predicate SiteKnows(x: Id, s: Site, all: set<Id>, first: set<Id>) {
    var n := s.node;
    && n.selfId == x && x in n.members && n.members <= all && first <= n.members
    && n.acks <= n.members
    && (forall t | t in n.deferred :: t.id in all)
    && (s.pc.Asking? ==> s.pc.to <= all && s.pc.known <= all && s.pc.failed == {})
    && (s.pc.Releasing? ==> s.pc.to <= all && s.pc.known <= all)
    && s.gossipSent + s.gossipDue + |all - n.members| <= |all - first|
  }

  ghost predicate LinkWithin(s: System, all: set<Id>, y: Id, x: Id) {
    && LinkKnows(s.LinkOf(y, x), all)
    && (s.LinkOf(y, x) == EMPTY_LINK || (y in all && x in all))
  }

  ghost predicate MessagesWithin(s: System, all: set<Id>) {
    && (forall y, x :: LinkWithin(s, all, y, x))
    && (forall m | m in s.gossip :: m.from in all && m.known <= all)
  }

  ghost predicate KnowsWithin(s: System, all: set<Id>, first: map<Id, set<Id>>) {
    && s.sites.Keys == first.Keys
    && (forall x :: SiteKnowsAt(s, all, first, x))
    && MessagesWithin(s, all)
  }

  ghost predicate SiteKnowsAt(s: System, all: set<Id>, first: map<Id, set<Id>>, x: Id) {
    x in s.sites && x in first ==> SiteKnows(x, s.sites[x], all, first[x])
  }

  lemma HeardKnows(x: Id, s: Site, all: set<Id>, first: set<Id>, node: NodeState, from: Id, known: Option<set<Id>>)
    requires SiteKnows(x, s, all, first)
    requires from in all && known.GetOr({}) <= all
    requires node.selfId == x && node.members == Learned(s.node.members, from, known)
    requires node.acks <= s.node.acks + {from}
    requires forall t | t in node.deferred :: t.id in all
    ensures SiteKnows(x, Heard(s, node), all, first)
  {
    if node.members != s.node.members {
      var id :| id in node.members && id !in s.node.members;
      assert all - node.members <= all - s.node.members - {id};
      SubsetSize(all - node.members, all - s.node.members - {id});
    }
  }

  lemma SubsetSize(a: set<Id>, b: set<Id>)
    requires a <= b
    ensures |a| <= |b|
  {
    assert b == a + (b - a);
  }

  lemma RequestKnows(s: System, y: Id, x: Id, now: int, all: set<Id>, first: set<Id>)
    requires Enabled(s, TakeRequest(y, x, now)) && SiteKnows(x, s.sites[x], all, first) && LinkWithin(s, all, y, x)
    ensures SiteKnows(x, Moved(s, TakeRequest(y, x, now)), all, first)
  {
    var site, w := s.sites[x], s.LinkOf(y, x).wire[0];
    HeardKnows(x, site, all, first, OnRequest(site.node, now, y, w.ts, Some(w.known)), y, Some(w.known));
  }

  lemma ReleaseKnows(s: System, y: Id, x: Id, now: int, all: set<Id>, first: set<Id>)
    requires Enabled(s, TakeRelease(y, x, now)) && SiteKnows(x, s.sites[x], all, first) && LinkWithin(s, all, y, x)
    ensures SiteKnows(x, Moved(s, TakeRelease(y, x, now)), all, first)
  {
    var site, w := s.sites[x], s.LinkOf(y, x).wire[0];
    HeardKnows(x, site, all, first, OnRelease(site.node, now, y, Some(w.known)), y, Some(w.known));
  }

  lemma GrantKnows(s: System, y: Id, x: Id, g: Grant, all: set<Id>, first: set<Id>)
    requires Enabled(s, TakeGrant(y, x, g)) && SiteKnows(y, s.sites[y], all, first) && LinkWithin(s, all, y, x)
    ensures SiteKnows(y, Moved(s, TakeGrant(y, x, g)), all, first)
  {
    HeardKnows(y, s.sites[y], all, first, OnReply(s.sites[y].node, x, false, Some(g.known)), x, Some(g.known));
  }

  lemma GossipKnows(s: System, m: Gossip, all: set<Id>, first: set<Id>)
    requires Enabled(s, TakeGossip(m)) && SiteKnows(m.to, s.sites[m.to], all, first) && m.from in all && m.known <= all
    ensures SiteKnows(m.to, Moved(s, TakeGossip(m)), all, first)
  {
    HeardKnows(m.to, s.sites[m.to], all, first, OnReply(s.sites[m.to].node, m.from, true, Some(m.known)), m.from, Some(m.known));
  }

  ghost predicate Hears(a: Action) {
    a.TakeRequest? || a.TakeRelease? || a.TakeGrant? || a.TakeGossip?
  }

  lemma ThreadKnows(s: System, a: Action, all: set<Id>, first: set<Id>)
    requires Enabled(s, a) && Delivered(a) && !Hears(a) && SiteKnows(Mover(a), s.sites[Mover(a)], all, first)
    ensures SiteKnows(Mover(a), Moved(s, a), all, first)
  {
  }

  lemma MoverKnows(s: System, a: Action, all: set<Id>, first: map<Id, set<Id>>)
    requires KnowsWithin(s, all, first) && Enabled(s, a) && Delivered(a) && Mover(a) in s.sites
    ensures SiteKnows(Mover(a), Moved(s, a), all, first[Mover(a)])
  {
    assert SiteKnowsAt(s, all, first, Mover(a));
    if a.TakeGossip? {
      GossipKnows(s, a.msg, all, first[a.msg.to]);
    } else if Hears(a) {
      assert LinkWithin(s, all, a.y, a.x);
      if a.TakeRequest? {
        RequestKnows(s, a.y, a.x, a.now, all, first[a.x]);
      } else if a.TakeRelease? {
        ReleaseKnows(s, a.y, a.x, a.now, all, first[a.x]);
      } else {
        GrantKnows(s, a.y, a.x, a.grant, all, first[a.y]);
      }
    } else {
      ThreadKnows(s, a, all, first[Mover(a)]);
    }
  }

  lemma PutLinkWithin(s: System, s': System, all: set<Id>, y: Id, x: Id)
    requires MessagesWithin(s, all)
    requires forall v, w | v != y || w != x :: s'.LinkOf(v, w) == s.LinkOf(v, w)
    requires y in all && x in all && LinkKnows(s'.LinkOf(y, x), all)
    ensures forall v, w :: LinkWithin(s', all, v, w)
  {
    forall v, w ensures LinkWithin(s', all, v, w) {
      assert LinkWithin(s, all, v, w);
    }
  }

  lemma PutGrantWithin(s: System, all: set<Id>, x: Id, ticket: Option<Ticket>, known: set<Id>)
    requires MessagesWithin(s, all) && x in all && known <= all
    requires ticket.Some? ==> ticket.value.id in all
    ensures MessagesWithin(s.PutGrant(x, ticket, known), all)
  {
    if ticket.Some? {
      assert LinkWithin(s, all, ticket.value.id, x);
      PutLinkWithin(s, s.PutGrant(x, ticket, known), all, ticket.value.id, x);
    }
  }

  lemma HandledWithin(s: System, y: Id, x: Id, taken: Link, ticket: Option<Ticket>, known: set<Id>, all: set<Id>)
    requires MessagesWithin(s, all) && y in all && x in all && LinkKnows(taken, all) && known <= all
    requires ticket.Some? ==> ticket.value.id in all
    ensures MessagesWithin(s.PutLink(y, x, taken).PutGrant(x, ticket, known), all)
  {
    PutLinkWithin(s, s.PutLink(y, x, taken), all, y, x);
    PutGrantWithin(s.PutLink(y, x, taken), all, x, ticket, known);
  }

  lemma HandlerMessages(s: System, a: Action, all: set<Id>)
    requires Enabled(s, a) && (a.TakeRequest? || a.TakeRelease?)
    requires MessagesWithin(s, all) && Moved(s, a).node.members <= all && a.x in all
    requires forall t | t in s.sites[a.x].node.deferred :: t.id in all
    ensures MessagesWithin(Carried(s, a), all)
  {
    var l, n, known := s.LinkOf(a.y, a.x), s.sites[a.x].node, Moved(s, a).node.members;
    assert LinkWithin(s, all, a.y, a.x);
    if a.TakeRequest? {
      var ticket := Ticket(l.wire[0].ts, a.y);
      HandledWithin(s, a.y, a.x, l.(wire := l.wire[1..], seen := ticket.ts),
                    if Grants(n, a.now, ticket) then Some(ticket) else None, known, all);
    } else {
      HandledWithin(s, a.y, a.x, l.(wire := l.wire[1..]), NextGrant(n), known, all);
    }
  }

  lemma SenderMessages(s: System, a: Action, all: set<Id>, first: set<Id>)
    requires Enabled(s, a) && (a.SendRequest? || a.SendRelease? || a.TakeGrant?)
    requires MessagesWithin(s, all) && SiteKnows(a.y, s.sites[a.y], all, first)
    ensures MessagesWithin(Carried(s, a), all)
  {
    assert LinkWithin(s, all, a.y, a.x);
    PutLinkWithin(s, Carried(s, a), all, a.y, a.x);
  }

  lemma GossipMessages(s: System, a: Action, all: set<Id>, first: set<Id>)
    requires Enabled(s, a) && Mover(a) in s.sites && Carried(s, a).links == s.links
    requires MessagesWithin(s, all) && SiteKnows(Mover(a), s.sites[Mover(a)], all, first)
    ensures MessagesWithin(Carried(s, a), all)
  {
    var m := Carried(s, a);
    assert forall v, w :: m.LinkOf(v, w) == s.LinkOf(v, w);
    forall v, w ensures LinkWithin(m, all, v, w) { assert LinkWithin(s, all, v, w); }
  }

  lemma StepMessages(s: System, a: Action, all: set<Id>, first: map<Id, set<Id>>)
    requires KnowsWithin(s, all, first) && Enabled(s, a) && Mover(a) in s.sites
    requires SiteKnows(Mover(a), Moved(s, a), all, first[Mover(a)])
    ensures MessagesWithin(Carried(s, a), all)
  {
    var z := Mover(a);
    assert SiteKnowsAt(s, all, first, z);
    if a.TakeRequest? || a.TakeRelease? {
      HandlerMessages(s, a, all);
    } else if a.SendRequest? || a.SendRelease? || a.TakeGrant? {
      SenderMessages(s, a, all, first[z]);
    } else if a.ExitCs? {
      PutGrantWithin(s, all, z, NextGrant(s.sites[z].node), s.sites[z].node.members);
    } else {
      GossipMessages(s, a, all, first[z]);
    }
  }

  lemma KnowsStep(s: System, a: Action, all: set<Id>, first: map<Id, set<Id>>)
    requires KnowsWithin(s, all, first) && Enabled(s, a) && Delivered(a)
    ensures KnowsWithin(Apply(s, a), all, first)
  {
    var z, m, s' := Mover(a), Carried(s, a), Apply(s, a);
    CarriedSites(s, a);
    MoverKnows(s, a, all, first);
    StepMessages(s, a, all, first);
    SitePut(s, m, z, Moved(s, a), all, first);
  }

  lemma SitePut(s: System, m: System, z: Id, site: Site, all: set<Id>, first: map<Id, set<Id>>)
    requires KnowsWithin(s, all, first) && z in s.sites && m.sites == s.sites && MessagesWithin(m, all)
    requires SiteKnows(z, site, all, first[z])
    ensures KnowsWithin(m.PutSite(z, site), all, first)
  {
    var s' := m.PutSite(z, site);
    assert s'.sites.Keys == s.sites.Keys;
    forall x ensures SiteKnowsAt(s', all, first, x) { assert SiteKnowsAt(s, all, first, x); }
    forall v, w ensures LinkWithin(s', all, v, w) { assert LinkWithin(m, all, v, w); }
  }

  lemma CarriedSites(s: System, a: Action)
    requires Enabled(s, a)
    ensures Mover(a) in s.sites && Carried(s, a).sites == s.sites
  {
    if a.TakeRequest? {
      var l, ticket := s.LinkOf(a.y, a.x), Ticket(s.LinkOf(a.y, a.x).wire[0].ts, a.y);
      var m := s.PutLink(a.y, a.x, l.(wire := l.wire[1..], seen := ticket.ts));
      assert m.sites == s.sites;
    } else if a.TakeRelease? {
      var l := s.LinkOf(a.y, a.x);
      var m := s.PutLink(a.y, a.x, l.(wire := l.wire[1..]));
      assert m.sites == s.sites;
    }
  }

  // ----- whole runs without a failed send -----

  /** Everyone anyone knew of at the start. */
  ghost function EveryoneKnown(s: System): set<Id> {
    set x, id | x in s.sites && id in s.sites[x].node.members :: id
  }

  ghost function MembersOf(s: System): map<Id, set<Id>> {
    map x | x in s.sites :: s.sites[x].node.members
  }

  ghost predicate DeliveredRun(trace: seq<System>, acts: seq<Action>) {
    IsRun(trace, acts) && forall i | 0 <= i < |acts| :: Delivered(acts[i])
  }

  lemma {:induction false} RunKnows(trace: seq<System>, acts: seq<Action>, k: nat)
    requires DeliveredRun(trace, acts) && k < |trace|
    ensures KnowsWithin(trace[k], EveryoneKnown(trace[0]), MembersOf(trace[0]))
  {
    var all, first := EveryoneKnown(trace[0]), MembersOf(trace[0]);
    if k == 0 {
      forall x | x in trace[0].sites ensures SiteKnowsAt(trace[0], all, first, x) {
        assert InitialSite(x, trace[0].sites[x]);
      }
      forall v, w ensures LinkWithin(trace[0], all, v, w) {}
    } else {
      RunKnows(trace, acts, k - 1);
      assert Delivered(acts[k - 1]);
      KnowsStep(trace[k - 1], acts[k - 1], all, first);
    }
  }

  /** A node never hears of anyone nobody knew at the start, forgets nobody, and announces its
      membership at most once for each id it did not know. */
  lemma GossipBounded(trace: seq<System>, acts: seq<Action>, k: nat, x: Id)
    requires DeliveredRun(trace, acts) && k < |trace| && x in trace[k].sites
    ensures
      var all, site := EveryoneKnown(trace[0]), trace[k].sites[x];
      && x in trace[0].sites
      && trace[0].sites[x].node.members <= site.node.members <= all
      && site.gossipSent + site.gossipDue + |all - site.node.members| <= |all - trace[0].sites[x].node.members|
  {
    RunKnows(trace, acts, k);
    assert SiteKnowsAt(trace[k], EveryoneKnown(trace[0]), MembersOf(trace[0]), x);
  }

  ghost function TotalSent(s: System, xs: seq<Id>): nat
    requires forall x | x in xs :: x in s.sites
  {
    if xs == [] then 0 else s.sites[xs[0]].gossipSent + TotalSent(s, xs[1..])
  }

  ghost function TotalMissing(s: System, xs: seq<Id>): nat
    requires forall x | x in xs :: x in s.sites
  {
    if xs == [] then 0
    else |EveryoneKnown(s) - s.sites[xs[0]].node.members| + TotalMissing(s, xs[1..])
  }

  /** Gossip dies out: the announcements of any nodes together are at most the ids they missed. */
  lemma {:induction false} GossipTerminates(trace: seq<System>, acts: seq<Action>, k: nat, xs: seq<Id>)
    requires DeliveredRun(trace, acts) && k < |trace|
    requires forall x | x in xs :: x in trace[k].sites && x in trace[0].sites
    ensures TotalSent(trace[k], xs) <= TotalMissing(trace[0], xs)
    decreases |xs|
  {
    if xs != [] {
      GossipBounded(trace, acts, k, xs[0]);
      GossipTerminates(trace, acts, k, xs[1..]);
    }
  }

  // ----- the count of acks -----

  /** Without a failed send every ack is a member's, so the entry test is passed exactly when every
      member has agreed. */
  lemma AckCountMeansAll(trace: seq<System>, acts: seq<Action>, k: nat, x: Id)
    requires DeliveredRun(trace, acts) && k < |trace| && x in trace[k].sites
    ensures
      var n := trace[k].sites[x].node;
      n.acks <= n.members && (|n.acks| >= |n.members| <==> n.acks == n.members)
  {
    var n := trace[k].sites[x].node;
    assert n.acks <= n.members by {
      RunKnows(trace, acts, k);
      assert SiteKnowsAt(trace[k], EveryoneKnown(trace[0]), MembersOf(trace[0]), x);
    }
    assert n.members == n.acks + (n.members - n.acks);
  }

  ghost predicate KnowsSelf(s: System) {
    forall x | x in s.sites ::
      && s.sites[x].node.selfId == x && x in s.sites[x].node.members
      && (s.sites[x].pc.Asking? ==> x !in s.sites[x].pc.to && x !in s.sites[x].pc.failed)
  }

  lemma SelfStep(s: System, a: Action)
    requires KnowsSelf(s) && Enabled(s, a)
    ensures KnowsSelf(Apply(s, a))
  {
    CarriedSites(s, a);
  }

  /** A node is a member of its own set at every point of every run, whatever fails. */
  lemma {:induction false} SelfIsMember(trace: seq<System>, acts: seq<Action>, k: nat)
    requires IsRun(trace, acts) && k < |trace|
    ensures KnowsSelf(trace[k])
  {
    if k == 0 {
      forall x | x in trace[0].sites ensures x in trace[0].sites[x].node.members {
        assert InitialSite(x, trace[0].sites[x]);
      }
    } else {
      SelfIsMember(trace, acts, k - 1);
      SelfStep(trace[k - 1], acts[k - 1]);
    }
  }

  /** Pruning keeps the acks of the pruned, so a count may then pass that lacks a member's ack. It
      does exactly when some member lacks and the acks of nodes no longer members are at least as
      many as those who lack. */
  lemma PruneMiscountsWhen(n: NodeState, gone: set<Id>)
    ensures
      var p := Prune(n, gone);
      |p.acks| >= |p.members| && !(p.members <= p.acks) <==>
        p.members - p.acks != {} && |p.acks - p.members| >= |p.members - p.acks|
  {
    var p := Prune(n, gone);
    assert p.acks == (p.acks * p.members) + (p.acks - p.members);
    assert p.members == (p.acks * p.members) + (p.members - p.acks);
    assert |p.acks| == |p.acks * p.members| + |p.acks - p.members|;
    assert |p.members| == |p.acks * p.members| + |p.members - p.acks|;
  }

  /** Three nodes, one ack collected, its sender pruned: the count passes without the third. */
  lemma PruneMiscounts() returns (n: NodeState, gone: set<Id>)
    ensures n.acks <= n.members && n.request.Some?
    ensures MayEnter(Prune(n, gone), 0) && !(Prune(n, gone).members <= Prune(n, gone).acks)
  {
    var started := Begin(Initial("a", {"b", "c"}, 1000));
    n := OnReply(started, "b", false, None);
    gone := {"b"};
    var p := Prune(n, gone);
    assert n.acks == {"a", "b"} && n.members == {"a", "b", "c"};
    assert p.members == {"a", "c"} && p.acks == {"a", "b"};
    assert "c" in p.members && "c" !in p.acks;
  }
}
