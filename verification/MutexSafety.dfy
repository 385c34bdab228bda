/** Mutual exclusion, and what it rests on, over every run of the mutex system. */
module MutexSafety {
  import opened Wrappers
  import opened LamportNode
  import opened MutexSystem
  import opened MutexInvariant

  /** The assumptions under which the protocol is safe, as far as they concern one step. */
  ghost predicate Orderly(s: System, a: Action) {
    Enabled(s, a) && Delivered(a) && LeasesHold(s, a) && GrantsBacked(s, a)
  }

  lemma InitialInv(s: System)
    requires InitialSystem(s) && FullyKnown(s)
    ensures Inv(s)
  {
    forall x | x in s.sites ensures SiteOkAt(s, x) {
      assert InitialSite(x, s.sites[x]);
    }
  }

  // ----- one step: node `z` becomes `site`, the messages under way become those of `m` -----

  ghost predicate RequesterSideAt(s: System, m: System, z: Id, site: Site, x: Id) {
    x in s.sites && x != z ==> PairOk(site, s.sites[x], m.LinkOf(z, x))
  }

  ghost predicate VoterSideAt(s: System, m: System, z: Id, site: Site, y: Id) {
    y in s.sites && y != z ==> PairOk(s.sites[y], site, m.LinkOf(y, z))
  }

  ghost predicate RequesterSide(s: System, m: System, z: Id, site: Site) {
    forall x :: RequesterSideAt(s, m, z, site, x)
  }

  ghost predicate VoterSide(s: System, m: System, z: Id, site: Site) {
    forall y :: VoterSideAt(s, m, z, site, y)
  }

  /** The messages of `m` differ from those of `s` at most on links of `z`. */
  ghost predicate NearBy(s: System, m: System, z: Id) {
    && m.sites == s.sites
    && forall y, x | y != z && x != z :: m.LinkOf(y, x) == s.LinkOf(y, x)
  }

  lemma PairsKept(s: System, m: System, z: Id, site: Site)
    requires PairsOk(s) && z in s.sites && NearBy(s, m, z)
    requires RequesterSide(s, m, z, site) && VoterSide(s, m, z, site)
    ensures PairsOk(m.PutSite(z, site))
  {
    var s' := m.PutSite(z, site);
    forall y, x ensures PairOkAt(s', y, x) {
      if y in s'.sites && x in s'.sites && y != x {
        assert s'.LinkOf(y, x) == m.LinkOf(y, x);
        if y == z {
          assert RequesterSideAt(s, m, z, site, x);
        } else if x == z {
          assert VoterSideAt(s, m, z, site, y);
        } else {
          assert PairOkAt(s, y, x);
        }
      }
    }
  }

  lemma Kept(s: System, m: System, z: Id, site: Site)
    requires Inv(s) && z in s.sites && NearBy(s, m, z)
    requires SiteOk(z, site, s.sites.Keys) && LinksOk(m) && GossipOk(m)
    requires RequesterSide(s, m, z, site) && VoterSide(s, m, z, site)
    ensures Inv(m.PutSite(z, site))
  {
    var s' := m.PutSite(z, site);
    PairsKept(s, m, z, site);
    assert s'.sites.Keys == s.sites.Keys;
    forall x ensures SiteOkAt(s', x) { assert SiteOkAt(s, x); }
    assert forall y, x :: s'.LinkOf(y, x) == m.LinkOf(y, x);
  }

  /** The node's own request, acks and releases are as before, and nothing new is on its links. */
  lemma RequesterSideFrame(s: System, m: System, z: Id, site: Site)
    requires PairsOk(s) && SitesOk(s) && z in s.sites
    requires forall x | x != z :: m.LinkOf(z, x) == s.LinkOf(z, x)
    requires
      var n, n' := s.sites[z].node, site.node;
      && n'.selfId == n.selfId && n'.request == n.request && n'.acks == n.acks
      && n'.lamport >= n.lamport && (n.inCs ==> n'.inCs)
    requires
      var pc, pc' := s.sites[z].pc, site.pc;
      forall x | x in s.sites && x != z ::
        (pc'.ReleaseDue? || (pc'.Releasing? && x in pc'.to) <==> pc.ReleaseDue? || (pc.Releasing? && x in pc.to))
    ensures RequesterSide(s, m, z, site)
  {
    forall x | x in s.sites && x != z ensures RequesterSideAt(s, m, z, site, x) {
      assert PairOkAt(s, z, x) && SiteOkAt(s, x);
      RequesterFrame(s.sites[z], s.sites[x], s.LinkOf(z, x), site);
    }
  }

  /** The node's vote and the requests it defers are as before, and nothing new is on its links. */
  lemma VoterSideFrame(s: System, m: System, z: Id, site: Site)
    requires PairsOk(s) && z in s.sites
    requires forall y | y != z :: m.LinkOf(y, z) == s.LinkOf(y, z)
    requires
      var n, n' := s.sites[z].node, site.node;
      n'.selfId == n.selfId && n'.deferred == n.deferred && n'.lastHolder == n.lastHolder
    ensures VoterSide(s, m, z, site)
  {
    forall y | y in s.sites && y != z ensures VoterSideAt(s, m, z, site, y) {
      assert PairOkAt(s, y, z);
      VoterFrame(s.sites[y], s.sites[z], s.LinkOf(y, z), site);
    }
  }

  lemma LinksPutLink(s: System, y: Id, x: Id, l: Link)
    requires LinksOk(s) && y in s.sites && x in s.sites && y != x && LinkKnows(l, s.sites.Keys)
    ensures LinksOk(s.PutLink(y, x, l))
  {
    var s' := s.PutLink(y, x, l);
    assert forall v, w :: s'.LinkOf(v, w) == if v == y && w == x then l else s.LinkOf(v, w);
  }

  lemma LinksPutGrant(s: System, x: Id, ticket: Option<Ticket>, known: set<Id>)
    requires LinksOk(s) && x in s.sites && known <= s.sites.Keys
    requires ticket.Some? ==> ticket.value.id in s.sites && ticket.value.id != x
    ensures LinksOk(s.PutGrant(x, ticket, known))
  {
    if ticket.Some? {
      var l := s.LinkOf(ticket.value.id, x);
      LinksPutLink(s, ticket.value.id, x, l.(grants := l.grants + multiset{Grant(ticket.value.ts, known)}));
    }
  }

  // ----- steps that leave the messages alone -----

  lemma KeepStart(s: System, y: Id)
    requires Inv(s) && Enabled(s, Start(y))
    ensures Inv(Apply(s, Start(y)))
  {
    var site := Moved(s, Start(y));
    assert SiteOkAt(s, y);
    forall x | x in s.sites && x != y ensures RequesterSideAt(s, s, y, site, x) {
      assert PairOkAt(s, y, x) && SiteOkAt(s, x);
      StartPair(s.sites[y], s.sites[x], s.LinkOf(y, x), site);
    }
    VoterSideFrame(s, s, y, site);
    Kept(s, s, y, site);
  }

  /** Steps that move an `acquire` thread along, or carry gossip, and change no node. */
  lemma KeepQuiet(s: System, a: Action)
    requires Inv(s) && Enabled(s, a)
    requires Carried(s, a).sites == s.sites && Carried(s, a).links == s.links && GossipOk(Carried(s, a))
    requires SiteOk(Mover(a), Moved(s, a), s.sites.Keys) && Moved(s, a).node == s.sites[Mover(a)].node
    requires
      var pc, pc' := s.sites[Mover(a)].pc, Moved(s, a).pc;
      forall x | x in s.sites && x != Mover(a) ::
        (pc'.ReleaseDue? || (pc'.Releasing? && x in pc'.to) <==> pc.ReleaseDue? || (pc.Releasing? && x in pc.to))
    ensures Inv(Apply(s, a))
  {
    var m, z := Carried(s, a), Mover(a);
    assert forall y, x :: m.LinkOf(y, x) == s.LinkOf(y, x);
    RequesterSideFrame(s, m, z, Moved(s, a));
    VoterSideFrame(s, m, z, Moved(s, a));
    Kept(s, m, z, Moved(s, a));
  }

  lemma KeepThread(s: System, a: Action)
    requires Inv(s) && Enabled(s, a)
    requires a.Broadcast? || a.Settle? || a.BeginRelease? || a.Return?
    ensures Inv(Apply(s, a))
  {
    assert SiteOkAt(s, a.y);
    if a.Settle? {
      var n := s.sites[a.y].node;
      assert (set t | t in n.deferred && t.id !in {}) == n.deferred;
      assert Prune(n, {}) == n;
    }
    KeepQuiet(s, a);
  }

  lemma KeepSendGossip(s: System, x: Id)
    requires Inv(s) && Enabled(s, SendGossip(x))
    ensures Inv(Apply(s, SendGossip(x)))
  {
    assert SiteOkAt(s, x);
    KeepQuiet(s, SendGossip(x));
  }

  lemma KeepTakeGossip(s: System, msg: Gossip)
    requires Inv(s) && Enabled(s, TakeGossip(msg))
    ensures Inv(Apply(s, TakeGossip(msg)))
  {
    assert SiteOkAt(s, msg.to);
    assert Learned(s.sites.Keys, msg.from, Some(msg.known)) == s.sites.Keys;
    assert forall m | m in Carried(s, TakeGossip(msg)).gossip :: m in s.gossip;
    KeepQuiet(s, TakeGossip(msg));
  }

  /** A full count of acks, all of them members', is everyone's ack. */
  lemma FullCount(acks: set<Id>, members: set<Id>)
    requires acks <= members
    ensures |acks| >= |members| <==> acks == members
  {
    var missing := members - acks;
    assert members == acks + missing;
    assert |members| == |acks| + |missing|;
  }

  lemma KeepEnter(s: System, y: Id, now: int, later: int)
    requires Inv(s) && Orderly(s, EnterCs(y, now, later))
    ensures Inv(Apply(s, EnterCs(y, now, later)))
  {
    var site := Moved(s, EnterCs(y, now, later));
    assert SiteOkAt(s, y);
    FullCount(s.sites[y].node.acks, s.sites.Keys);
    RequesterSideFrame(s, s, y, site);
    forall z | z in s.sites && z != y ensures VoterSideAt(s, s, y, site, z) {
      assert PairOkAt(s, z, y) && SiteOkAt(s, z);
      VoterFrame(s.sites[z], s.sites[y], s.LinkOf(z, y), site);
    }
    Kept(s, s, y, site);
  }

  // ----- steps on one's own link: sending, and counting a grant -----

  lemma SendRequestSide(s: System, m: System, y: Id, x: Id, site: Site)
    requires SitesOk(s) && PairsOk(s) && Enabled(s, SendRequest(y, x))
    requires m == Carried(s, SendRequest(y, x)) && site == Moved(s, SendRequest(y, x))
    ensures RequesterSide(s, m, y, site)
  {
    assert SiteOkAt(s, y);
    forall z | z in s.sites && z != y ensures RequesterSideAt(s, m, y, site, z) {
      assert PairOkAt(s, y, z) && SiteOkAt(s, z);
      if z == x {
        SendRequestPair(s.sites[y], s.sites[z], s.LinkOf(y, z), site, m.LinkOf(y, z), s.sites[y].pc.known);
      } else {
        RequesterFrame(s.sites[y], s.sites[z], s.LinkOf(y, z), site);
      }
    }
  }

  lemma KeepSendRequest(s: System, y: Id, x: Id)
    requires Inv(s) && Enabled(s, SendRequest(y, x))
    ensures Inv(Apply(s, SendRequest(y, x)))
  {
    var m, site := Carried(s, SendRequest(y, x)), Moved(s, SendRequest(y, x));
    assert SiteOkAt(s, y);
    LinksPutLink(s, y, x, m.LinkOf(y, x));
    SendRequestSide(s, m, y, x, site);
    VoterSideFrame(s, m, y, site);
    Kept(s, m, y, site);
  }

  lemma SendReleaseSide(s: System, m: System, y: Id, x: Id, site: Site)
    requires SitesOk(s) && PairsOk(s) && Enabled(s, SendRelease(y, x))
    requires m == Carried(s, SendRelease(y, x)) && site == Moved(s, SendRelease(y, x))
    ensures RequesterSide(s, m, y, site)
  {
    assert SiteOkAt(s, y);
    forall z | z in s.sites && z != y ensures RequesterSideAt(s, m, y, site, z) {
      assert PairOkAt(s, y, z) && SiteOkAt(s, z);
      if z == x {
        SendReleasePair(s.sites[y], s.sites[z], s.LinkOf(y, z), site, m.LinkOf(y, z), s.sites[y].pc.known);
      } else {
        RequesterFrame(s.sites[y], s.sites[z], s.LinkOf(y, z), site);
      }
    }
  }

  lemma KeepSendRelease(s: System, y: Id, x: Id)
    requires Inv(s) && Enabled(s, SendRelease(y, x))
    ensures Inv(Apply(s, SendRelease(y, x)))
  {
    var m, site := Carried(s, SendRelease(y, x)), Moved(s, SendRelease(y, x));
    assert SiteOkAt(s, y);
    LinksPutLink(s, y, x, m.LinkOf(y, x));
    SendReleaseSide(s, m, y, x, site);
    VoterSideFrame(s, m, y, site);
    Kept(s, m, y, site);
  }

  lemma TakeGrantSite(y: Id, site: Site, ids: set<Id>, x: Id, known: set<Id>)
    requires SiteOk(y, site, ids) && x in ids && known <= ids
    ensures SiteOk(y, Heard(site, OnReply(site.node, x, false, Some(known))), ids)
  {
    assert Learned(ids, x, Some(known)) == ids;
  }

  lemma TakeGrantSide(s: System, m: System, y: Id, x: Id, g: Grant, site: Site)
    requires SitesOk(s) && PairsOk(s) && Orderly(s, TakeGrant(y, x, g)) && x in s.sites && y != x
    requires m == Carried(s, TakeGrant(y, x, g)) && site == Moved(s, TakeGrant(y, x, g))
    ensures RequesterSide(s, m, y, site)
  {
    assert SiteOkAt(s, y);
    forall z | z in s.sites && z != y ensures RequesterSideAt(s, m, y, site, z) {
      assert PairOkAt(s, y, z) && SiteOkAt(s, z);
      if z == x {
        TakeGrantPair(s.sites[y], s.sites[x], s.LinkOf(y, x), site, m.LinkOf(y, x), g, Some(g.known));
      } else {
        TakeOtherGrantPair(s.sites[y], s.sites[z], s.LinkOf(y, z), site, x, Some(g.known));
      }
    }
  }

  lemma KeepTakeGrant(s: System, y: Id, x: Id, g: Grant)
    requires Inv(s) && Orderly(s, TakeGrant(y, x, g))
    ensures Inv(Apply(s, TakeGrant(y, x, g)))
  {
    var m, site := Carried(s, TakeGrant(y, x, g)), Moved(s, TakeGrant(y, x, g));
    assert SiteOkAt(s, y) && LinkKnows(s.LinkOf(y, x), s.sites.Keys);
    assert x in s.sites && y != x;
    TakeGrantSite(y, s.sites[y], s.sites.Keys, x, g.known);
    assert LinksOk(m) by { LinksPutLink(s, y, x, m.LinkOf(y, x)); }
    TakeGrantSide(s, m, y, x, g, site);
    VoterSideFrame(s, m, y, site);
    Kept(s, m, y, site);
  }

  // ----- steps of a voter: the exit, a release and a request -----

  /** Nobody claims the vote of `x`, were the messages under way those of `m`. */
  ghost predicate VoteFreeAt(s: System, m: System, x: Id, y: Id)
    requires x in s.sites
  {
    y in s.sites && y != x ==>
      PairOk(s.sites[y], s.sites[x], m.LinkOf(y, x)) && !Claims(s.sites[y], x, m.LinkOf(y, x))
  }

  /** A vote nobody claims may go to the earliest deferred request. */
  lemma GrantNextSide(s: System, free: System, m: System, x: Id, site: Site, now: int, known: set<Id>)
    requires SitesOk(s) && x in s.sites
    requires forall y :: VoteFreeAt(s, free, x, y)
    requires
      var n, n' := s.sites[x].node, site.node;
      && n'.selfId == n.selfId && n'.deferred == GrantNext(n, now).deferred
      && (if n.deferred == {} then n'.lastHolder.None? else n'.lastHolder == GrantNext(n, now).lastHolder)
      && (forall y | y != x :: m.LinkOf(y, x) == WithGrant(free.LinkOf(y, x), NextGrant(n), y, known))
    ensures VoterSide(s, m, x, site)
  {
    forall y | y in s.sites && y != x ensures VoterSideAt(s, m, x, site, y) {
      assert VoteFreeAt(s, free, x, y) && SiteOkAt(s, y) && SiteOkAt(s, x);
      GrantNextPair(s.sites[y], s.sites[x], free.LinkOf(y, x), site, m.LinkOf(y, x), now, known);
    }
  }

  lemma GrantLinks(s: System, x: Id, ticket: Option<Ticket>, known: set<Id>)
    requires ticket.Some? ==> ticket.value.id != x
    ensures
      var m := s.PutGrant(x, ticket, known);
      && NearBy(s, m, x) && m.gossip == s.gossip
      && (forall y :: m.LinkOf(x, y) == s.LinkOf(x, y))
      && (forall y :: m.LinkOf(y, x) == WithGrant(s.LinkOf(y, x), ticket, y, known))
  {
  }

  /** A handled message leaves the link, and the grant it leads to, if any, is on its way. */
  lemma HandledLinks(s: System, m: System, y: Id, x: Id, taken: Link, ticket: Option<Ticket>)
    requires LinksOk(s) && y in s.sites && x in s.sites && y != x && LinkKnows(taken, s.sites.Keys)
    requires ticket.Some? ==> ticket.value.id in s.sites && ticket.value.id != x
    requires m == s.PutLink(y, x, taken).PutGrant(x, ticket, s.sites.Keys)
    ensures LinksOk(m) && NearBy(s, m, x) && m.gossip == s.gossip
    ensures forall z :: m.LinkOf(x, z) == s.LinkOf(x, z)
    ensures forall z :: m.LinkOf(z, x) ==
                        WithGrant(if z == y then taken else s.LinkOf(z, x), ticket, z, s.sites.Keys)
  {
    var free := s.PutLink(y, x, taken);
    LinksPutLink(s, y, x, taken);
    LinksPutGrant(free, x, ticket, s.sites.Keys);
    GrantLinks(free, x, ticket, s.sites.Keys);
  }

  /** Nobody else claims the vote of a node in its critical section. */
  lemma VoteFreeInside(s: System, y: Id)
    requires SitesOk(s) && PairsOk(s) && y in s.sites && s.sites[y].pc.Critical?
    ensures forall z :: VoteFreeAt(s, s, y, z)
  {
    forall z | z in s.sites && z != y ensures VoteFreeAt(s, s, y, z) {
      assert PairOkAt(s, z, y) && SiteOkAt(s, z) && SiteOkAt(s, y);
    }
  }

  lemma ExitSite(y: Id, site: Site, ids: set<Id>, now: int)
    requires SiteOk(y, site, ids) && site.pc.Critical?
    ensures SiteOk(y, site.(node := Finish(site.node, now), pc := ReleaseDue), ids)
  {
  }

  lemma ExitRequesterSide(s: System, m: System, y: Id, now: int, site: Site)
    requires SitesOk(s) && PairsOk(s) && Enabled(s, ExitCs(y, now)) && site == Moved(s, ExitCs(y, now))
    requires forall z :: m.LinkOf(y, z) == s.LinkOf(y, z)
    ensures RequesterSide(s, m, y, site)
  {
    assert SiteOkAt(s, y);
    forall z | z in s.sites && z != y ensures RequesterSideAt(s, m, y, site, z) {
      assert PairOkAt(s, y, z) && SiteOkAt(s, z);
      ExitRequester(s.sites[y], s.sites[z], s.LinkOf(y, z), site, now);
    }
  }

  lemma KeepExit(s: System, y: Id, now: int)
    requires Inv(s) && Enabled(s, ExitCs(y, now))
    ensures Inv(Apply(s, ExitCs(y, now)))
  {
    var m, site := Carried(s, ExitCs(y, now)), Moved(s, ExitCs(y, now));
    var n := s.sites[y].node;
    assert SiteOkAt(s, y);
    assert LinksOk(m) by { LinksPutGrant(s, y, NextGrant(n), n.members); }
    GrantLinks(s, y, NextGrant(n), n.members);
    ExitSite(y, s.sites[y], s.sites.Keys, now);
    ExitRequesterSide(s, m, y, now, site);
    assert VoterSide(s, m, y, site) by {
      VoteFreeInside(s, y);
      GrantNextSide(s, s, m, y, site, now, n.members);
    }
    Kept(s, m, y, site);
  }

  /** A release that arrives finds the vote with its sender, and frees it. */
  lemma ReleaseFreesVote(s: System, m: System, y: Id, x: Id)
    requires SitesOk(s) && PairsOk(s) && y in s.sites && x in s.sites && y != x
    requires s.LinkOf(y, x).wire != [] && s.LinkOf(y, x).wire[0].Release?
    requires m == s.PutLink(y, x, s.LinkOf(y, x).(wire := s.LinkOf(y, x).wire[1..]))
    ensures s.sites[x].node.HeldBy(y)
    ensures forall z :: VoteFreeAt(s, m, x, z)
  {
    assert s.sites[x].node.HeldBy(y) && VoteFreeAt(s, m, x, y) by {
      assert PairOkAt(s, y, x);
      assert SiteOkAt(s, y) && SiteOkAt(s, x);
      TakeReleaseGivesBack(s.sites[y], s.sites[x], s.LinkOf(y, x), m.LinkOf(y, x));
    }
    forall z | z in s.sites && z != x && z != y ensures VoteFreeAt(s, m, x, z) {
      assert PairOkAt(s, z, x);
      assert SiteOkAt(s, z) && SiteOkAt(s, x);
    }
  }

  lemma TakeReleaseSite(x: Id, site: Site, ids: set<Id>, now: int, y: Id, known: set<Id>)
    requires SiteOk(x, site, ids) && site.node.HeldBy(y) && y in ids && y != x && known <= ids
    ensures SiteOk(x, Heard(site, OnRelease(site.node, now, y, Some(known))), ids)
    ensures OnRelease(site.node, now, y, Some(known)).members == ids
  {
    assert Learned(ids, y, Some(known)) == ids;
  }

  lemma TakeReleaseSide(s: System, m: System, y: Id, x: Id, now: int, site: Site, known: set<Id>)
    requires SitesOk(s) && PairsOk(s) && y in s.sites && x in s.sites && y != x
    requires s.LinkOf(y, x).wire != [] && s.LinkOf(y, x).wire[0].Release?
    requires site.node == OnRelease(s.sites[x].node, now, y, Some(known))
    requires
      var taken := s.LinkOf(y, x).(wire := s.LinkOf(y, x).wire[1..]);
      forall z :: m.LinkOf(z, x) ==
        WithGrant(if z == y then taken else s.LinkOf(z, x), NextGrant(s.sites[x].node), z, s.sites.Keys)
    ensures s.sites[x].node.HeldBy(y)
    ensures VoterSide(s, m, x, site)
  {
    var free := s.PutLink(y, x, s.LinkOf(y, x).(wire := s.LinkOf(y, x).wire[1..]));
    ReleaseFreesVote(s, free, y, x);
    GrantNextSide(s, free, m, x, site, now, s.sites.Keys);
  }

  lemma KeepTakeRelease(s: System, y: Id, x: Id, now: int)
    requires Inv(s) && Enabled(s, TakeRelease(y, x, now))
    ensures Inv(Apply(s, TakeRelease(y, x, now)))
  {
    var m, site := Carried(s, TakeRelease(y, x, now)), Moved(s, TakeRelease(y, x, now));
    var n, l, ids := s.sites[x].node, s.LinkOf(y, x), s.sites.Keys;
    assert y in s.sites && y != x && LinkKnows(l, ids);
    assert SiteOkAt(s, x);
    assert Learned(ids, y, Some(l.wire[0].known)) == ids;
    HandledLinks(s, m, y, x, l.(wire := l.wire[1..]), NextGrant(n));
    TakeReleaseSide(s, m, y, x, now, site, l.wire[0].known);
    TakeReleaseSite(x, s.sites[x], ids, now, y, l.wire[0].known);
    RequesterSideFrame(s, m, x, site);
    Kept(s, m, x, site);
  }

  lemma TakeRequestSite(x: Id, site: Site, ids: set<Id>, now: int, y: Id, ts: int, known: set<Id>)
    requires SiteOk(x, site, ids) && y in ids && y != x && known <= ids
    requires !site.node.inCs && site.node.HeldByOther(y) ==> site.node.LeaseBlocks(y, now)
    ensures SiteOk(x, Heard(site, OnRequest(site.node, now, y, ts, Some(known))), ids)
    ensures OnRequest(site.node, now, y, ts, Some(known)).members == ids
  {
    assert Learned(ids, y, Some(known)) == ids;
  }

  lemma TakeRequestSide(s: System, m: System, y: Id, x: Id, now: int, site: Site, ts: int, known: set<Id>)
    requires SitesOk(s) && PairsOk(s) && y in s.sites && x in s.sites && y != x
    requires s.LinkOf(y, x).wire != [] && s.LinkOf(y, x).wire[0].Request? && s.LinkOf(y, x).wire[0].ts == ts
    requires !s.sites[x].node.inCs && s.sites[x].node.HeldByOther(y) ==> s.sites[x].node.LeaseBlocks(y, now)
    requires site.node == OnRequest(s.sites[x].node, now, y, ts, Some(known))
    requires
      var taken := s.LinkOf(y, x).(wire := s.LinkOf(y, x).wire[1..], seen := ts);
      var ticket := if Grants(s.sites[x].node, now, Ticket(ts, y)) then Some(Ticket(ts, y)) else None;
      forall z :: m.LinkOf(z, x) == WithGrant(if z == y then taken else s.LinkOf(z, x), ticket, z, s.sites.Keys)
    ensures VoterSide(s, m, x, site)
  {
    assert SiteOkAt(s, x);
    forall z | z in s.sites && z != x ensures VoterSideAt(s, m, x, site, z) {
      assert PairOkAt(s, z, x) && SiteOkAt(s, z);
      if z == y {
        TakeRequestPair(s.sites[y], s.sites[x], s.LinkOf(y, x), site, m.LinkOf(y, x), now, ts, Some(known));
      } else {
        VoterFrame(s.sites[z], s.sites[x], s.LinkOf(z, x), site);
      }
    }
  }

  lemma KeepTakeRequest(s: System, y: Id, x: Id, now: int)
    requires Inv(s) && Orderly(s, TakeRequest(y, x, now))
    ensures Inv(Apply(s, TakeRequest(y, x, now)))
  {
    var m, site := Carried(s, TakeRequest(y, x, now)), Moved(s, TakeRequest(y, x, now));
    var n, l, ids := s.sites[x].node, s.LinkOf(y, x), s.sites.Keys;
    assert y in s.sites && y != x && LinkKnows(l, ids);
    assert SiteOkAt(s, x);
    var w := l.wire[0];
    TakeRequestSite(x, s.sites[x], ids, now, y, w.ts, w.known);
    HandledLinks(s, m, y, x, l.(wire := l.wire[1..], seen := w.ts),
                 if Grants(n, now, Ticket(w.ts, y)) then Some(Ticket(w.ts, y)) else None);
    TakeRequestSide(s, m, y, x, now, site, w.ts, w.known);
    RequesterSideFrame(s, m, x, site);
    Kept(s, m, x, site);
  }

  lemma KeepStep(s: System, a: Action)
    requires Inv(s) && Orderly(s, a)
    ensures Inv(Apply(s, a))
  {
    match a
    case Start(y) => KeepStart(s, y);
    case SendRequest(y, x) => KeepSendRequest(s, y, x);
    case EnterCs(y, now, later) => KeepEnter(s, y, now, later);
    case ExitCs(y, now) => KeepExit(s, y, now);
    case SendRelease(y, x) => KeepSendRelease(s, y, x);
    case TakeRequest(y, x, now) => KeepTakeRequest(s, y, x, now);
    case TakeGrant(y, x, g) => KeepTakeGrant(s, y, x, g);
    case TakeRelease(y, x, now) => KeepTakeRelease(s, y, x, now);
    case SendGossip(x) => KeepSendGossip(s, x);
    case TakeGossip(m) => KeepTakeGossip(s, m);
    case _ => KeepThread(s, a);
  }

  // ----- whole runs -----

  /** A run of nodes that all know each other, every step of which meets the assumptions. */
  ghost predicate OrderlyRun(trace: seq<System>, acts: seq<Action>) {
    && IsRun(trace, acts)
    && FullyKnown(trace[0])
    && forall i | 0 <= i < |acts| :: Orderly(trace[i], acts[i])
  }

  lemma {:induction false} RunInv(trace: seq<System>, acts: seq<Action>, k: nat)
    requires OrderlyRun(trace, acts) && k < |trace|
    ensures Inv(trace[k])
  {
    if k == 0 {
      InitialInv(trace[0]);
    } else {
      RunInv(trace, acts, k - 1);
      assert Orderly(trace[k - 1], acts[k - 1]);
      KeepStep(trace[k - 1], acts[k - 1]);
    }
  }

  /** At most one node is in its critical section, at every point of every run. */
  lemma MutualExclusion(trace: seq<System>, acts: seq<Action>, k: nat, y: Id, z: Id)
    requires OrderlyRun(trace, acts) && k < |trace|
    requires y in trace[k].sites && z in trace[k].sites
    requires trace[k].sites[y].node.inCs && trace[k].sites[z].node.inCs
    ensures y == z
  {
    var s := trace[k];
    RunInv(trace, acts, k);
    if y != z {
      assert SiteOkAt(s, y) && SiteOkAt(s, z);
      assert PairOkAt(s, y, z);
      assert Claims(s.sites[y], z, s.LinkOf(y, z));
      assert false;
    }
  }

  /** A vote that is counted, on its way, or not yet given back is recorded with its voter; and a
      node inside its critical section holds its own vote. */
  lemma ExclusiveVote(trace: seq<System>, acts: seq<Action>, k: nat, y: Id, x: Id)
    requires OrderlyRun(trace, acts) && k < |trace|
    requires y in trace[k].sites && x in trace[k].sites
    ensures x != y && Claims(trace[k].sites[y], x, trace[k].LinkOf(y, x)) ==> trace[k].sites[x].node.HeldBy(y)
    ensures x != y && Counts(trace[k].sites[y], x, trace[k].LinkOf(y, x)) ==>
              trace[k].sites[x].node.Backs(y, trace[k].sites[y].node.request)
    ensures trace[k].sites[x].node.inCs ==> trace[k].sites[x].node.HeldBy(x)
  {
    var s := trace[k];
    RunInv(trace, acts, k);
    assert SiteOkAt(s, y) && SiteOkAt(s, x);
    assert PairOkAt(s, y, x);
  }

  /** In a state such a run can reach, a step that meets the other assumptions keeps every counted vote
      recorded for its request exactly when it meets the one on grants: to count any other grant
      breaks the vote at once. */
  lemma BackedExactly(trace: seq<System>, acts: seq<Action>, k: nat, a: Action)
    requires OrderlyRun(trace, acts) && k < |trace|
    requires Enabled(trace[k], a) && Delivered(a) && LeasesHold(trace[k], a)
    ensures GrantsBacked(trace[k], a) <==> VotesCounted(Apply(trace[k], a))
  {
    var s := trace[k];
    RunInv(trace, acts, k);
    if GrantsBacked(s, a) {
      KeepStep(s, a);
      VotesFromInv(Apply(s, a));
    } else {
      assert SiteOkAt(s, a.y) && a.x in s.sites && a.y != a.x;
      assert !VoteCountedAt(Apply(s, a), a.y, a.x);
    }
  }

  /** An ack counted for a pending request is backed by its voter's vote for that request. */
  ghost predicate VoteCountedAt(s: System, y: Id, x: Id) {
    y in s.sites && x in s.sites && x != y && s.sites[y].node.request.Some? && x in s.sites[y].node.acks ==>
      s.sites[x].node.Backs(y, s.sites[y].node.request)
  }

  ghost predicate VotesCounted(s: System) {
    forall y, x :: VoteCountedAt(s, y, x)
  }

  lemma VotesFromInv(s: System)
    requires Inv(s)
    ensures VotesCounted(s)
  {
    forall y, x ensures VoteCountedAt(s, y, x) {
      assert SiteOkAt(s, y) && SiteOkAt(s, x) && PairOkAt(s, y, x);
    }
  }

  /** A request handled by a voter stays with it: until the release is handled, the voter has
      recorded the requester as its holder, or still has the request among those it defers. */
  lemma RequestNotLost(trace: seq<System>, acts: seq<Action>, k: nat, y: Id, x: Id)
    requires OrderlyRun(trace, acts) && k < |trace|
    requires y in trace[k].sites && x in trace[k].sites && x != y
    ensures
      var s := trace[k];
      var l, n, voter := s.LinkOf(y, x), s.sites[y].node, s.sites[x].node;
      && (n.request.Some? && l.seen == n.request.value ==>
            voter.HeldBy(y) || Ticket(n.request.value, y) in voter.deferred)
      && (n.request.Some? && l.seen == n.request.value && !n.inCs ==>
            x in n.acks || HasGrant(l, n.request.value) || Ticket(n.request.value, y) in voter.deferred)
      && (ReleasePending(s.sites[y], x, l) ==> voter.HeldBy(y))
  {
    var s := trace[k];
    RunInv(trace, acts, k);
    assert SiteOkAt(s, y) && SiteOkAt(s, x);
    assert PairOkAt(s, y, x);
  }
}
