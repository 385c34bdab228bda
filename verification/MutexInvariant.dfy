/**
  What every step of the mutex system keeps, stated for one requester, one voter and the link between
  them. The steps of a node touch its site and one link at a time, so each fact below is about values.
 */
module MutexInvariant {
  import opened Wrappers
  import opened LamportNode
  import opened MutexSystem

  /** One node of a system whose nodes are `ids`, all of whom know each other. */
  ghost predicate SiteOk(x: Id, s: Site, ids: set<Id>) {
    var n := s.node;
    && n.selfId == x && x in ids && n.members == ids
    && n.acks <= ids
    && (n.request.Some? <==> s.pc.Begun? || s.pc.Asking? || s.pc.Waiting? || s.pc.Critical?)
    && (n.request.Some? ==> x in n.acks && 0 < n.request.value <= n.lamport)
    && (n.request.None? ==> n.acks == {})
    && 0 <= n.lamport
    && (n.inCs <==> s.pc.Critical?)
    && (n.inCs <==> n.HeldBy(x))
    && (n.inCs ==> n.acks == ids)
    && (s.pc.Asking? ==> s.pc.to <= ids - {x} && s.pc.known <= ids && s.pc.failed == {})
    && (s.pc.Releasing? ==> s.pc.to <= ids - {x} && s.pc.known <= ids)
    && (forall t | t in n.deferred :: t.id in ids && t.id != x)
  }

  /** A release of the requester has yet to be handled by the voter `x`. */
  ghost predicate ReleasePending(y: Site, x: Id, l: Link) {
    y.pc.ReleaseDue? || (y.pc.Releasing? && x in y.pc.to) || exists i :: 0 <= i < |l.wire| && l.wire[i].Release?
  }

  ghost predicate HasGrant(l: Link, round: int) {
    exists g :: g in l.grants && g.round == round
  }

  /** The requester counts on the vote of `x`: it has the ack, or will get it, or has not given it back. */
  ghost predicate Claims(y: Site, x: Id, l: Link) {
    Counts(y, x, l) || ReleasePending(y, x, l)
  }

  /** Timestamps on the link grow in the order the requester issued them. */
  ghost predicate Timely(y: Site, x: Site, l: Link) {
    && 0 <= l.seen <= y.node.lamport
    && (y.node.request.Some? ==> l.seen <= y.node.request.value)
    && (forall i | 0 <= i < |l.wire| && l.wire[i].Request? ::
          l.seen <= l.wire[i].ts <= y.node.lamport
          && (y.node.request.Some? ==> l.wire[i].ts <= y.node.request.value))
    && (forall i, j | 0 <= i < j < |l.wire| && l.wire[i].Request? && l.wire[j].Request? ::
          l.wire[i].ts <= l.wire[j].ts)
    && (forall g | g in l.grants :: g.round <= l.seen)
    && (forall t | t in x.node.deferred && t.id == y.node.selfId :: t.ts <= l.seen)
    && (y.node.request.Some? && x.node.selfId in y.node.acks ==> l.seen == y.node.request.value)
    && (x.node.HeldBy(y.node.selfId) ==> x.node.lastHolder.value.ts <= l.seen)
  }

  /** A release on its way is the only one, and comes before anything of the current round. */
  ghost predicate ReleaseOrdered(y: Site, x: Id, l: Link) {
    && (y.node.request.Some? && ReleasePending(y, x, l) ==> l.seen < y.node.request.value)
    && (forall i, j | 0 <= i < j < |l.wire| && l.wire[j].Release? ::
          l.wire[i].Request?
          && (y.node.request.Some? ==> l.wire[i].ts < y.node.request.value))
    && (y.pc.ReleaseDue? || (y.pc.Releasing? && x in y.pc.to) ==>
          forall i | 0 <= i < |l.wire| :: l.wire[i].Request?)
  }

  /** The requester counts on the vote of `x` for its pending request. */
  ghost predicate Counts(y: Site, x: Id, l: Link) {
    y.node.request.Some? && (x in y.node.acks || HasGrant(l, y.node.request.value))
  }

  /** A voter whose vote is claimed has recorded that very requester as its holder, and for the
      pending request if that is what the vote counts for. */
  ghost predicate Vote(y: Site, x: Site, l: Link) {
    && (Claims(y, x.node.selfId, l) ==> x.node.HeldBy(y.node.selfId))
    && (Counts(y, x.node.selfId, l) ==> x.node.Backs(y.node.selfId, y.node.request))
  }

  /** A request that was handled and still waits has its ack, has it under way, or is deferred. */
  ghost predicate NotLost(y: Site, x: Site, l: Link) {
    y.node.request.Some? && !y.node.inCs && l.seen == y.node.request.value ==>
      || x.node.selfId in y.node.acks
      || HasGrant(l, y.node.request.value)
      || Ticket(y.node.request.value, y.node.selfId) in x.node.deferred
  }

  ghost predicate LinkKnows(l: Link, ids: set<Id>) {
    && (forall i | 0 <= i < |l.wire| :: l.wire[i].known <= ids)
    && (forall g | g in l.grants :: g.known <= ids)
  }

  ghost predicate PairOk(y: Site, x: Site, l: Link) {
    && Timely(y, x, l)
    && ReleaseOrdered(y, x.node.selfId, l)
    && Vote(y, x, l)
    && NotLost(y, x, l)
  }

  ghost predicate LinksOk(s: System) {
    forall y, x :: LinkKnows(s.LinkOf(y, x), s.sites.Keys)
      && ((y in s.sites && x in s.sites && y != x) || s.LinkOf(y, x) == EMPTY_LINK)
  }

  ghost predicate GossipOk(s: System) {
    forall m | m in s.gossip :: m.from in s.sites && m.known <= s.sites.Keys
  }

  ghost predicate SiteOkAt(s: System, x: Id) {
    x in s.sites ==> SiteOk(x, s.sites[x], s.sites.Keys)
  }

  ghost predicate SitesOk(s: System) {
    forall x :: SiteOkAt(s, x)
  }

  ghost predicate PairOkAt(s: System, y: Id, x: Id) {
    y in s.sites && x in s.sites && y != x ==> PairOk(s.sites[y], s.sites[x], s.LinkOf(y, x))
  }

  ghost predicate PairsOk(s: System) {
    forall y, x :: PairOkAt(s, y, x)
  }

  ghost predicate Inv(s: System) {
    SitesOk(s) && PairsOk(s) && LinksOk(s) && GossipOk(s)
  }

  // ----- steps of the requester, seen by one voter -----

  /** Steps of the requester that leave its request and its releases as they are. */
  lemma RequesterFrame(y: Site, x: Site, l: Link, y': Site)
    requires PairOk(y, x, l)
    requires y'.node.selfId == y.node.selfId && y'.node.request == y.node.request && y'.node.acks == y.node.acks
    requires y'.node.lamport >= y.node.lamport && (y.node.inCs ==> y'.node.inCs)
    requires y'.pc.ReleaseDue? || (y'.pc.Releasing? && x.node.selfId in y'.pc.to) <==>
             y.pc.ReleaseDue? || (y.pc.Releasing? && x.node.selfId in y.pc.to)
    ensures PairOk(y', x, l)
  {
  }

  lemma StartPair(y: Site, x: Site, l: Link, y': Site)
    requires PairOk(y, x, l) && y.pc.Idle? && y.node.selfId != x.node.selfId
    requires y' == y.(node := Begin(y.node), pc := Begun)
    ensures PairOk(y', x, l)
  {
  }

  lemma SendRequestPair(y: Site, x: Site, l: Link, y': Site, l': Link, known: set<Id>)
    requires PairOk(y, x, l) && y.pc.Asking? && y.node.request.Some? && y.node.request.value <= y.node.lamport
    requires y'.node == y.node && y'.pc.Asking?
    requires l' == l.(wire := l.wire + [Request(y.node.request.value, known)])
    ensures PairOk(y', x, l')
  {
    assert forall i | 0 <= i < |l.wire| :: l'.wire[i] == l.wire[i];
    if ReleasePending(y', x.node.selfId, l') {
      var i :| 0 <= i < |l'.wire| && l'.wire[i].Release?;
      assert l.wire[i].Release?;
    }
  }

  lemma SendReleasePair(y: Site, x: Site, l: Link, y': Site, l': Link, known: set<Id>)
    requires PairOk(y, x, l) && y.pc.Releasing? && x.node.selfId in y.pc.to && y.node.request.None?
    requires y'.node == y.node && y'.pc == Releasing(y.pc.to - {x.node.selfId}, y.pc.known)
    requires l' == l.(wire := l.wire + [Release(known)])
    ensures PairOk(y', x, l')
  {
    assert l'.wire[|l.wire|].Release?;
    assert forall i | 0 <= i < |l.wire| :: l'.wire[i] == l.wire[i];
  }

  lemma ExitRequester(y: Site, x: Site, l: Link, y': Site, now: int)
    requires PairOk(y, x, l) && y.node.request.Some? && x.node.selfId in y.node.acks
    requires y' == y.(node := Finish(y.node, now), pc := ReleaseDue)
    ensures PairOk(y', x, l)
  {
    assert !ReleasePending(y, x.node.selfId, l);
  }

  lemma TakeGrantPair(y: Site, x: Site, l: Link, y': Site, l': Link, g: Grant, known: Option<set<Id>>)
    requires PairOk(y, x, l) && g in l.grants
    requires y.node.request.Some? ==> x.node.Backs(y.node.selfId, y.node.request)
    requires y'.node == OnReply(y.node, x.node.selfId, false, known) && y'.pc == y.pc
    requires l' == l.(grants := l.grants - multiset{g})
    ensures PairOk(y', x, l')
  {
    assert forall h | h in l'.grants :: h in l.grants;
  }

  lemma TakeOtherGrantPair(y: Site, x: Site, l: Link, y': Site, from: Id, known: Option<set<Id>>)
    requires PairOk(y, x, l) && from != x.node.selfId
    requires y'.node == OnReply(y.node, from, false, known) && y'.pc == y.pc
    ensures PairOk(y', x, l)
  {
  }

  // ----- steps of the voter, seen by one requester -----

  /** Steps of the voter that leave this requester's deferred requests as they are. */
  lemma VoterFrame(y: Site, x: Site, l: Link, x': Site)
    requires PairOk(y, x, l) && x'.node.selfId == x.node.selfId
    requires forall t: Ticket | t.id == y.node.selfId :: t in x'.node.deferred <==> t in x.node.deferred
    requires Claims(y, x.node.selfId, l) || x'.node.HeldBy(y.node.selfId) ==> x'.node.lastHolder == x.node.lastHolder
    ensures PairOk(y, x', l)
  {
  }

  lemma TakeRequestPair(y: Site, x: Site, l: Link, x': Site, l': Link, now: int, ts: int, known: Option<set<Id>>)
    requires PairOk(y, x, l) && y.node.selfId != x.node.selfId
    requires x.node.inCs ==> x.node.HeldBy(x.node.selfId)
    requires y.node.request.Some? ==> !y.pc.ReleaseDue? && !y.pc.Releasing?
    requires l.wire != [] && l.wire[0].Request? && l.wire[0].ts == ts
    requires !x.node.inCs && x.node.HeldByOther(y.node.selfId) ==> x.node.LeaseBlocks(y.node.selfId, now)
    requires x'.node == OnRequest(x.node, now, y.node.selfId, ts, known)
    requires l'.wire == l.wire[1..] && l'.seen == ts
    requires Grants(x.node, now, Ticket(ts, y.node.selfId)) ==>
               exists k :: l'.grants == l.grants + multiset{Grant(ts, k)}
    requires !Grants(x.node, now, Ticket(ts, y.node.selfId)) ==> l'.grants == l.grants
    ensures PairOk(y, x', l')
  {
    var id := y.node.selfId;
    assert forall i | 0 <= i < |l'.wire| :: l'.wire[i] == l.wire[i + 1];
    assert Timely(y, x', l');
    assert ReleasePending(y, x.node.selfId, l') ==> ReleasePending(y, x.node.selfId, l);
    if y.node.request.Some? && ReleasePending(y, x.node.selfId, l') {
      var i :| 0 <= i < |l'.wire| && l'.wire[i].Release?;
      assert l.wire[i + 1].Release?;
    }
    if Grants(x.node, now, Ticket(ts, id)) {
      var k :| l'.grants == l.grants + multiset{Grant(ts, k)};
      assert Grant(ts, k) in l'.grants;
    } else {
      assert forall r :: HasGrant(l', r) <==> HasGrant(l, r);
      assert Ticket(ts, id) in x'.node.deferred;
    }
  }

  /** The link once the grant for `t`, if it is the requester's, is under way. */
  function WithGrant(l: Link, t: Option<Ticket>, y: Id, known: set<Id>): Link {
    if t.Some? && t.value.id == y then l.(grants := l.grants + multiset{Grant(t.value.ts, known)}) else l
  }

  /** The voter hands its vote to the earliest deferred request, whoever asked. */
  lemma GrantNextPair(y: Site, x: Site, l: Link, x': Site, l': Link, now: int, known: set<Id>)
    requires PairOk(y, x, l) && !Claims(y, x.node.selfId, l)
    requires x'.node.selfId == x.node.selfId
    requires x'.node.deferred == GrantNext(x.node, now).deferred
    requires x.node.deferred != {} ==> x'.node.lastHolder == GrantNext(x.node, now).lastHolder
    requires x.node.deferred == {} ==> x'.node.lastHolder.None?
    requires l' == WithGrant(l, NextGrant(x.node), y.node.selfId, known)
    ensures PairOk(y, x', l')
  {
    var id := y.node.selfId;
    assert ReleasePending(y, x.node.selfId, l') <==> ReleasePending(y, x.node.selfId, l);
    if NextGrant(x.node).Some? {
      var t := NextGrant(x.node).value;
      if t.id == id {
        assert Grant(t.ts, known) in l'.grants;
        assert forall g | g in l.grants :: g in l'.grants;
      }
    }
  }

  /** A release gives the vote back: nothing on the link claims it any more. */
  lemma TakeReleaseGivesBack(y: Site, x: Site, l: Link, l': Link)
    requires PairOk(y, x, l)
    requires l.wire != [] && l.wire[0].Release?
    requires l' == l.(wire := l.wire[1..])
    ensures x.node.HeldBy(y.node.selfId)
    ensures !Claims(y, x.node.selfId, l')
    ensures PairOk(y, x, l')
  {
    var id := x.node.selfId;
    assert ReleasePending(y, id, l);
    assert forall i | 0 <= i < |l'.wire| :: l'.wire[i] == l.wire[i + 1];
    assert forall i | 0 < i < |l.wire| :: l.wire[i].Request?;
    if y.node.request.Some? {
      assert !HasGrant(l, y.node.request.value);
    }
  }
}
