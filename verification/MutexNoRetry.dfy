/**
  Grants carry no timestamp on the wire, so a late one could be counted in a later round. It never is
  in a run whose requests are sent once: between a requester and a voter there is then one token per
  round, which is a request to be sent, a request under way, a deferred request, a grant or an ack.
 */
module MutexNoRetry {
  import opened Wrappers
  import opened LamportNode
  import opened MutexSystem
  import opened MutexInvariant
  import opened MutexSafety

  ghost function Requests(w: seq<Wire>): nat {
    if w == [] then 0 else (if w[0].Request? then 1 else 0) + Requests(w[1..])
  }

  lemma {:induction false} RequestsAppend(w: seq<Wire>, m: Wire)
    ensures Requests(w + [m]) == Requests(w) + if m.Request? then 1 else 0
    decreases |w|
  {
    if w == [] {
      assert w + [m] == [m];
    } else {
      assert (w + [m])[1..] == w[1..] + [m];
      RequestsAppend(w[1..], m);
    }
  }

  lemma {:induction false} NoRequests(w: seq<Wire>)
    requires Requests(w) == 0
    ensures forall i | 0 <= i < |w| :: w[i].Release?
    decreases |w|
  {
    if w != [] {
      NoRequests(w[1..]);
      assert forall i | 0 < i < |w| :: w[i] == w[1..][i - 1];
    }
  }

  /** The voter `x` has yet to be sent the request of this round. */
  ghost predicate ToBeAsked(y: Site, x: Id) {
    y.pc.Begun? || (y.pc.Asking? && x in y.pc.to)
  }

  ghost function Tokens(y: Site, x: Site, l: Link): nat
    requires y.node.request.Some?
  {
    (if ToBeAsked(y, x.node.selfId) then 1 else 0)
    + Requests(l.wire)
    + |l.grants|
    + (if Ticket(y.node.request.value, y.node.selfId) in x.node.deferred then 1 else 0)
    + (if x.node.selfId in y.node.acks then 1 else 0)
  }

  ghost predicate OfRound(y: Id, x: Site, l: Link, t: int) {
    && (forall i | 0 <= i < |l.wire| && l.wire[i].Request? :: l.wire[i].ts == t)
    && (forall g | g in l.grants :: g.round == t)
    && (forall k | k in x.node.deferred && k.id == y :: k.ts == t)
  }

  ghost predicate NoToken(y: Id, x: Site, l: Link) {
    && Requests(l.wire) == 0 && l.grants == multiset{}
    && (forall k | k in x.node.deferred :: k.id != y)
  }

  /** At most one token of the current round, and none of any other. */
  ghost predicate OneToken(y: Site, x: Site, l: Link) {
    if y.node.request.Some? then
      OfRound(y.node.selfId, x, l, y.node.request.value) && Tokens(y, x, l) <= 1
    else
      NoToken(y.node.selfId, x, l)
  }

  // ----- one requester, one voter -----

  lemma StartToken(y: Site, x: Site, l: Link, y': Site)
    requires OneToken(y, x, l) && y.node.request.None? && y.node.selfId != x.node.selfId
    requires y'.node == Begin(y.node) && y'.pc.Begun?
    ensures OneToken(y', x, l)
  {
    NoRequests(l.wire);
  }

  lemma SendRequestToken(y: Site, x: Site, l: Link, y': Site, l': Link, known: set<Id>)
    requires OneToken(y, x, l) && y.node.request.Some? && ToBeAsked(y, x.node.selfId)
    requires y'.node == y.node && !ToBeAsked(y', x.node.selfId)
    requires l' == l.(wire := l.wire + [Request(y.node.request.value, known)])
    ensures OneToken(y', x, l')
  {
    RequestsAppend(l.wire, Request(y.node.request.value, known));
    assert forall i | 0 <= i < |l.wire| :: l'.wire[i] == l.wire[i];
  }

  lemma SendReleaseToken(y: Site, x: Site, l: Link, y': Site, l': Link, known: set<Id>)
    requires OneToken(y, x, l) && y.node.request.None?
    requires y'.node == y.node && l' == l.(wire := l.wire + [Release(known)])
    ensures OneToken(y', x, l')
  {
    RequestsAppend(l.wire, Release(known));
  }

  lemma TakeGrantToken(y: Site, x: Site, l: Link, y': Site, l': Link, g: Grant, known: Option<set<Id>>)
    requires OneToken(y, x, l) && g in l.grants
    requires y'.node == OnReply(y.node, x.node.selfId, false, known) && y'.pc == y.pc
    requires l' == l.(grants := l.grants - multiset{g})
    ensures y.node.request == Some(g.round)
    ensures OneToken(y', x, l')
  {
    assert |l.grants| == |l'.grants| + 1;
    assert forall h | h in l'.grants :: h in l.grants;
  }

  lemma ExitToken(y: Site, x: Site, l: Link, y': Site, now: int)
    requires OneToken(y, x, l) && y.node.request.Some? && x.node.selfId in y.node.acks
    requires y'.node == Finish(y.node, now)
    ensures OneToken(y', x, l)
  {
  }

  lemma TakeRequestToken(y: Site, x: Site, l: Link, x': Site, l': Link, now: int, ts: int, known: Option<set<Id>>, ids: set<Id>)
    requires OneToken(y, x, l) && l.wire != [] && l.wire[0].Request? && l.wire[0].ts == ts
    requires x'.node == OnRequest(x.node, now, y.node.selfId, ts, known)
    requires
      var ticket := Ticket(ts, y.node.selfId);
      l' == WithGrant(l.(wire := l.wire[1..], seen := ts),
                      if Grants(x.node, now, ticket) then Some(ticket) else None, y.node.selfId, ids)
    ensures OneToken(y, x', l')
  {
    assert forall i | 0 <= i < |l'.wire| :: l'.wire[i] == l.wire[i + 1];
    assert Requests(l.wire) == 1 + Requests(l'.wire);
    assert y.node.request == Some(ts);
  }

  lemma OtherRequestToken(y: Site, x: Site, l: Link, x': Site, now: int, from: Id, ts: int, known: Option<set<Id>>)
    requires OneToken(y, x, l) && from != y.node.selfId
    requires x'.node == OnRequest(x.node, now, from, ts, known)
    ensures OneToken(y, x', l)
  {
  }

  lemma GrantNextToken(y: Site, x: Site, l: Link, x': Site, l': Link, now: int, known: set<Id>)
    requires OneToken(y, x, l)
    requires x'.node.selfId == x.node.selfId && x'.node.deferred == GrantNext(x.node, now).deferred
    requires l' == WithGrant(l, NextGrant(x.node), y.node.selfId, known)
    ensures OneToken(y, x', l')
  {
    var next := NextGrant(x.node);
    if next.None? || next.value.id != y.node.selfId {
      assert forall k: Ticket | k.id == y.node.selfId :: k in x'.node.deferred <==> k in x.node.deferred;
    } else {
      var t := next.value;
      assert t in x.node.deferred && y.node.request == Some(t.ts);
      assert |l'.grants| == |l.grants| + 1;
      assert t !in x'.node.deferred;
    }
  }

  lemma TakeReleaseToken(y: Site, x: Site, l: Link, l': Link)
    requires OneToken(y, x, l) && l.wire != [] && l.wire[0].Release? && l' == l.(wire := l.wire[1..])
    ensures OneToken(y, x, l')
  {
    assert forall i | 0 <= i < |l'.wire| :: l'.wire[i] == l.wire[i + 1];
  }

  // ----- the system -----

  ghost predicate OneTokenAt(s: System, y: Id, x: Id) {
    y in s.sites && x in s.sites && y != x ==> OneToken(s.sites[y], s.sites[x], s.LinkOf(y, x))
  }

  ghost predicate OneTokens(s: System) {
    forall y, x :: OneTokenAt(s, y, x)
  }

  ghost predicate AskerAt(s: System, m: System, z: Id, site: Site, x: Id) {
    x in s.sites && x != z ==> OneToken(site, s.sites[x], m.LinkOf(z, x))
  }

  ghost predicate AskedAt(s: System, m: System, z: Id, site: Site, y: Id) {
    y in s.sites && y != z ==> OneToken(s.sites[y], site, m.LinkOf(y, z))
  }

  lemma TokensKept(s: System, m: System, z: Id, site: Site)
    requires OneTokens(s) && z in s.sites && NearBy(s, m, z)
    requires forall x :: AskerAt(s, m, z, site, x)
    requires forall y :: AskedAt(s, m, z, site, y)
    ensures OneTokens(m.PutSite(z, site))
  {
    var s' := m.PutSite(z, site);
    forall y, x ensures OneTokenAt(s', y, x) {
      if y in s'.sites && x in s'.sites && y != x {
        assert s'.LinkOf(y, x) == m.LinkOf(y, x);
        if y == z {
          assert AskerAt(s, m, z, site, x);
        } else if x == z {
          assert AskedAt(s, m, z, site, y);
        } else {
          assert OneTokenAt(s, y, x);
        }
      }
    }
  }

  lemma AskerFrame(s: System, m: System, z: Id, site: Site)
    requires SitesOk(s) && OneTokens(s) && z in s.sites
    requires forall x | x != z :: m.LinkOf(z, x) == s.LinkOf(z, x)
    requires site.node.selfId == z && site.node.request == s.sites[z].node.request && site.node.acks == s.sites[z].node.acks
    requires forall x | x in s.sites && x != z :: ToBeAsked(site, x) <==> ToBeAsked(s.sites[z], x)
    ensures forall x :: AskerAt(s, m, z, site, x)
  {
    forall x | x in s.sites && x != z ensures AskerAt(s, m, z, site, x) {
      assert OneTokenAt(s, z, x) && SiteOkAt(s, x) && SiteOkAt(s, z);
    }
  }

  lemma AskedFrame(s: System, m: System, z: Id, site: Site)
    requires SitesOk(s) && OneTokens(s) && z in s.sites
    requires forall y | y != z :: m.LinkOf(y, z) == s.LinkOf(y, z)
    requires site.node.selfId == z && site.node.deferred == s.sites[z].node.deferred
    ensures forall y :: AskedAt(s, m, z, site, y)
  {
    forall y | y in s.sites && y != z ensures AskedAt(s, m, z, site, y) {
      assert OneTokenAt(s, y, z) && SiteOkAt(s, z);
    }
  }

  lemma OnceStart(s: System, y: Id)
    requires SitesOk(s) && OneTokens(s) && Enabled(s, Start(y))
    ensures OneTokens(Apply(s, Start(y)))
  {
    var site := Moved(s, Start(y));
    assert SiteOkAt(s, y);
    forall x | x in s.sites && x != y ensures AskerAt(s, s, y, site, x) {
      assert OneTokenAt(s, y, x) && SiteOkAt(s, x);
      StartToken(s.sites[y], s.sites[x], s.LinkOf(y, x), site);
    }
    AskedFrame(s, s, y, site);
    TokensKept(s, s, y, site);
  }

  /** Steps that touch no link, no request, no ack and no deferred request. */
  lemma OnceQuiet(s: System, a: Action)
    requires SitesOk(s) && OneTokens(s) && Enabled(s, a) && Mover(a) in s.sites
    requires Carried(s, a).sites == s.sites && Carried(s, a).links == s.links
    requires
      var n, n' := s.sites[Mover(a)].node, Moved(s, a).node;
      && n'.selfId == n.selfId && n'.request == n.request && n'.acks == n.acks && n'.deferred == n.deferred
    requires forall x | x in s.sites && x != Mover(a) :: ToBeAsked(Moved(s, a), x) <==> ToBeAsked(s.sites[Mover(a)], x)
    ensures OneTokens(Apply(s, a))
  {
    var m, z := Carried(s, a), Mover(a);
    assert SiteOkAt(s, z);
    assert forall y, x :: m.LinkOf(y, x) == s.LinkOf(y, x);
    AskerFrame(s, m, z, Moved(s, a));
    AskedFrame(s, m, z, Moved(s, a));
    TokensKept(s, m, z, Moved(s, a));
  }

  lemma OnceThread(s: System, a: Action)
    requires SitesOk(s) && OneTokens(s) && Enabled(s, a) && SentOnce(s, a)
    requires a.Broadcast? || a.Settle? || a.EnterCs? || a.BeginRelease? || a.Return? || a.SendGossip? || a.TakeGossip?
    ensures OneTokens(Apply(s, a))
  {
    assert SiteOkAt(s, Mover(a));
    if a.Settle? {
      var n := s.sites[a.y].node;
      assert (set t | t in n.deferred && t.id !in {}) == n.deferred;
    }
    OnceQuiet(s, a);
  }

  lemma OnceSendRequest(s: System, y: Id, x: Id)
    requires SitesOk(s) && OneTokens(s) && Enabled(s, SendRequest(y, x))
    ensures OneTokens(Apply(s, SendRequest(y, x)))
  {
    var m, site := Carried(s, SendRequest(y, x)), Moved(s, SendRequest(y, x));
    assert SiteOkAt(s, y);
    forall z | z in s.sites && z != y ensures AskerAt(s, m, y, site, z) {
      assert OneTokenAt(s, y, z) && SiteOkAt(s, z);
      if z == x {
        SendRequestToken(s.sites[y], s.sites[x], s.LinkOf(y, x), site, m.LinkOf(y, x), s.sites[y].pc.known);
      }
    }
    AskedFrame(s, m, y, site);
    TokensKept(s, m, y, site);
  }

  lemma OnceSendRelease(s: System, y: Id, x: Id)
    requires SitesOk(s) && OneTokens(s) && Enabled(s, SendRelease(y, x))
    ensures OneTokens(Apply(s, SendRelease(y, x)))
  {
    var m, site := Carried(s, SendRelease(y, x)), Moved(s, SendRelease(y, x));
    assert SiteOkAt(s, y);
    forall z | z in s.sites && z != y ensures AskerAt(s, m, y, site, z) {
      assert OneTokenAt(s, y, z) && SiteOkAt(s, z);
      if z == x {
        SendReleaseToken(s.sites[y], s.sites[x], s.LinkOf(y, x), site, m.LinkOf(y, x), s.sites[y].pc.known);
      }
    }
    AskedFrame(s, m, y, site);
    TokensKept(s, m, y, site);
  }

  lemma OnceTakeGrant(s: System, y: Id, x: Id, g: Grant)
    requires SitesOk(s) && OneTokens(s) && Enabled(s, TakeGrant(y, x, g)) && x in s.sites && y != x
    ensures s.sites[y].node.request == Some(g.round)
    ensures OneTokens(Apply(s, TakeGrant(y, x, g)))
  {
    var m, site := Carried(s, TakeGrant(y, x, g)), Moved(s, TakeGrant(y, x, g));
    assert SiteOkAt(s, y) && SiteOkAt(s, x) && OneTokenAt(s, y, x);
    TakeGrantToken(s.sites[y], s.sites[x], s.LinkOf(y, x), site, m.LinkOf(y, x), g, Some(g.known));
    forall z | z in s.sites && z != y ensures AskerAt(s, m, y, site, z) {
      assert OneTokenAt(s, y, z) && SiteOkAt(s, z);
    }
    AskedFrame(s, m, y, site);
    TokensKept(s, m, y, site);
  }

  lemma OnceExit(s: System, y: Id, now: int)
    requires SitesOk(s) && OneTokens(s) && Enabled(s, ExitCs(y, now))
    ensures OneTokens(Apply(s, ExitCs(y, now)))
  {
    var m, site := Carried(s, ExitCs(y, now)), Moved(s, ExitCs(y, now));
    var n := s.sites[y].node;
    assert SiteOkAt(s, y);
    GrantLinks(s, y, NextGrant(n), n.members);
    forall z | z in s.sites && z != y ensures AskerAt(s, m, y, site, z) {
      assert OneTokenAt(s, y, z) && SiteOkAt(s, z);
      ExitToken(s.sites[y], s.sites[z], s.LinkOf(y, z), site, now);
    }
    forall z | z in s.sites && z != y ensures AskedAt(s, m, y, site, z) {
      assert OneTokenAt(s, z, y) && SiteOkAt(s, z);
      GrantNextToken(s.sites[z], s.sites[y], s.LinkOf(z, y), site, m.LinkOf(z, y), now, n.members);
    }
    TokensKept(s, m, y, site);
  }

  lemma OnceTakeRelease(s: System, y: Id, x: Id, now: int)
    requires SitesOk(s) && OneTokens(s) && LinksOk(s) && Enabled(s, TakeRelease(y, x, now))
    ensures OneTokens(Apply(s, TakeRelease(y, x, now)))
  {
    var m, site := Carried(s, TakeRelease(y, x, now)), Moved(s, TakeRelease(y, x, now));
    var n, l, ids := s.sites[x].node, s.LinkOf(y, x), s.sites.Keys;
    assert y in s.sites && y != x && LinkKnows(l, ids) && SiteOkAt(s, x);
    assert Learned(ids, y, Some(l.wire[0].known)) == ids;
    var taken := l.(wire := l.wire[1..]);
    HandledLinks(s, m, y, x, taken, NextGrant(n));
    AskerFrame(s, m, x, site);
    forall z | z in s.sites && z != x ensures AskedAt(s, m, x, site, z) {
      assert OneTokenAt(s, z, x) && SiteOkAt(s, z);
      if z == y { TakeReleaseToken(s.sites[y], s.sites[x], l, taken); }
      GrantNextToken(s.sites[z], s.sites[x], if z == y then taken else s.LinkOf(z, x), site, m.LinkOf(z, x), now, ids);
    }
    TokensKept(s, m, x, site);
  }

  lemma TakeRequestAsked(s: System, m: System, y: Id, x: Id, now: int, site: Site, ts: int, known: set<Id>)
    requires SitesOk(s) && OneTokens(s) && y in s.sites && x in s.sites && y != x
    requires s.LinkOf(y, x).wire != [] && s.LinkOf(y, x).wire[0].Request? && s.LinkOf(y, x).wire[0].ts == ts
    requires site.node == OnRequest(s.sites[x].node, now, y, ts, Some(known))
    requires
      var taken := s.LinkOf(y, x).(wire := s.LinkOf(y, x).wire[1..], seen := ts);
      var ticket := if Grants(s.sites[x].node, now, Ticket(ts, y)) then Some(Ticket(ts, y)) else None;
      forall z :: m.LinkOf(z, x) == WithGrant(if z == y then taken else s.LinkOf(z, x), ticket, z, s.sites.Keys)
    ensures forall z :: AskedAt(s, m, x, site, z)
  {
    forall z | z in s.sites && z != x ensures AskedAt(s, m, x, site, z) {
      assert OneTokenAt(s, z, x) && SiteOkAt(s, z);
      if z == y {
        TakeRequestToken(s.sites[y], s.sites[x], s.LinkOf(y, x), site, m.LinkOf(y, x), now, ts, Some(known), s.sites.Keys);
      } else {
        OtherRequestToken(s.sites[z], s.sites[x], s.LinkOf(z, x), site, now, y, ts, Some(known));
      }
    }
  }

  lemma OnceTakeRequest(s: System, y: Id, x: Id, now: int)
    requires SitesOk(s) && OneTokens(s) && LinksOk(s) && Enabled(s, TakeRequest(y, x, now))
    ensures OneTokens(Apply(s, TakeRequest(y, x, now)))
  {
    var m, site := Carried(s, TakeRequest(y, x, now)), Moved(s, TakeRequest(y, x, now));
    var n, l, ids := s.sites[x].node, s.LinkOf(y, x), s.sites.Keys;
    assert y in s.sites && y != x && LinkKnows(l, ids) && SiteOkAt(s, x);
    var w := l.wire[0];
    assert Learned(ids, y, Some(w.known)) == ids;
    HandledLinks(s, m, y, x, l.(wire := l.wire[1..], seen := w.ts),
                 if Grants(n, now, Ticket(w.ts, y)) then Some(Ticket(w.ts, y)) else None);
    AskerFrame(s, m, x, site);
    TakeRequestAsked(s, m, y, x, now, site, w.ts, w.known);
    TokensKept(s, m, x, site);
  }

  // ----- whole runs -----

  /** The assumptions on one step when every request is sent once. */
  ghost predicate OrderlyOnce(s: System, a: Action) {
    Enabled(s, a) && Delivered(a) && LeasesHold(s, a) && SentOnce(s, a)
  }

  /** A grant of the pending request is backed. */
  lemma FreshIsBacked(s: System, y: Id, x: Id, g: Grant)
    requires Inv(s) && Enabled(s, TakeGrant(y, x, g)) && s.sites[y].node.request == Some(g.round)
    ensures GrantsBacked(s, TakeGrant(y, x, g))
  {
    assert x in s.sites && y != x;
    assert SiteOkAt(s, y) && SiteOkAt(s, x) && PairOkAt(s, y, x);
    assert HasGrant(s.LinkOf(y, x), g.round);
  }

  lemma OnceStep(s: System, a: Action)
    requires Inv(s) && OneTokens(s) && OrderlyOnce(s, a)
    ensures GrantsBacked(s, a)
    ensures Inv(Apply(s, a)) && OneTokens(Apply(s, a))
  {
    if a.TakeGrant? {
      assert a.x in s.sites && a.y != a.x;
      OnceTakeGrant(s, a.y, a.x, a.grant);
      FreshIsBacked(s, a.y, a.x, a.grant);
    } else if a.Start? {
      OnceStart(s, a.y);
    } else if a.SendRequest? {
      OnceSendRequest(s, a.y, a.x);
    } else if a.SendRelease? {
      OnceSendRelease(s, a.y, a.x);
    } else if a.ExitCs? {
      OnceExit(s, a.y, a.now);
    } else if a.TakeRelease? {
      OnceTakeRelease(s, a.y, a.x, a.now);
    } else if a.TakeRequest? {
      OnceTakeRequest(s, a.y, a.x, a.now);
    } else {
      OnceThread(s, a);
    }
    KeepStep(s, a);
  }

  ghost predicate OnceRun(trace: seq<System>, acts: seq<Action>) {
    && IsRun(trace, acts)
    && FullyKnown(trace[0])
    && forall i | 0 <= i < |acts| :: OrderlyOnce(trace[i], acts[i])
  }

  lemma {:induction false} OnceRunInv(trace: seq<System>, acts: seq<Action>, k: nat)
    requires OnceRun(trace, acts) && k < |trace|
    ensures Inv(trace[k]) && OneTokens(trace[k])
    ensures forall i | 0 <= i < k :: Orderly(trace[i], acts[i])
  {
    if k == 0 {
      InitialInv(trace[0]);
      forall y, x ensures OneTokenAt(trace[0], y, x) {
        if y in trace[0].sites && x in trace[0].sites {
          assert InitialSite(y, trace[0].sites[y]) && InitialSite(x, trace[0].sites[x]);
        }
      }
    } else {
      OnceRunInv(trace, acts, k - 1);
      assert OrderlyOnce(trace[k - 1], acts[k - 1]);
      OnceStep(trace[k - 1], acts[k - 1]);
    }
  }

  /** A run that sends every request once never counts a stale grant, so it is an orderly run. */
  lemma SentOnceIsOrderly(trace: seq<System>, acts: seq<Action>)
    requires OnceRun(trace, acts)
    ensures OrderlyRun(trace, acts)
  {
    OnceRunInv(trace, acts, |acts|);
  }

  /** At most one node is in its critical section at every point of every run that repeats no
      request, with no assumption on which grants arrive when. */
  lemma MutualExclusionSentOnce(trace: seq<System>, acts: seq<Action>, k: nat, y: Id, z: Id)
    requires OnceRun(trace, acts) && k < |trace|
    requires y in trace[k].sites && z in trace[k].sites
    requires trace[k].sites[y].node.inCs && trace[k].sites[z].node.inCs
    ensures y == z
  {
    SentOnceIsOrderly(trace, acts);
    MutualExclusion(trace, acts, k, y, z);
  }
}
