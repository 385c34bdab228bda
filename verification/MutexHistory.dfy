/** Building runs of the mutex system in which every message arrives in order, passage by passage. */
module MutexHistory {
  import opened Wrappers
  import opened LamportNode
  import opened MutexSystem
  import opened MutexInOrder

  ghost predicate Fair(s: System, a: Action) {
    Enabled(s, a) && Delivered(a) && LeasesHold(s, a)
  }

  // ----- building a run step by step -----

  datatype History = History(trace: seq<System>, acts: seq<Action>, queues: seq<Queues>)

  /** A step of the system, with the mail before and after it. */
  ghost predicate Moves(s: System, q: Queues, a: Action, s': System, q': Queues) {
    Fair(s, a) && s' == Apply(s, a) && Passes(q, TrafficOf(s, a), q')
  }

  ghost predicate StepAt(h: History, i: nat)
    requires i < |h.acts| && |h.trace| == |h.queues| == |h.acts| + 1
  {
    Moves(h.trace[i], h.queues[i], h.acts[i], h.trace[i + 1], h.queues[i + 1])
  }

  ghost predicate Valid(h: History) {
    && |h.trace| == |h.queues| == |h.acts| + 1
    && (forall i | 0 <= i < |h.acts| :: StepAt(h, i))
    && Carries(h.trace[|h.acts|], h.queues[|h.acts|])
  }

  ghost function Resting(id: Id, ids: set<Id>): Site {
    Site(Initial(id, ids, 1000), Idle, 0, 0)
  }

  ghost function Beginning(ids: set<Id>): System {
    System(map id | id in ids :: Resting(id, ids), map[], multiset{})
  }

  /** A run of the nodes `ids` from the beginning. */
  ghost predicate Going(h: History, ids: set<Id>) {
    && Valid(h) && h.trace[0] == Beginning(ids)
    && forall c :: h.queues[0](c) == []
  }

  ghost function Now(h: History): System
    requires Valid(h)
  {
    h.trace[|h.acts|]
  }

  ghost function Sites(h: History): map<Id, Site>
    requires Valid(h)
  {
    Now(h).sites
  }

  /** What is on its way from `y` to `x`. */
  ghost function Mail(h: History, y: Id, x: Id): seq<Msg>
    requires Valid(h)
  {
    h.queues[|h.acts|]((y, x))
  }

  function Rest(q: seq<Msg>): seq<Msg> {
    if q == [] then [] else q[1..]
  }

  ghost function Delivers(h: History, t: Traffic, y: Id, x: Id): seq<Msg>
    requires Valid(h)
  {
    (if Takes(t, (y, x)) then Rest(Mail(h, y, x)) else Mail(h, y, x)) + Added(t, (y, x))
  }

  lemma Do(h: History, ids: set<Id>, a: Action) returns (h': History)
    requires Going(h, ids) && Fair(Now(h), a) && TakesOldest(h.queues[|h.acts|], TrafficOf(Now(h), a))
    ensures Going(h', ids) && Now(h') == Apply(Now(h), a)
    ensures forall y, x :: Mail(h', y, x) == Delivers(h, TrafficOf(Now(h), a), y, x)
  {
    var s, q := Now(h), h.queues[|h.acts|];
    var t := TrafficOf(s, a);
    var q': Queues := (c: Channel) => (if Takes(t, c) then Rest(q(c)) else q(c)) + Added(t, c);
    assert Passes(q, t, q');
    assert Carries(Apply(s, a), q') by {
      StepFollows(s, a);
      CarriesOn(s, Apply(s, a), t, q, q');
    }
    h' := Lengthened(h, a, Apply(s, a), q');
  }

  lemma Lengthened(h: History, a: Action, s: System, q: Queues) returns (h': History)
    requires Valid(h) && Moves(Now(h), h.queues[|h.acts|], a, s, q) && Carries(s, q)
    ensures Valid(h') && Now(h') == s && h'.queues[|h'.acts|] == q
    ensures h'.trace[0] == h.trace[0] && h'.queues[0] == h.queues[0]
  {
    h' := History(h.trace + [s], h.acts + [a], h.queues + [q]);
    forall i | 0 <= i < |h'.acts| ensures StepAt(h', i) {
      if i < |h.acts| { assert StepAt(h, i); }
    }
  }

  lemma Heads(h: History, y: Id, x: Id)
    requires Valid(h) && Mail(h, y, x) != []
    ensures Mail(h, y, x)[0].Posted? ==> Now(h).LinkOf(y, x).wire != [] && Now(h).LinkOf(y, x).wire[0] == Mail(h, y, x)[0].wire
    ensures Mail(h, y, x)[0].Granted? ==> Mail(h, y, x)[0].grant in Now(h).LinkOf(x, y).grants
  {
    assert CarriesAt(Now(h), h.queues[|h.acts|], y, x) && CarriesAt(Now(h), h.queues[|h.acts|], x, y);
  }

  // ----- single steps, by what they change -----

  ghost predicate Changed(h: History, h': History, z: Id, site: Site)
    requires Valid(h) && Valid(h')
  {
    Sites(h') == Sites(h)[z := site]
  }

  /** A step of a node's thread that neither takes nor sends anything. */
  lemma Alone(h: History, ids: set<Id>, a: Action, site: Site) returns (h': History)
    requires Going(h, ids) && Fair(Now(h), a) && site == Moved(Now(h), a)
    requires a.Start? || a.Broadcast? || a.Settle? || a.EnterCs? || a.BeginRelease? || a.Return?
    ensures Going(h', ids) && Changed(h, h', a.y, site)
    ensures forall y, x :: Mail(h', y, x) == Mail(h, y, x)
  {
    h' := Do(h, ids, a);
    forall y, x ensures Mail(h', y, x) == Mail(h, y, x) { assert Mail(h', y, x) == Delivers(h, QUIET, y, x); }
  }

  /** A step that puts one message into the channel from `y` to `x`. */
  lemma SendOne(h: History, ids: set<Id>, a: Action, m: Msg, site: Site) returns (h': History)
    requires Going(h, ids) && (a.SendRequest? || a.SendRelease?) && Fair(Now(h), a)
    requires TrafficOf(Now(h), a) == Traffic(None, map[(a.y, a.x) := m]) && site == Moved(Now(h), a)
    ensures Going(h', ids) && Changed(h, h', a.y, site)
    ensures forall v, w :: Mail(h', v, w) == if (v, w) == (a.y, a.x) then Mail(h, v, w) + [m] else Mail(h, v, w)
  {
    h' := Do(h, ids, a);
    forall v, w ensures Mail(h', v, w) == if (v, w) == (a.y, a.x) then Mail(h, v, w) + [m] else Mail(h, v, w) {
      assert Mail(h', v, w) == Delivers(h, TrafficOf(Now(h), a), v, w);
    }
  }

  /** The voter answers a request it can grant. */
  lemma GrantOne(h: History, ids: set<Id>, y: Id, x: Id, ts: int) returns (h': History)
    requires Going(h, ids) && CanGrant(h, ids, y, x, ts)
    ensures Going(h', ids) && Changed(h, h', x, Granting(Sites(h)[x], y, ts, ids))
    ensures forall v, w :: Mail(h', v, w) == GrantMail(h, ids, y, {x}, ts, v, w)
  {
    var s, a := Now(h), TakeRequest(y, x, 0);
    Heads(h, y, x);
    assert Learned(ids, y, Some(ids)) == ids;
    h' := Do(h, ids, a);
    assert RequestTraffic(s, y, x, 0) == Traffic(Some(((y, x), Posted(Request(ts, ids)))), GrantTo(x, Some(Ticket(ts, y)), ids));
    forall v, w ensures Mail(h', v, w) == GrantMail(h, ids, y, {x}, ts, v, w) {
      assert Mail(h', v, w) == Delivers(h, RequestTraffic(s, y, x, 0), v, w);
    }
  }

  ghost predicate CanGrant(h: History, ids: set<Id>, y: Id, x: Id, ts: int)
    requires Valid(h)
  {
    && y in ids && x in Sites(h) && x != y && Sites(h)[x].node.members == ids
    && Grants(Sites(h)[x].node, 0, Ticket(ts, y)) && !Sites(h)[x].node.HeldByOther(y)
    && Mail(h, y, x) != [] && Mail(h, y, x)[0] == Posted(Request(ts, ids))
  }

  ghost function Granting(site: Site, y: Id, ts: int, ids: set<Id>): Site {
    site.(node := OnRequest(site.node, 0, y, ts, Some(ids)))
  }

  /** The mail once the voters of `xs` have granted. */
  ghost function GrantMail(h: History, ids: set<Id>, y: Id, xs: set<Id>, ts: int, v: Id, w: Id): seq<Msg>
    requires Valid(h)
  {
    if v == y && w in xs then Rest(Mail(h, v, w))
    else if w == y && v in xs then Mail(h, v, w) + [Granted(Grant(ts, ids))]
    else Mail(h, v, w)
  }

  ghost predicate CanCount(h: History, ids: set<Id>, y: Id, x: Id)
    requires Valid(h)
  {
    && x in ids && Mail(h, x, y) != [] && Mail(h, x, y)[0].Granted? && Mail(h, x, y)[0].grant.known == ids
  }

  ghost function Counting(site: Site, xs: set<Id>): Site {
    site.(node := site.node.(acks := site.node.acks + xs))
  }

  lemma CountOne(h: History, ids: set<Id>, y: Id, x: Id) returns (h': History)
    requires Going(h, ids) && CanCount(h, ids, y, x)
    requires y in Sites(h) && Sites(h)[y].node.members == ids && Sites(h)[y].node.request.Some?
    ensures Going(h', ids) && Changed(h, h', y, Counting(Sites(h)[y], {x}))
    ensures forall v, w :: Mail(h', v, w) == if (v, w) == (x, y) then Rest(Mail(h, v, w)) else Mail(h, v, w)
  {
    var s, g := Now(h), Mail(h, x, y)[0].grant;
    Heads(h, x, y);
    assert Learned(ids, x, Some(ids)) == ids;
    h' := Do(h, ids, TakeGrant(y, x, g));
    forall v, w ensures Mail(h', v, w) == if (v, w) == (x, y) then Rest(Mail(h, v, w)) else Mail(h, v, w) {
      assert Mail(h', v, w) == Delivers(h, Traffic(Some(((x, y), Granted(g))), map[]), v, w);
    }
  }

  ghost predicate CanFree(h: History, ids: set<Id>, y: Id, x: Id)
    requires Valid(h)
  {
    && y in ids && x in Sites(h) && x != y && Sites(h)[x].node.members == ids && Sites(h)[x].node.deferred == {}
    && Mail(h, y, x) != [] && Mail(h, y, x)[0] == Posted(Release(ids))
  }

  ghost function Freed(site: Site, y: Id): Site {
    site.(node := site.node.(lastHolder := if site.node.HeldBy(y) then None else site.node.lastHolder))
  }

  lemma FreeOne(h: History, ids: set<Id>, y: Id, x: Id) returns (h': History)
    requires Going(h, ids) && CanFree(h, ids, y, x)
    ensures Going(h', ids) && Changed(h, h', x, Freed(Sites(h)[x], y))
    ensures forall v, w :: Mail(h', v, w) == if (v, w) == (y, x) then Rest(Mail(h, v, w)) else Mail(h, v, w)
  {
    var s := Now(h);
    Heads(h, y, x);
    assert Learned(ids, y, Some(ids)) == ids;
    h' := Do(h, ids, TakeRelease(y, x, 0));
    forall v, w ensures Mail(h', v, w) == if (v, w) == (y, x) then Rest(Mail(h, v, w)) else Mail(h, v, w) {
      assert Mail(h', v, w) == Delivers(h, ReleaseTraffic(s, y, x, 0), v, w);
    }
  }

  // ----- the same step with every node of a set -----

  lemma {:induction false} GrantAll(h: History, ids: set<Id>, y: Id, xs: set<Id>, ts: int) returns (h': History)
    requires Going(h, ids) && forall x | x in xs :: CanGrant(h, ids, y, x, ts)
    ensures Going(h', ids) && Sites(h').Keys == Sites(h).Keys
    ensures forall z | z in Sites(h) :: Sites(h')[z] == if z in xs then Granting(Sites(h)[z], y, ts, ids) else Sites(h)[z]
    ensures forall v, w :: Mail(h', v, w) == GrantMail(h, ids, y, xs, ts, v, w)
    decreases |xs|
  {
    if xs == {} {
      h' := h;
    } else {
      var x :| x in xs;
      assert CanGrant(h, ids, y, x, ts);
      var k := GrantOne(h, ids, y, x, ts);
      forall z | z in xs - {x} ensures CanGrant(k, ids, y, z, ts) { assert CanGrant(h, ids, y, z, ts); }
      h' := GrantAll(k, ids, y, xs - {x}, ts);
    }
  }

  lemma CountTwice(site: Site, x: Id, xs: set<Id>)
    requires x in xs
    ensures Counting(Counting(site, {x}), xs - {x}) == Counting(site, xs)
  {
    assert site.node.acks + {x} + (xs - {x}) == site.node.acks + xs;
  }

  lemma {:induction false} CountAll(h: History, ids: set<Id>, y: Id, xs: set<Id>) returns (h': History)
    requires Going(h, ids) && forall x | x in xs :: CanCount(h, ids, y, x)
    requires y in Sites(h) && Sites(h)[y].node.members == ids && Sites(h)[y].node.request.Some?
    ensures Going(h', ids) && Changed(h, h', y, Counting(Sites(h)[y], xs))
    ensures forall v, w :: Mail(h', v, w) == if w == y && v in xs then Rest(Mail(h, v, w)) else Mail(h, v, w)
    decreases |xs|
  {
    if xs == {} {
      h' := h;
      assert Sites(h)[y].node.acks + {} == Sites(h)[y].node.acks;
    } else {
      var x :| x in xs;
      assert CanCount(h, ids, y, x);
      var k := CountOne(h, ids, y, x);
      forall z | z in xs - {x} ensures CanCount(k, ids, y, z) { assert CanCount(h, ids, y, z); }
      h' := CountAll(k, ids, y, xs - {x});
      CountTwice(Sites(h)[y], x, xs);
    }
  }

  lemma {:induction false} FreeAll(h: History, ids: set<Id>, y: Id, xs: set<Id>) returns (h': History)
    requires Going(h, ids) && forall x | x in xs :: CanFree(h, ids, y, x)
    ensures Going(h', ids) && Sites(h').Keys == Sites(h).Keys
    ensures forall z | z in Sites(h) :: Sites(h')[z] == if z in xs then Freed(Sites(h)[z], y) else Sites(h)[z]
    ensures forall v, w :: Mail(h', v, w) == if v == y && w in xs then Rest(Mail(h, v, w)) else Mail(h, v, w)
    decreases |xs|
  {
    if xs == {} {
      h' := h;
    } else {
      var x :| x in xs;
      assert CanFree(h, ids, y, x);
      var k := FreeOne(h, ids, y, x);
      forall z | z in xs - {x} ensures CanFree(k, ids, y, z) { assert CanFree(h, ids, y, z); }
      h' := FreeAll(k, ids, y, xs - {x});
    }
  }

  ghost predicate Asks(site: Site, y: Id, ids: set<Id>, to: set<Id>) {
    site.node.request.Some? && site.pc == Asking(to, ids, {})
  }

  lemma {:induction false} SendRequests(h: History, ids: set<Id>, y: Id, to: set<Id>) returns (h': History)
    requires Going(h, ids) && y in Sites(h) && Asks(Sites(h)[y], y, ids, to)
    ensures Going(h', ids) && Changed(h, h', y, Sites(h)[y].(pc := Asking({}, ids, {})))
    ensures forall v, w :: Mail(h', v, w) == if v == y && w in to then Mail(h, v, w) + [Posted(Request(Sites(h)[y].node.request.value, ids))] else Mail(h, v, w)
    decreases |to|
  {
    if to == {} {
      h' := h;
    } else {
      var x :| x in to;
      var site := Sites(h)[y];
      var k := SendOne(h, ids, SendRequest(y, x), Posted(Request(site.node.request.value, ids)), site.(pc := Asking(to - {x}, ids, {})));
      h' := SendRequests(k, ids, y, to - {x});
    }
  }

  lemma {:induction false} SendReleases(h: History, ids: set<Id>, y: Id, to: set<Id>) returns (h': History)
    requires Going(h, ids) && y in Sites(h) && Sites(h)[y].pc == Releasing(to, ids)
    ensures Going(h', ids) && Changed(h, h', y, Sites(h)[y].(pc := Releasing({}, ids)))
    ensures forall v, w :: Mail(h', v, w) == if v == y && w in to then Mail(h, v, w) + [Posted(Release(ids))] else Mail(h, v, w)
    decreases |to|
  {
    if to == {} {
      h' := h;
    } else {
      var x :| x in to;
      var site := Sites(h)[y];
      var k := SendOne(h, ids, SendRelease(y, x), Posted(Release(ids)), site.(pc := Releasing(to - {x}, ids)));
      h' := SendReleases(k, ids, y, to - {x});
    }
  }

  // ----- whole passages of the `acquire` thread -----

  /** One broadcast of the pending request. */
  lemma AskAll(h: History, ids: set<Id>, y: Id) returns (h': History)
    requires Going(h, ids) && y in Sites(h) && (Sites(h)[y].pc.Begun? || Sites(h)[y].pc.Waiting?)
    requires Sites(h)[y].node.request.Some? && Sites(h)[y].node.members == ids
    ensures Going(h', ids) && Changed(h, h', y, Sites(h)[y].(pc := Waiting))
    ensures forall v, w :: Mail(h', v, w) == if v == y && w in ids - {y} then Mail(h, v, w) + [Posted(Request(Sites(h)[y].node.request.value, ids))] else Mail(h, v, w)
  {
    var site := Sites(h)[y];
    h' := Alone(h, ids, Broadcast(y), site.(pc := Asking(ids - {y}, ids, {})));
    h' := SendRequests(h', ids, y, ids - {y});
    assert Prune(site.node, {}) == site.node by { assert ids - {} == ids; }
    h' := Alone(h', ids, Settle(y), site.(pc := Waiting));
  }

  /** The releases after the critical section. */
  lemma ReleaseAll(h: History, ids: set<Id>, y: Id) returns (h': History)
    requires Going(h, ids) && y in Sites(h) && Sites(h)[y].pc.ReleaseDue? && Sites(h)[y].node.members == ids
    ensures Going(h', ids) && Changed(h, h', y, Sites(h)[y].(pc := Idle))
    ensures forall v, w :: Mail(h', v, w) == if v == y && w in ids - {y} then Mail(h, v, w) + [Posted(Release(ids))] else Mail(h, v, w)
  {
    var site := Sites(h)[y];
    h' := Alone(h, ids, BeginRelease(y), site.(pc := Releasing(ids - {y}, ids)));
    h' := SendReleases(h', ids, y, ids - {y});
    h' := Alone(h', ids, Return(y), site.(pc := Idle));
  }

  /** A voter in its critical section puts a request off. */
  lemma DeferOne(h: History, ids: set<Id>, y: Id, x: Id, ts: int) returns (h': History)
    requires Going(h, ids) && y in ids && x in Sites(h) && x != y && Sites(h)[x].node.members == ids && Sites(h)[x].node.inCs
    requires Mail(h, y, x) != [] && Mail(h, y, x)[0] == Posted(Request(ts, ids))
    ensures Going(h', ids) && Changed(h, h', x, Sites(h)[x].(node := OnRequest(Sites(h)[x].node, 0, y, ts, Some(ids))))
    ensures forall v, w :: Mail(h', v, w) == if (v, w) == (y, x) then Rest(Mail(h, v, w)) else Mail(h, v, w)
  {
    var s := Now(h);
    Heads(h, y, x);
    assert Learned(ids, y, Some(ids)) == ids;
    h' := Do(h, ids, TakeRequest(y, x, 0));
    forall v, w ensures Mail(h', v, w) == if (v, w) == (y, x) then Rest(Mail(h, v, w)) else Mail(h, v, w) {
      assert Mail(h', v, w) == Delivers(h, RequestTraffic(s, y, x, 0), v, w);
    }
  }

  /** The exit from the critical section, with the grant to the earliest deferred request. */
  lemma Exit(h: History, ids: set<Id>, y: Id) returns (h': History)
    requires Going(h, ids) && y in Sites(h) && Sites(h)[y].pc.Critical? && Sites(h)[y].node.members == ids
    ensures Going(h', ids) && Changed(h, h', y, Sites(h)[y].(node := Finish(Sites(h)[y].node, 0), pc := ReleaseDue))
    ensures forall v, w :: Mail(h', v, w) ==
              var t := NextGrant(Sites(h)[y].node);
              if t.Some? && (v, w) == (y, t.value.id) then Mail(h, v, w) + [Granted(Grant(t.value.ts, ids))] else Mail(h, v, w)
  {
    var t := NextGrant(Sites(h)[y].node);
    h' := Do(h, ids, ExitCs(y, 0));
    forall v, w ensures Mail(h', v, w) ==
        if t.Some? && (v, w) == (y, t.value.id) then Mail(h, v, w) + [Granted(Grant(t.value.ts, ids))] else Mail(h, v, w)
    {
      assert Mail(h', v, w) == Delivers(h, Traffic(None, GrantTo(y, t, ids)), v, w);
    }
  }
}
