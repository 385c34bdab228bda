/**
  With repeated broadcasts two nodes can be inside at once, however many nodes there are, although no
  send fails, no lease lapses and all messages between two nodes arrive in order: the second answer to
  a repeated request is counted for the next one.
 */
module MutexCounterexample {
  import opened Wrappers
  import opened LamportNode
  import opened MutexSystem
  import opened MutexInOrder
  import opened MutexHistory
  import opened MutexMembership

  ghost function Node(id: Id, lamport: int, request: Option<int>, acks: set<Id>, holder: Option<Lease>, inCs: bool, ids: set<Id>): NodeState {
    NodeState(id, 1000, lamport, request, acks, {}, holder, inCs, ids)
  }

  ghost function At(node: NodeState, pc: Pc): Site {
    Site(node, pc, 0, 0)
  }

  /** A node that has asked for nothing. */
  ghost function Voter(id: Id, lamport: int, holder: Option<Lease>, ids: set<Id>): Site {
    At(Node(id, lamport, None, {}, holder, false, ids), Idle)
  }

  function Ask(ts: int, ids: set<Id>): Msg {
    Posted(Request(ts, ids))
  }

  function Vote(ts: int, ids: set<Id>): Msg {
    Granted(Grant(ts, ids))
  }

  function Free(ids: set<Id>): Msg {
    Posted(Release(ids))
  }

  /** Two nodes that ask, the others who only vote, and the mail between them: from the first to the
      second, back, from the first to any voter, back, from the second to any voter, back. */
  datatype Scene = Scene(sa: Site, sb: Site, clock: int, holder: Option<Lease>,
                         ab: seq<Msg>, ba: seq<Msg>, ac: seq<Msg>, ca: seq<Msg>, bc: seq<Msg>, cb: seq<Msg>)

  datatype Cast = Cast(ids: set<Id>, a: Id, b: Id) {
    predicate Valid() {
      a in ids && b in ids && a != b
    }
  }

  ghost predicate Shows(h: History, p: Cast, v: Scene) {
    && p.Valid() && Going(h, p.ids) && Sites(h).Keys == p.ids
    && Sites(h)[p.a] == v.sa && Sites(h)[p.b] == v.sb
    && Mail(h, p.a, p.b) == v.ab && Mail(h, p.b, p.a) == v.ba
    && forall c | c in p.ids && c != p.a && c != p.b :: VoterShows(h, p, v, c)
  }

  ghost predicate VoterShows(h: History, p: Cast, v: Scene, c: Id)
    requires MutexHistory.Valid(h) && c in Sites(h)
  {
    && Sites(h)[c] == Voter(c, v.clock, v.holder, p.ids)
    && Mail(h, p.a, c) == v.ac && Mail(h, c, p.a) == v.ca && Mail(h, p.b, c) == v.bc && Mail(h, c, p.b) == v.cb
  }

  lemma VoterGrants(c: Id, k: int, holder: Option<Lease>, y: Id, ts: int, ids: set<Id>)
    requires y in ids && (holder.None? || holder == Some(Lease(y, ts, 1000)))
    ensures Granting(Voter(c, k, holder, ids), y, ts, ids) == Voter(c, (if k < ts then ts else k) + 1, Some(Lease(y, ts, 1000)), ids)
    ensures Grants(Voter(c, k, holder, ids).node, 0, Ticket(ts, y)) && !Voter(c, k, holder, ids).node.HeldByOther(y)
  {
    assert ids + {y} + ids == ids;
  }

  lemma Opening(p: Cast) returns (h: History)
    requires p.Valid()
    ensures Shows(h, p, Scene(Voter(p.a, 0, None, p.ids), Voter(p.b, 0, None, p.ids), 0, None, [], [], [], [], [], []))
  {
    var q: Queues := (c: Channel) => [];
    h := History([Beginning(p.ids)], [], [q]);
    forall y, x ensures CarriesAt(Beginning(p.ids), q, y, x) {}
    forall c | c in p.ids ensures Resting(c, p.ids) == Voter(c, 0, None, p.ids) { assert p.ids + {c} == p.ids; }
  }

  /** The same scene with the two nodes that ask exchanged. */
  function Turned(v: Scene): Scene {
    Scene(v.sb, v.sa, v.clock, v.holder, v.ba, v.ab, v.bc, v.cb, v.ac, v.ca)
  }

  lemma Turn(h: History, p: Cast, v: Scene)
    requires Shows(h, p, v)
    ensures Shows(h, Cast(p.ids, p.b, p.a), Turned(v))
  {
    forall c | c in p.ids && c != p.a && c != p.b ensures VoterShows(h, Cast(p.ids, p.b, p.a), Turned(v), c) {
      assert VoterShows(h, p, v, c);
    }
  }

  // ----- what happens to a scene, seen from the first of the two -----

  lemma Thread(h: History, p: Cast, v: Scene, act: Action, site: Site) returns (h': History)
    requires Shows(h, p, v) && Fair(Now(h), act) && site == Moved(Now(h), act)
    requires (act.Start? || act.Broadcast? || act.Settle? || act.EnterCs? || act.BeginRelease? || act.Return?) && act.y == p.a
    ensures Shows(h', p, v.(sa := site))
  {
    h' := Alone(h, p.ids, act, site);
    forall c | c in p.ids && c != p.a && c != p.b ensures VoterShows(h', p, v.(sa := site), c) { assert VoterShows(h, p, v, c); }
  }

  ghost function Asked(v: Scene, ids: set<Id>): Scene
    requires v.sa.node.request.Some?
  {
    var m := Ask(v.sa.node.request.value, ids);
    v.(sa := v.sa.(pc := Waiting), ab := v.ab + [m], ac := v.ac + [m])
  }

  lemma DoAsk(h: History, p: Cast, v: Scene) returns (h': History)
    requires Shows(h, p, v) && v.sa.node.request.Some? && v.sa.node.members == p.ids && (v.sa.pc.Begun? || v.sa.pc.Waiting?)
    ensures Shows(h', p, Asked(v, p.ids))
  {
    h' := AskAll(h, p.ids, p.a);
    forall c | c in p.ids && c != p.a && c != p.b ensures VoterShows(h', p, Asked(v, p.ids), c) { assert VoterShows(h, p, v, c); }
  }

  ghost function Released(v: Scene, ids: set<Id>): Scene {
    v.(sa := v.sa.(pc := Idle), ab := v.ab + [Free(ids)], ac := v.ac + [Free(ids)])
  }

  lemma DoRelease(h: History, p: Cast, v: Scene) returns (h': History)
    requires Shows(h, p, v) && v.sa.node.members == p.ids && v.sa.pc.ReleaseDue?
    ensures Shows(h', p, Released(v, p.ids))
  {
    h' := ReleaseAll(h, p.ids, p.a);
    forall c | c in p.ids && c != p.a && c != p.b ensures VoterShows(h', p, Released(v, p.ids), c) { assert VoterShows(h, p, v, c); }
  }

  /** Who takes part in a passage: the second node, the voters, or all of them. */
  ghost function Part(p: Cast, second: bool, voters: bool): set<Id> {
    set x | x in p.ids && x != p.a && (if x == p.b then second else voters)
  }

  ghost function Voted(v: Scene, p: Cast, ts: int, second: bool, voters: bool): Scene {
    var m := Vote(ts, p.ids);
    var u := if second then v.(sb := Granting(v.sb, p.a, ts, p.ids), ab := Rest(v.ab), ba := v.ba + [m]) else v;
    if voters
    then u.(clock := (if v.clock < ts then ts else v.clock) + 1, holder := Some(Lease(p.a, ts, 1000)), ac := Rest(v.ac), ca := v.ca + [m])
    else u
  }

  /** The request of the first node is granted. */
  lemma DoVote(h: History, p: Cast, v: Scene, ts: int, second: bool, voters: bool) returns (h': History)
    requires Shows(h, p, v)
    requires second ==> && v.ab != [] && v.ab[0] == Ask(ts, p.ids) && v.sb.node.members == p.ids
                        && Grants(v.sb.node, 0, Ticket(ts, p.a)) && !v.sb.node.HeldByOther(p.a)
    requires voters ==> v.ac != [] && v.ac[0] == Ask(ts, p.ids) && (v.holder.None? || v.holder == Some(Lease(p.a, ts, 1000)))
    ensures Shows(h', p, Voted(v, p, ts, second, voters))
  {
    var xs, u := Part(p, second, voters), Voted(v, p, ts, second, voters);
    forall x | x in xs ensures CanGrant(h, p.ids, p.a, x, ts) {
      if x != p.b {
        assert VoterShows(h, p, v, x);
        VoterGrants(x, v.clock, v.holder, p.a, ts, p.ids);
      }
    }
    h' := GrantAll(h, p.ids, p.a, xs, ts);
    forall c | c in p.ids && c != p.a && c != p.b ensures VoterShows(h', p, u, c) {
      assert VoterShows(h, p, v, c);
      if voters { VoterGrants(c, v.clock, v.holder, p.a, ts, p.ids); }
    }
  }

  ghost function Counted(v: Scene, p: Cast, second: bool, voters: bool): Scene {
    v.(sa := Counting(v.sa, Part(p, second, voters)), ba := if second then Rest(v.ba) else v.ba, ca := if voters then Rest(v.ca) else v.ca)
  }

  ghost predicate IsVote(q: seq<Msg>, ids: set<Id>) {
    q != [] && q[0].Granted? && q[0].grant.known == ids
  }

  /** The first node counts grants. */
  lemma DoCount(h: History, p: Cast, v: Scene, second: bool, voters: bool) returns (h': History)
    requires Shows(h, p, v) && v.sa.node.members == p.ids && v.sa.node.request.Some?
    requires (second ==> IsVote(v.ba, p.ids)) && (voters ==> IsVote(v.ca, p.ids))
    ensures Shows(h', p, Counted(v, p, second, voters))
  {
    var xs, u := Part(p, second, voters), Counted(v, p, second, voters);
    forall x | x in xs ensures CanCount(h, p.ids, p.a, x) {
      if x != p.b { assert VoterShows(h, p, v, x); }
    }
    h' := CountAll(h, p.ids, p.a, xs);
    forall c | c in p.ids && c != p.a && c != p.b ensures VoterShows(h', p, u, c) { assert VoterShows(h, p, v, c); }
  }

  ghost function Cleared(v: Scene, p: Cast, second: bool, voters: bool): Scene {
    var u := if second then v.(sb := Freed(v.sb, p.a), ab := Rest(v.ab)) else v;
    if voters
    then u.(holder := if v.holder.Some? && v.holder.value.holder == p.a then None else v.holder, ac := Rest(v.ac))
    else u
  }

  /** The release of the first node is handled. */
  lemma DoClear(h: History, p: Cast, v: Scene, second: bool, voters: bool) returns (h': History)
    requires Shows(h, p, v)
    requires second ==> v.ab != [] && v.ab[0] == Free(p.ids) && v.sb.node.members == p.ids && v.sb.node.deferred == {}
    requires voters ==> v.ac != [] && v.ac[0] == Free(p.ids)
    ensures Shows(h', p, Cleared(v, p, second, voters))
  {
    var xs, u := Part(p, second, voters), Cleared(v, p, second, voters);
    forall x | x in xs ensures CanFree(h, p.ids, p.a, x) {
      if x != p.b { assert VoterShows(h, p, v, x); }
    }
    h' := FreeAll(h, p.ids, p.a, xs);
    forall c | c in p.ids && c != p.a && c != p.b ensures VoterShows(h', p, u, c) { assert VoterShows(h, p, v, c); }
  }

  lemma DoStart(h: History, p: Cast, v: Scene) returns (h': History)
    requires Shows(h, p, v) && v.sa.pc.Idle?
    ensures Shows(h', p, v.(sa := v.sa.(node := Begin(v.sa.node), pc := Begun)))
  {
    h' := Thread(h, p, v, Start(p.a), v.sa.(node := Begin(v.sa.node), pc := Begun));
  }

  lemma DoEnter(h: History, p: Cast, v: Scene) returns (h': History)
    requires Shows(h, p, v) && v.sa.pc.Waiting? && v.sa.node.acks == v.sa.node.members && !v.sa.node.HeldByOther(p.a)
    requires v.sa.node.selfId == p.a && v.sa.node.request.Some?
    ensures Shows(h', p, v.(sa := v.sa.(node := Enter(v.sa.node, v.sa.node.request.value, 0), pc := Critical)))
  {
    h' := Thread(h, p, v, EnterCs(p.a, 0, 0), v.sa.(node := Enter(v.sa.node, v.sa.node.request.value, 0), pc := Critical));
  }

  ghost function Deferred(v: Scene, p: Cast, ts: int): Scene {
    v.(sa := v.sa.(node := OnRequest(v.sa.node, 0, p.b, ts, Some(p.ids))), ba := Rest(v.ba))
  }

  lemma DoDefer(h: History, p: Cast, v: Scene, ts: int) returns (h': History)
    requires Shows(h, p, v) && v.sa.node.inCs && v.sa.node.members == p.ids && v.ba != [] && v.ba[0] == Ask(ts, p.ids)
    ensures Shows(h', p, Deferred(v, p, ts))
  {
    h' := DeferOne(h, p.ids, p.b, p.a, ts);
    forall c | c in p.ids && c != p.a && c != p.b ensures VoterShows(h', p, Deferred(v, p, ts), c) { assert VoterShows(h, p, v, c); }
  }

  ghost function Exited(v: Scene, p: Cast): Scene {
    var t := NextGrant(v.sa.node);
    v.(sa := v.sa.(node := Finish(v.sa.node, 0), pc := ReleaseDue), ab := if t.Some? then v.ab + [Vote(t.value.ts, p.ids)] else v.ab)
  }

  lemma DoExit(h: History, p: Cast, v: Scene) returns (h': History)
    requires Shows(h, p, v) && v.sa.pc.Critical? && v.sa.node.members == p.ids
    requires NextGrant(v.sa.node).Some? ==> NextGrant(v.sa.node).value.id == p.b
    ensures Shows(h', p, Exited(v, p))
  {
    h' := Exit(h, p.ids, p.a);
    forall c | c in p.ids && c != p.a && c != p.b ensures VoterShows(h', p, Exited(v, p), c) { assert VoterShows(h, p, v, c); }
  }

  // ----- the run -----

  function HeldA(p: Cast): Option<Lease> {
    Some(Lease(p.a, 1, 1000))
  }

  function HeldB(p: Cast): Option<Lease> {
    Some(Lease(p.b, 3, 1000))
  }

  /** Both have asked twice, and everyone has granted the first node twice. */
  ghost function BothAsk(p: Cast): Scene {
    var ids := p.ids;
    Scene(At(Node(p.a, 1, Some(1), {p.a}, None, false, ids), Waiting),
          At(Node(p.b, 4, Some(3), {p.b}, HeldA(p), false, ids), Waiting), 3, HeldA(p),
          [], [Vote(1, ids), Ask(3, ids), Ask(3, ids), Vote(1, ids)], [], [Vote(1, ids), Vote(1, ids)], [Ask(3, ids), Ask(3, ids)], [])
  }

  /** The first has been inside and has granted the second twice; an answer to it is left everywhere. */
  ghost function FirstDone(p: Cast): Scene {
    var ids := p.ids;
    Scene(At(Node(p.a, 5, None, {}, HeldB(p), false, ids), Idle),
          At(Node(p.b, 4, Some(3), {p.b}, HeldA(p), false, ids), Waiting), 3, HeldA(p),
          [Vote(3, ids), Free(ids), Vote(3, ids)], [Vote(1, ids)], [Free(ids)], [Vote(1, ids)], [Ask(3, ids), Ask(3, ids)], [])
  }

  /** So has the second. */
  ghost function BothDone(p: Cast): Scene {
    var ids := p.ids;
    Scene(At(Node(p.a, 5, None, {}, HeldB(p), false, ids), Idle),
          At(Node(p.b, 4, None, {}, None, false, ids), Idle), 5, HeldB(p),
          [Vote(3, ids)], [Vote(1, ids), Free(ids)], [], [Vote(1, ids)], [Free(ids)], [Vote(3, ids)])
  }

  /** A passage of one of the two nodes. */
  datatype Move =
    | Begins | Asks | Enters | Defers(ts: int) | Exits | Releases
    | IsGranted(ts: int, other: bool, voters: bool)
    | Counts(other: bool, voters: bool)
    | IsCleared(other: bool, voters: bool)

  /** Whether the first node can go through the passage. */
  ghost predicate Can(p: Cast, v: Scene, m: Move) {
    && v.sa.node.members == v.sb.node.members == p.ids
    && match m
       case Begins => v.sa.pc.Idle?
       case Asks => v.sa.node.request.Some? && (v.sa.pc.Begun? || v.sa.pc.Waiting?)
       case Enters =>
         && v.sa.pc.Waiting? && v.sa.node.acks == p.ids && !v.sa.node.HeldByOther(p.a)
         && v.sa.node.selfId == p.a && v.sa.node.request.Some?
       case Defers(ts) => v.sa.node.inCs && v.ba != [] && v.ba[0] == Ask(ts, p.ids)
       case Exits => v.sa.pc.Critical? && (NextGrant(v.sa.node).Some? ==> NextGrant(v.sa.node).value.id == p.b)
       case Releases => v.sa.pc.ReleaseDue?
       case IsGranted(ts, other, voters) =>
         && (other ==> v.ab != [] && v.ab[0] == Ask(ts, p.ids) && Grants(v.sb.node, 0, Ticket(ts, p.a)) && !v.sb.node.HeldByOther(p.a))
         && (voters ==> v.ac != [] && v.ac[0] == Ask(ts, p.ids) && (v.holder.None? || v.holder == Some(Lease(p.a, ts, 1000))))
       case Counts(other, voters) => v.sa.node.request.Some? && (other ==> IsVote(v.ba, p.ids)) && (voters ==> IsVote(v.ca, p.ids))
       case IsCleared(other, voters) =>
         && (other ==> v.ab != [] && v.ab[0] == Free(p.ids) && v.sb.node.deferred == {})
         && (voters ==> v.ac != [] && v.ac[0] == Free(p.ids))
  }

  ghost function After(p: Cast, v: Scene, m: Move): Scene
    requires Can(p, v, m)
  {
    match m
    case Begins => v.(sa := v.sa.(node := Begin(v.sa.node), pc := Begun))
    case Asks => Asked(v, p.ids)
    case Enters => v.(sa := v.sa.(node := Enter(v.sa.node, v.sa.node.request.value, 0), pc := Critical))
    case Defers(ts) => Deferred(v, p, ts)
    case Exits => Exited(v, p)
    case Releases => Released(v, p.ids)
    case IsGranted(ts, other, voters) => Voted(v, p, ts, other, voters)
    case Counts(other, voters) => Counted(v, p, other, voters)
    case IsCleared(other, voters) => Cleared(v, p, other, voters)
  }

  lemma Perform(h: History, p: Cast, v: Scene, m: Move) returns (h': History)
    requires Shows(h, p, v) && Can(p, v, m)
    ensures Shows(h', p, After(p, v, m))
  {
    match m
    case Begins => h' := DoStart(h, p, v);
    case Asks => h' := DoAsk(h, p, v);
    case Enters => h' := DoEnter(h, p, v);
    case Defers(ts) => h' := DoDefer(h, p, v, ts);
    case Exits => h' := DoExit(h, p, v);
    case Releases => h' := DoRelease(h, p, v);
    case IsGranted(ts, other, voters) => h' := DoVote(h, p, v, ts, other, voters);
    case Counts(other, voters) => h' := DoCount(h, p, v, other, voters);
    case IsCleared(other, voters) => h' := DoClear(h, p, v, other, voters);
  }

  function Other(p: Cast): Cast {
    Cast(p.ids, p.b, p.a)
  }

  /** A passage of the first node or of the second. */
  ghost predicate Becomes(p: Cast, v: Scene, u: Scene) {
    || (exists m :: Can(p, v, m) && After(p, v, m) == u)
    || (exists m :: Can(Other(p), Turned(v), m) && After(Other(p), Turned(v), m) == Turned(u))
  }

  lemma PerformOne(h: History, p: Cast, v: Scene, u: Scene) returns (h': History)
    requires Shows(h, p, v) && Becomes(p, v, u)
    ensures Shows(h', p, u)
  {
    if m :| Can(p, v, m) && After(p, v, m) == u {
      h' := Perform(h, p, v, m);
    } else {
      var m :| Can(Other(p), Turned(v), m) && After(Other(p), Turned(v), m) == Turned(u);
      Turn(h, p, v);
      h' := Perform(h, Other(p), Turned(v), m);
      Turn(h', Other(p), Turned(u));
      assert Other(Other(p)) == p && Turned(Turned(u)) == u;
    }
  }

  /** Scene after scene. */
  ghost predicate Plays(p: Cast, vs: seq<Scene>) {
    forall i | 0 <= i < |vs| - 1 :: Becomes(p, vs[i], vs[i + 1])
  }

  lemma {:induction false} PerformAll(h: History, p: Cast, vs: seq<Scene>) returns (h': History)
    requires vs != [] && Plays(p, vs) && Shows(h, p, vs[0])
    ensures Shows(h', p, vs[|vs| - 1])
    decreases |vs|
  {
    if |vs| == 1 {
      h' := h;
    } else {
      assert Becomes(p, vs[0], vs[1]);
      h' := PerformOne(h, p, vs[0], vs[1]);
      forall i | 0 <= i < |vs[1..]| - 1 ensures Becomes(p, vs[1..][i], vs[1..][i + 1]) { assert Becomes(p, vs[i + 1], vs[i + 2]); }
      h' := PerformAll(h', p, vs[1..]);
    }
  }

  lemma First(p: Cast, vs: seq<Scene>, m: Move) returns (ws: seq<Scene>)
    requires vs != [] && Plays(p, vs) && Can(p, vs[|vs| - 1], m)
    ensures Plays(p, ws) && |ws| == |vs| + 1 && ws[0] == vs[0] && ws[|vs|] == After(p, vs[|vs| - 1], m)
  {
    ws := vs + [After(p, vs[|vs| - 1], m)];
    forall i | 0 <= i < |ws| - 1 ensures Becomes(p, ws[i], ws[i + 1]) { if i < |vs| - 1 { assert Becomes(p, vs[i], vs[i + 1]); } }
  }

  lemma Second(p: Cast, vs: seq<Scene>, m: Move) returns (ws: seq<Scene>)
    requires vs != [] && Plays(p, vs) && Can(Other(p), Turned(vs[|vs| - 1]), m)
    ensures Plays(p, ws) && |ws| == |vs| + 1 && ws[0] == vs[0] && ws[|vs|] == Turned(After(Other(p), Turned(vs[|vs| - 1]), m))
  {
    var u := After(Other(p), Turned(vs[|vs| - 1]), m);
    assert Turned(Turned(u)) == u;
    ws := vs + [Turned(u)];
    forall i | 0 <= i < |ws| - 1 ensures Becomes(p, ws[i], ws[i + 1]) { if i < |vs| - 1 { assert Becomes(p, vs[i], vs[i + 1]); } }
  }

  ghost function AllRest(p: Cast): Scene {
    Scene(Voter(p.a, 0, None, p.ids), Voter(p.b, 0, None, p.ids), 0, None, [], [], [], [], [], [])
  }

  lemma AskBoth(p: Cast) returns (vs: seq<Scene>)
    requires p.Valid()
    ensures vs != [] && vs[0] == AllRest(p) && Plays(p, vs) && vs[|vs| - 1] == BothAsk(p)
  {
    vs := [AllRest(p)];
    vs := First(p, vs, Begins);
    vs := First(p, vs, Asks);
    vs := First(p, vs, Asks);
    assert p.ids + {p.a} + p.ids == p.ids;
    vs := First(p, vs, IsGranted(1, true, true));
    vs := Second(p, vs, Begins);
    vs := Second(p, vs, Asks);
    vs := Second(p, vs, Asks);
    vs := First(p, vs, IsGranted(1, true, true));
  }

  lemma Everyone(p: Cast)
    requires p.Valid()
    ensures {p.a} + Part(p, true, true) == p.ids && {p.b} + Part(Other(p), true, false) + Part(Other(p), false, true) == p.ids
    ensures {p.b} + Part(Other(p), true, true) == p.ids
    ensures p.ids + {p.a} + p.ids == p.ids == p.ids + {p.b} + p.ids
  {
  }

  /** The first goes in on one of the two answers, and grants the second on its way out and again. */
  lemma FirstIn(p: Cast, us: seq<Scene>) returns (vs: seq<Scene>)
    requires p.Valid() && us != [] && Plays(p, us) && us[|us| - 1] == BothAsk(p)
    ensures vs != [] && vs[0] == us[0] && Plays(p, vs) && vs[|vs| - 1] == FirstDone(p)
  {
    Everyone(p);
    vs := FirstEnters(p, us);
    vs := First(p, vs, Exits);
    vs := First(p, vs, Releases);
    vs := Second(p, vs, IsGranted(3, true, false));
  }

  ghost function FirstInside(p: Cast): Scene {
    var ids := p.ids;
    Scene(At(Node(p.a, 4, Some(1), ids, HeldA(p), true, ids).(deferred := {Ticket(3, p.b)}), Critical),
          At(Node(p.b, 4, Some(3), {p.b}, HeldA(p), false, ids), Waiting), 3, HeldA(p),
          [], [Ask(3, ids), Vote(1, ids)], [], [Vote(1, ids)], [Ask(3, ids), Ask(3, ids)], [])
  }

  lemma FirstEnters(p: Cast, us: seq<Scene>) returns (vs: seq<Scene>)
    requires p.Valid() && us != [] && Plays(p, us) && us[|us| - 1] == BothAsk(p)
    ensures vs != [] && vs[0] == us[0] && Plays(p, vs) && vs[|vs| - 1] == FirstInside(p)
    ensures LamportNode.First({Ticket(3, p.b)}) == Ticket(3, p.b)
  {
    Everyone(p);
    vs := First(p, us, Counts(true, true));
    vs := First(p, vs, Enters);
    vs := First(p, vs, Defers(3));
  }

  ghost function AllGranted(p: Cast): Scene {
    var ids := p.ids;
    Scene(At(Node(p.a, 5, None, {}, HeldB(p), false, ids), Idle),
          At(Node(p.b, 4, Some(3), {p.b} + Part(Other(p), true, false), None, false, ids), Waiting), 5, HeldB(p),
          [Vote(3, ids)], [Vote(1, ids)], [], [Vote(1, ids)], [], [Vote(3, ids), Vote(3, ids)])
  }

  lemma SecondGranted(p: Cast, us: seq<Scene>) returns (vs: seq<Scene>)
    requires p.Valid() && us != [] && Plays(p, us) && us[|us| - 1] == FirstDone(p)
    ensures vs != [] && vs[0] == us[0] && Plays(p, vs) && vs[|vs| - 1] == AllGranted(p)
  {
    vs := Second(p, us, Counts(true, false));
    vs := First(p, vs, IsCleared(true, true));
    vs := Second(p, vs, IsGranted(3, false, true));
    vs := Second(p, vs, IsGranted(3, false, true));
  }

  /** The second goes in and out likewise. */
  lemma SecondIn(p: Cast, us: seq<Scene>) returns (vs: seq<Scene>)
    requires p.Valid() && us != [] && Plays(p, us) && us[|us| - 1] == FirstDone(p)
    ensures vs != [] && vs[0] == us[0] && Plays(p, vs) && vs[|vs| - 1] == BothDone(p)
  {
    Everyone(p);
    vs := SecondGranted(p, us);
    vs := Second(p, vs, Counts(false, true));
    vs := Second(p, vs, Enters);
    vs := Second(p, vs, Exits);
    vs := Second(p, vs, Releases);
  }

  /** Both ask again and count the answers that were left. */
  lemma BothIn(p: Cast, us: seq<Scene>) returns (vs: seq<Scene>)
    requires p.Valid() && us != [] && Plays(p, us) && us[|us| - 1] == BothDone(p)
    ensures vs != [] && vs[0] == us[0] && Plays(p, vs) && vs[|vs| - 1].sa.node.inCs && vs[|vs| - 1].sb.node.inCs
  {
    Everyone(p);
    vs := First(p, us, Begins);
    vs := First(p, vs, Asks);
    vs := First(p, vs, Counts(true, true));
    vs := Second(p, vs, IsCleared(true, false));
    vs := First(p, vs, Enters);
    vs := Second(p, vs, Begins);
    vs := Second(p, vs, Asks);
    vs := Second(p, vs, Counts(true, true));
    vs := Second(p, vs, Enters);
  }

  // ----- exclusion with repeated requests -----

  /** A run of the nodes `ids`, all of whom know each other, in which requests may be repeated. */
  ghost predicate FairRun(trace: seq<System>, acts: seq<Action>, ids: set<Id>) {
    && IsRun(trace, acts) && FullyKnown(trace[0]) && trace[0].sites.Keys == ids
    && forall i | 0 <= i < |acts| :: Delivered(acts[i]) && LeasesHold(trace[i], acts[i])
  }

  ghost predicate Inside(s: System, y: Id) {
    y in s.sites && s.sites[y].node.inCs
  }

  ghost predicate Exclusive(trace: seq<System>) {
    forall k, y, z | 0 <= k < |trace| && Inside(trace[k], y) && Inside(trace[k], z) :: y == z
  }

  /** Any two of any nodes can end up inside at once, with every message in order. */
  lemma RetriesBreakExclusion(ids: set<Id>, a: Id, b: Id) returns (trace: seq<System>, acts: seq<Action>)
    requires a in ids && b in ids && a != b
    ensures FairRun(trace, acts, ids) && InOrder(trace, acts)
    ensures Inside(trace[|acts|], a) && Inside(trace[|acts|], b)
  {
    var p := Cast(ids, a, b);
    var vs := AskBoth(p);
    vs := FirstIn(p, vs);
    vs := SecondIn(p, vs);
    vs := BothIn(p, vs);
    var h := Opening(p);
    h := PerformAll(h, p, vs);
    trace, acts := h.trace, h.acts;
    forall i | 0 <= i < |acts| ensures Fair(trace[i], acts[i]) && trace[i + 1] == Apply(trace[i], acts[i]) && Passes(h.queues[i], TrafficOf(trace[i], acts[i]), h.queues[i + 1]) {
      assert StepAt(h, i);
    }
    assert InOrderBy(trace, acts, h.queues);
    forall x | x in ids ensures InitialSite(x, Resting(x, ids)) && Resting(x, ids).node.members == ids { assert ids + {x} == ids; }
  }

  lemma {:induction false} SameNodes(trace: seq<System>, acts: seq<Action>, k: nat)
    requires IsRun(trace, acts) && k < |trace|
    ensures trace[k].sites.Keys == trace[0].sites.Keys
  {
    if k > 0 {
      SameNodes(trace, acts, k - 1);
      CarriedSites(trace[k - 1], acts[k - 1]);
    }
  }

  lemma TwoMembers(ids: set<Id>, y: Id, z: Id)
    requires y in ids && z in ids && y != z
    ensures |ids| >= 2
  {
    assert |ids| == |ids - {y}| + 1 && z in ids - {y};
  }

  lemma AloneIsExclusive(trace: seq<System>, acts: seq<Action>, ids: set<Id>)
    requires FairRun(trace, acts, ids) && |ids| <= 1
    ensures Exclusive(trace)
  {
    forall k, y, z | 0 <= k < |trace| && Inside(trace[k], y) && Inside(trace[k], z) ensures y == z {
      SameNodes(trace, acts, k);
      if y != z { TwoMembers(ids, y, z); }
    }
  }

  /** Where requests may be repeated, exclusion holds in every run exactly when there is at most one
      node; and it is the same for the runs in which every message arrives in order. */
  lemma ExclusionExactly(ids: set<Id>)
    ensures (forall trace, acts | FairRun(trace, acts, ids) :: Exclusive(trace)) <==> |ids| <= 1
    ensures (forall trace, acts | FairRun(trace, acts, ids) && InOrder(trace, acts) :: Exclusive(trace)) <==> |ids| <= 1
  {
    if |ids| <= 1 {
      forall trace, acts | FairRun(trace, acts, ids) ensures Exclusive(trace) { AloneIsExclusive(trace, acts, ids); }
    } else {
      var a :| a in ids;
      assert |ids - {a}| == |ids| - 1;
      var b :| b in ids - {a};
      var trace, acts := RetriesBreakExclusion(ids, a, b);
      assert !Exclusive(trace);
    }
  }
}
