/** The advert database against the log of what was done to it. */
module AdvertLog {
  import opened Wrappers
  import opened Order
  import opened AdvertDb

  datatype Op =
    | Upsert(now: int, record: AdvertRecord)
    | Delete(now: int, id: Id)
    | Sweep(now: int)

  function Do(p: Policy, db: Db, op: Op): Db {
    match op
    case Upsert(now, r) => db[r.id := Stored(r, now)]
    case Delete(_, id) => db - {id}
    case Sweep(now) => Swept(p, db, now)
  }

  function Exec(p: Policy, ops: seq<Op>): Db
    decreases |ops|
  {
    if ops == [] then map[] else Do(p, Exec(p, ops[..|ops| - 1]), ops[|ops| - 1])
  }

  /** The clock never runs backwards, and reads no more than `now`. */
  ghost predicate Timed(ops: seq<Op>, now: int) {
    && (forall i, j | 0 <= i < j < |ops| :: ops[i].now <= ops[j].now)
    && (forall i | 0 <= i < |ops| :: ops[i].now <= now)
  }

  /** The last write to `id`, unless a delete came after it. Sweeps do not matter. */
  function LastWrite(ops: seq<Op>, id: Id): Option<Stored>
    decreases |ops|
  {
    if ops == [] then None
    else
      var last := ops[|ops| - 1];
      if last.Upsert? && last.record.id == id then Some(Stored(last.record, last.now))
      else if last.Delete? && last.id == id then None
      else LastWrite(ops[..|ops| - 1], id)
  }

  /** What a timed map would answer: the last write, while it lasts. */
  function LogLookup(p: Policy, ops: seq<Op>, now: int, id: Id): Option<AdvertRecord> {
    var w := LastWrite(ops, id);
    if w.None? || Expired(p, w.value, now) then None else Some(w.value.record)
  }

  lemma ExpiredForGood(p: Policy, s: Stored, now: int, later: int)
    requires Expired(p, s, now) && now <= later
    ensures Expired(p, s, later)
  {
  }

  ghost predicate Agrees(p: Policy, db: Db, ops: seq<Op>, now: int, id: Id) {
    && (id in db ==> LastWrite(ops, id) == Some(db[id]))
    && (id !in db && LastWrite(ops, id).Some? ==> Expired(p, LastWrite(ops, id).value, now))
  }

  lemma {:induction false} ExecAgrees(p: Policy, ops: seq<Op>, now: int, id: Id)
    requires Timed(ops, now)
    ensures Agrees(p, Exec(p, ops), ops, now, id)
    decreases |ops|
  {
    if ops != [] {
      var last := ops[|ops| - 1];
      ExecAgrees(p, ops[..|ops| - 1], last.now, id);
      var w := LastWrite(ops[..|ops| - 1], id);
      if w.Some? && Expired(p, w.value, last.now) {
        ExpiredForGood(p, w.value, last.now, now);
      }
    }
  }

  lemma {:induction false} WriteKeyed(ops: seq<Op>, id: Id)
    ensures LastWrite(ops, id).Some? ==> LastWrite(ops, id).value.record.id == id
    decreases |ops|
  {
    if ops != [] { WriteKeyed(ops[..|ops| - 1], id); }
  }

  /** The database, swept or not, answers as the timed map does. */
  lemma {:induction false} RefinesTimedMap(p: Policy, ops: seq<Op>, now: int, id: Id)
    requires Timed(ops, now)
    ensures Lookup(Live(p, Exec(p, ops), now), id) == LogLookup(p, ops, now, id)
    ensures Keyed(Exec(p, ops))
  {
    ExecAgrees(p, ops, now, id);
    forall k | k in Exec(p, ops) ensures Exec(p, ops)[k].record.id == k {
      ExecAgrees(p, ops, now, k);
      WriteKeyed(ops, k);
    }
  }

  // ----- sweeping is invisible -----

  function Unswept(ops: seq<Op>): seq<Op>
    decreases |ops|
  {
    if ops == [] then []
    else
      var rest, last := Unswept(ops[..|ops| - 1]), ops[|ops| - 1];
      if last.Sweep? then rest else rest + [last]
  }

  lemma {:induction false} UnsweptTimed(ops: seq<Op>, now: int)
    requires Timed(ops, now)
    ensures Timed(Unswept(ops), now)
    decreases |ops|
  {
    if ops != [] {
      var last := ops[|ops| - 1];
      UnsweptTimed(ops[..|ops| - 1], last.now);
    }
  }

  lemma {:induction false} UnsweptWrites(ops: seq<Op>, id: Id)
    ensures LastWrite(Unswept(ops), id) == LastWrite(ops, id)
    decreases |ops|
  {
    if ops != [] {
      var rest := Unswept(ops[..|ops| - 1]);
      UnsweptWrites(ops[..|ops| - 1], id);
      assert (rest + [ops[|ops| - 1]])[..|rest|] == rest;
    }
  }

  /** At any time a database holds the same live records as one that never swept, so lookups,
      lengths, relay snapshots and dumps, which are functions of those, come out the same. */
  lemma {:induction false} SweepingIsInvisible(p: Policy, ops: seq<Op>, now: int)
    requires Timed(ops, now)
    ensures Live(p, Exec(p, ops), now) == Live(p, Exec(p, Unswept(ops)), now)
  {
    var a, b := Live(p, Exec(p, ops), now), Live(p, Exec(p, Unswept(ops)), now);
    UnsweptTimed(ops, now);
    forall id ensures Lookup(a, id) == Lookup(b, id) {
      RefinesTimedMap(p, ops, now, id);
      RefinesTimedMap(p, Unswept(ops), now, id);
      UnsweptWrites(ops, id);
    }
    SameLookups(a, b);
  }

  lemma SameLookups(a: map<Id, AdvertRecord>, b: map<Id, AdvertRecord>)
    requires forall id :: Lookup(a, id) == Lookup(b, id)
    ensures a == b
  {
    assert a.Keys == b.Keys by {
      forall id ensures id in a <==> id in b { assert Lookup(a, id) == Lookup(b, id); }
    }
    forall id | id in a ensures a[id] == b[id] { assert Lookup(a, id) == Lookup(b, id); }
  }

  /** The relay snapshot is a function of the live records. */
  lemma SnapshotUnique(m: map<Id, AdvertRecord>, ids: seq<Id>, eps: Option<seq<Endpoint>>, ids': seq<Id>, eps': Option<seq<Endpoint>>)
    requires ListsRelays(ids, m) && AlignsEndpoints(ids, eps, m)
    requires ListsRelays(ids', m) && AlignsEndpoints(ids', eps', m)
    ensures ids == ids' && eps == eps'
  {
    IncreasingUnique(ids, ids');
    if eps.Some? {
      forall i | 0 <= i < |ids| ensures eps.value[i] == eps'.value[i] {
        assert m[ids[i]].endpoint == Some(eps.value[i]) == Some(eps'.value[i]);
      }
      assert eps.value == eps'.value;
    }
  }

  /** Any dump and any relay snapshot, given at the same time by a database and by one with the same
      history that never swept, are equal. */
  lemma {:induction false} SweepsDoNotShow(p: Policy, ops: seq<Op>, now: int, dump: seq<AdvertRecord>, dump': seq<AdvertRecord>,
                        ids: seq<Id>, eps: Option<seq<Endpoint>>, ids': seq<Id>, eps': Option<seq<Endpoint>>)
    requires Timed(ops, now)
    requires Lists(dump, Live(p, Exec(p, ops), now)) && Lists(dump', Live(p, Exec(p, Unswept(ops)), now))
    requires ListsRelays(ids, Live(p, Exec(p, ops), now)) && AlignsEndpoints(ids, eps, Live(p, Exec(p, ops), now))
    requires ListsRelays(ids', Live(p, Exec(p, Unswept(ops)), now)) && AlignsEndpoints(ids', eps', Live(p, Exec(p, Unswept(ops)), now))
    ensures dump == dump' && ids == ids' && eps == eps'
  {
    SweepingIsInvisible(p, ops, now);
    var m := Live(p, Exec(p, ops), now);
    ListsUnique(dump, dump', m);
    SnapshotUnique(m, ids, eps, ids', eps');
  }

  lemma SameEmpty(a: seq<Id>, b: seq<Id>)
    requires forall id :: id in a <==> id in b
    ensures a == [] ==> b == []
  {
    if b != [] { assert b[0] in a; }
  }

  lemma {:induction false} IncreasingUnique(a: seq<Id>, b: seq<Id>)
    requires forall id :: id in a <==> id in b
    requires forall i, j | 0 <= i < j < |a| :: Less(a[i], a[j])
    requires forall i, j | 0 <= i < j < |b| :: Less(b[i], b[j])
    ensures a == b
    decreases |a|
  {
    SameEmpty(a, b);
    if a != [] {
      assert a[0] in b;
      var i :| 0 <= i < |b| && b[i] == a[0];
      assert b[0] in a;
      var j :| 0 <= j < |a| && a[j] == b[0];
      LessAsymmetric(a[0], b[0]);
      assert a[0] == b[0];
      forall id ensures id in a[1..] <==> id in b[1..] {
        LessAsymmetric(a[0], a[0]);
        if id in a[1..] {
          var k :| 1 <= k < |a| && a[k] == id;
          assert Less(a[0], a[k]) && id in b;
        }
        if id in b[1..] {
          var k :| 1 <= k < |b| && b[k] == id;
          assert Less(b[0], b[k]) && id in a;
        }
      }
      IncreasingUnique(a[1..], b[1..]);
    }
  }

  lemma {:induction false} WriteThenSweep(p: Policy, r: AdvertRecord, t: int, now: int)
    ensures var ops := [Upsert(t, r), Sweep(now)];
            && Exec(p, ops) == Swept(p, map[r.id := Stored(r, t)], now)
            && Unswept(ops) == [Upsert(t, r)] && Exec(p, Unswept(ops)) == map[r.id := Stored(r, t)]
  {
    var one, ops := [Upsert(t, r)], [Upsert(t, r), Sweep(now)];
    assert one[..0] == [] && ops[..1] == one;
    assert Exec(p, one) == Do(p, Exec(p, []), Upsert(t, r));
    assert Unswept(one) == [] + [Upsert(t, r)] == one;
  }

  /** The own id must stay the same: a record swept as anyone's stays gone, while a database that
      had not swept it shows it again once it is the node's own. */
  lemma {:induction false} OwnIdShowsSweeps(r: AdvertRecord, ttl: nat, t: int, now: int)
    requires !IsRelay(r) && now - t >= ttl && now >= t
    ensures
      var p, own := Policy(Some(ttl), None), Policy(Some(ttl), Some(r.id));
      var ops := [Upsert(t, r), Sweep(now)];
      && Timed(ops, now)
      && r.id !in Live(own, Exec(p, ops), now)
      && r.id in Live(own, Exec(p, Unswept(ops)), now)
  {
    var p, own := Policy(Some(ttl), None), Policy(Some(ttl), Some(r.id));
    WriteThenSweep(p, r, t, now);
    assert Expired(p, Stored(r, t), now) && !Expired(own, Stored(r, t), now);
  }

  // ----- dump and replay -----

  /** A peer that upserts the records it is sent, all at one time. */
  function Replay(rs: seq<AdvertRecord>, now: int): seq<Op>
    decreases |rs|
  {
    if rs == [] then [] else Replay(rs[..|rs| - 1], now) + [Upsert(now, rs[|rs| - 1])]
  }

  lemma {:induction false} ReplayTimed(rs: seq<AdvertRecord>, now: int)
    ensures Timed(Replay(rs, now), now)
    ensures forall i | 0 <= i < |Replay(rs, now)| :: Replay(rs, now)[i].now == now
    decreases |rs|
  {
    if rs != [] { ReplayTimed(rs[..|rs| - 1], now); }
  }

  lemma {:induction false} ReplayWrites(rs: seq<AdvertRecord>, now: int, id: Id)
    requires DistinctIds(rs)
    ensures forall i | 0 <= i < |rs| && rs[i].id == id :: LastWrite(Replay(rs, now), id) == Some(Stored(rs[i], now))
    ensures (forall i | 0 <= i < |rs| :: rs[i].id != id) ==> LastWrite(Replay(rs, now), id) == None
    decreases |rs|
  {
    if rs != [] {
      var front := rs[..|rs| - 1];
      ReplayWrites(front, now, id);
      var ops := Replay(rs, now);
      assert ops[..|ops| - 1] == Replay(front, now) && ops[|ops| - 1] == Upsert(now, rs[|rs| - 1]);
    }
  }

  /** A record that is gone as soon as it comes, at a peer whose adverts have no time to live. */
  predicate StillBorn(peer: Policy, r: AdvertRecord) {
    peer.ttl == Some(0) && !IsRelay(r) && peer.ownId != Some(r.id)
  }

  /** What the peer sees of the records it was sent. */
  lemma {:induction false} ReplayedLookup(peer: Policy, rs: seq<AdvertRecord>, now: int, id: Id)
    requires DistinctIds(rs)
    ensures
      var got := Lookup(Live(peer, Exec(peer, Replay(rs, now)), now), id);
      && (forall i | 0 <= i < |rs| && rs[i].id == id :: got == if StillBorn(peer, rs[i]) then None else Some(rs[i]))
      && ((forall i | 0 <= i < |rs| :: rs[i].id != id) ==> got == None)
  {
    ReplayTimed(rs, now);
    RefinesTimedMap(peer, Replay(rs, now), now, id);
    ReplayWrites(rs, now, id);
  }

  lemma ListedDistinct(dump: seq<AdvertRecord>, m: map<Id, AdvertRecord>)
    requires Lists(dump, m)
    ensures DistinctIds(dump)
  {
    forall i, j | 0 <= i < j < |dump| ensures dump[i].id != dump[j].id {
      LessAsymmetric(dump[i].id, dump[j].id);
    }
  }

  lemma ListedLookup(dump: seq<AdvertRecord>, m: map<Id, AdvertRecord>, id: Id)
    requires Lists(dump, m)
    ensures forall i | 0 <= i < |dump| && dump[i].id == id :: Lookup(m, id) == Some(dump[i])
    ensures (forall i | 0 <= i < |dump| :: dump[i].id != id) ==> Lookup(m, id) == None
  {
  }

  /** A dump replayed into an empty database gives the same live records at that instant, whatever
      the peer's own id, exactly when none of them is still-born there. */
  lemma {:induction false} DumpReplicates(p: Policy, db: Db, now: int, dump: seq<AdvertRecord>, peer: Policy)
    requires Lists(dump, Live(p, db, now))
    ensures Live(peer, Exec(peer, Replay(dump, now)), now) == Live(p, db, now)
            <==> forall i | 0 <= i < |dump| :: !StillBorn(peer, dump[i])
  {
    var m, got := Live(p, db, now), Live(peer, Exec(peer, Replay(dump, now)), now);
    ListedDistinct(dump, m);
    if forall i | 0 <= i < |dump| :: !StillBorn(peer, dump[i]) {
      forall id ensures Lookup(got, id) == Lookup(m, id) {
        ReplayedLookup(peer, dump, now, id);
        ListedLookup(dump, m, id);
      }
      SameLookups(got, m);
    } else {
      var i :| 0 <= i < |dump| && StillBorn(peer, dump[i]);
      ReplayedLookup(peer, dump, now, dump[i].id);
      ListedLookup(dump, m, dump[i].id);
    }
  }

  /** The map holds exactly these records. */
  ghost predicate HoldsExactly(m: map<Id, AdvertRecord>, rs: seq<AdvertRecord>) {
    && (forall i | 0 <= i < |rs| :: Lookup(m, rs[i].id) == Some(rs[i]))
    && (forall id | id in m :: exists i :: 0 <= i < |rs| && rs[i].id == id)
  }

  lemma {:induction false} EnumerationSize(rs: seq<AdvertRecord>, m: map<Id, AdvertRecord>)
    requires DistinctIds(rs) && HoldsExactly(m, rs)
    ensures |m| == |rs|
    decreases |rs|
  {
    if rs == [] {
      assert m == map[];
    } else {
      var front, last := rs[..|rs| - 1], rs[|rs| - 1];
      forall id | id in m - {last.id} ensures exists i :: 0 <= i < |front| && front[i].id == id {
        var i :| 0 <= i < |rs| && rs[i].id == id;
        assert front[i].id == id;
      }
      EnumerationSize(front, m - {last.id});
      assert m.Keys == (m - {last.id}).Keys + {last.id};
    }
  }

  /** The records that are not still-born at the peer. */
  function Born(peer: Policy, rs: seq<AdvertRecord>): seq<AdvertRecord>
    decreases |rs|
  {
    if rs == [] then []
    else
      var rest, last := Born(peer, rs[..|rs| - 1]), rs[|rs| - 1];
      if StillBorn(peer, last) then rest else rest + [last]
  }

  lemma {:induction false} BornExactly(peer: Policy, rs: seq<AdvertRecord>)
    requires DistinctIds(rs)
    ensures forall r :: r in Born(peer, rs) <==> r in rs && !StillBorn(peer, r)
    ensures DistinctIds(Born(peer, rs))
    decreases |rs|
  {
    if rs != [] {
      var front, last := rs[..|rs| - 1], rs[|rs| - 1];
      BornExactly(peer, front);
      assert rs == front + [last];
      forall i | 0 <= i < |Born(peer, front)| ensures Born(peer, front)[i].id != last.id {
        assert Born(peer, front)[i] in front;
      }
    }
  }

  lemma {:induction false} BornCount(peer: Policy, rs: seq<AdvertRecord>)
    ensures |Born(peer, rs)| <= |rs|
    ensures |Born(peer, rs)| == |rs| <==> forall i | 0 <= i < |rs| :: !StillBorn(peer, rs[i])
    decreases |rs|
  {
    if rs != [] {
      var front, last := rs[..|rs| - 1], rs[|rs| - 1];
      BornCount(peer, front);
      assert forall i | 0 <= i < |front| :: front[i] == rs[i];
    }
  }

  /** After the first `k` records the peer counts those of them that are not still-born, so it reaches
      the announced number with the last record, and not before, exactly when none is. */
  lemma {:induction false} CountReachedAtLast(p: Policy, db: Db, now: int, dump: seq<AdvertRecord>, peer: Policy, k: nat)
    requires Lists(dump, Live(p, db, now)) && k <= |dump|
    ensures |Live(peer, Exec(peer, Replay(dump[..k], now)), now)| == |Born(peer, dump[..k])| <= k
    ensures |Born(peer, dump[..k])| == k <==> forall i | 0 <= i < k :: !StillBorn(peer, dump[i])
  {
    ListedDistinct(dump, Live(p, db, now));
    var rs, got := dump[..k], Live(peer, Exec(peer, Replay(dump[..k], now)), now);
    BornExactly(peer, rs);
    BornCount(peer, rs);
    BornEnumerates(peer, rs, now);
    EnumerationSize(Born(peer, rs), got);
  }

  lemma {:induction false} BornEnumerates(peer: Policy, rs: seq<AdvertRecord>, now: int)
    requires DistinctIds(rs)
    ensures HoldsExactly(Live(peer, Exec(peer, Replay(rs, now)), now), Born(peer, rs))
  {
    var born, got := Born(peer, rs), Live(peer, Exec(peer, Replay(rs, now)), now);
    BornExactly(peer, rs);
    forall i | 0 <= i < |born| ensures Lookup(got, born[i].id) == Some(born[i]) {
      assert born[i] in born;
      var j :| 0 <= j < |rs| && rs[j] == born[i];
      ReplayedLookup(peer, rs, now, born[i].id);
    }
    forall id | id in got ensures exists i :: 0 <= i < |born| && born[i].id == id {
      ReplayedLookup(peer, rs, now, id);
      assert Lookup(got, id) != None;
      var j :| 0 <= j < |rs| && rs[j].id == id;
      assert rs[j] in born;
      var i :| 0 <= i < |born| && born[i] == rs[j];
    }
  }
}
