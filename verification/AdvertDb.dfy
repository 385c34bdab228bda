/** The advert database of a relay: records that expire, swept lazily. Clock readings are parameters. */
module AdvertDb {
  import opened Wrappers
  import opened Order
  import opened Sorting

  type Id = string

  datatype Endpoint = Endpoint(host: string, port: nat)

  datatype AdvertRecord = AdvertRecord(
    id: Id,
    endpoint: Option<Endpoint>,
    amRelay: Option<bool>,
    relayId: Option<Id>,
    relaySig: Option<string>,
    date: string,
    sig: Option<string>)

  datatype Stored = Stored(record: AdvertRecord, received: int)

  /** How long client adverts live, and whose advert is the node's own. */
  datatype Policy = Policy(ttl: Option<nat>, ownId: Option<Id>)

  type Db = map<Id, Stored>

  const DEFAULT_ADVERT_TTL: nat := 600

  function EffectiveTtl(requested: Option<nat>): (r: Option<nat>)
    ensures r != Some(0)
    ensures r.None? <==> requested == Some(0)
    ensures requested.None? ==> r == Some(600)
    ensures requested.Some? && requested.value > 0 ==> r == requested
  {
    match requested
    case None => Some(DEFAULT_ADVERT_TTL)
    case Some(ttl) => if ttl == 0 then None else Some(ttl)
  }

  predicate IsRelay(r: AdvertRecord) {
    r.amRelay.GetOr(false)
  }

  function Elapsed(now: int, since: int): nat {
    if now < since then 0 else now - since
  }

  predicate Expired(p: Policy, s: Stored, now: int) {
    match p.ttl
    case None => false
    case Some(ttl) =>
      if IsRelay(s.record) || p.ownId == Some(s.record.id) then false
      else Elapsed(now, s.received) >= ttl
  }

  ghost predicate Keyed(db: Db) {
    forall id | id in db :: db[id].record.id == id
  }

  /** What the database holds at `now`, as far as anyone can see. */
  function Live(p: Policy, db: Db, now: int): map<Id, AdvertRecord> {
    map id | id in db && !Expired(p, db[id], now) :: db[id].record
  }

  function Lookup(m: map<Id, AdvertRecord>, id: Id): Option<AdvertRecord> {
    if id in m then Some(m[id]) else None
  }

  // ----- listings in id order -----

  function IdLeq(a: AdvertRecord, b: AdvertRecord): bool {
    !Less(b.id, a.id)
  }

  /** `rs` lists each record of `m` once, in strictly increasing id order. */
  ghost predicate Lists(rs: seq<AdvertRecord>, m: map<Id, AdvertRecord>) {
    && (forall i | 0 <= i < |rs| :: rs[i].id in m && m[rs[i].id] == rs[i])
    && (forall id | id in m :: m[id].id == id && m[id] in rs)
    && (forall i, j | 0 <= i < j < |rs| :: Less(rs[i].id, rs[j].id))
  }

  lemma IdOrder()
    ensures TotalOrder(IdLeq)
  {
    forall a: AdvertRecord, b: AdvertRecord ensures IdLeq(a, b) || IdLeq(b, a) {
      LessAsymmetric(a.id, b.id);
    }
    forall a: AdvertRecord, b: AdvertRecord, c: AdvertRecord | IdLeq(a, b) && IdLeq(b, c) ensures IdLeq(a, c) {
      LessTotal(a.id, b.id);
      LessTotal(b.id, c.id);
      if Less(a.id, b.id) && Less(b.id, c.id) { LessTransitive(a.id, b.id, c.id); }
      LessAsymmetric(a.id, c.id);
    }
  }

  ghost predicate DistinctIds(rs: seq<AdvertRecord>) {
    forall i, j | 0 <= i < j < |rs| :: rs[i].id != rs[j].id
  }

  /** An enumeration in any order, without repetition: what walking the hash map yields. */
  ghost predicate Enumerates(rs: seq<AdvertRecord>, m: map<Id, AdvertRecord>) {
    && (forall i | 0 <= i < |rs| :: rs[i].id in m && m[rs[i].id] == rs[i])
    && (forall id | id in m :: m[id].id == id && m[id] in rs)
    && DistinctIds(rs)
  }

  lemma LiveStep(m: map<Id, AdvertRecord>, keys: set<Id>, id: Id)
    requires id in keys
    ensures m - (keys - {id}) == if id in m then (m - keys)[id := m[id]] else m - keys
    ensures id !in m - keys && (id in m ==> |m - (keys - {id})| == |m - keys| + 1)
  {
    if id in m {
      assert (m - (keys - {id})).Keys == (m - keys).Keys + {id};
    }
  }

  lemma EnumerateOneMore(rs: seq<AdvertRecord>, m: map<Id, AdvertRecord>, r: AdvertRecord)
    requires Enumerates(rs, m) && r.id !in m
    ensures Enumerates(rs + [r], m[r.id := r])
  {
    var rs', m' := rs + [r], m[r.id := r];
    forall id | id in m' ensures m'[id].id == id && m'[id] in rs' {
      if id == r.id { assert rs'[|rs|] == r; } else { assert m[id] in rs; }
    }
  }

  lemma SortLists(rs: seq<AdvertRecord>, m: map<Id, AdvertRecord>)
    requires Enumerates(rs, m)
    ensures Lists(Sort(IdLeq, rs), m)
  {
    var s := Sort(IdLeq, rs);
    IdOrder();
    SortSorted(IdLeq, rs);
    DistinctSame(rs, s);
    forall i | 0 <= i < |s| ensures s[i].id in m && m[s[i].id] == s[i] {
      assert s[i] in multiset(rs);
    }
    forall id | id in m ensures m[id] in s {
      assert m[id] in multiset(s);
    }
    forall i, j | 0 <= i < j < |s| ensures Less(s[i].id, s[j].id) {
      LessTotal(s[i].id, s[j].id);
      assert IdLeq(s[i], s[j]);
    }
  }

  /** There is one listing only, so whatever lists a database answers by its live records alone. */
  lemma ListsUnique(a: seq<AdvertRecord>, b: seq<AdvertRecord>, m: map<Id, AdvertRecord>)
    requires Lists(a, m) && Lists(b, m)
    ensures a == b
  {
    ListsSorted(a, m);
    ListsSorted(b, m);
    forall r ensures r in a <==> r in b {
      if r in a { assert m[r.id] in b; }
      if r in b { assert m[r.id] in a; }
    }
    DistinctMultiset(a, b);
    IdOrder();
    forall x, y | x in a && y in a && IdLeq(x, y) && IdLeq(y, x) ensures x == y {
      LessTotal(x.id, y.id);
    }
    SortedUnique(IdLeq, a, b);
  }

  lemma ListsSorted(a: seq<AdvertRecord>, m: map<Id, AdvertRecord>)
    requires Lists(a, m)
    ensures Sorted(IdLeq, a) && Distinct(a)
  {
    forall i, j | 0 <= i < j < |a| ensures IdLeq(a[i], a[j]) && a[i] != a[j] {
      LessAsymmetric(a[i].id, a[j].id);
    }
  }

  // ----- the relay snapshot -----

  /** The ids of the relays among `m`, in strictly increasing order. */
  ghost predicate ListsRelays(ids: seq<Id>, m: map<Id, AdvertRecord>) {
    && (forall i | 0 <= i < |ids| :: ids[i] in m && IsRelay(m[ids[i]]))
    && (forall id | id in m && IsRelay(m[id]) :: id in ids)
    && (forall i, j | 0 <= i < j < |ids| :: Less(ids[i], ids[j]))
  }

  /** Their endpoints, in the same order, provided every one of them has one. */
  ghost predicate AlignsEndpoints(ids: seq<Id>, eps: Option<seq<Endpoint>>, m: map<Id, AdvertRecord>)
    requires forall i | 0 <= i < |ids| :: ids[i] in m
  {
    && (eps.Some? <==> forall i | 0 <= i < |ids| :: m[ids[i]].endpoint.Some?)
    && (eps.Some? ==> |eps.value| == |ids| && forall i | 0 <= i < |ids| :: m[ids[i]].endpoint == Some(eps.value[i]))
  }

  ghost function RelaysOf(m: map<Id, AdvertRecord>): map<Id, AdvertRecord> {
    map id | id in m && IsRelay(m[id]) :: m[id]
  }

  method KeepRelays(all: seq<AdvertRecord>, ghost m: map<Id, AdvertRecord>) returns (rels: seq<AdvertRecord>)
    requires Enumerates(all, m)
    ensures Enumerates(rels, RelaysOf(m))
  {
    rels := [];
    for i := 0 to |all|
      invariant DistinctIds(rels)
      invariant forall k | 0 <= k < |rels| :: rels[k] in all[..i] && IsRelay(rels[k])
      invariant forall k | 0 <= k < i && IsRelay(all[k]) :: all[k] in rels
    {
      if IsRelay(all[i]) {
        rels := rels + [all[i]];
      }
    }
  }

  /** The ids and, if every record has one, the endpoints of relays listed in order. */
  method Columns(rels: seq<AdvertRecord>, ghost m: map<Id, AdvertRecord>) returns (ids: seq<Id>, eps: Option<seq<Endpoint>>)
    requires Lists(rels, m) && forall id | id in m :: IsRelay(m[id])
    ensures ListsRelays(ids, m) && AlignsEndpoints(ids, eps, m)
  {
    ids := [];
    var endpoints := [];
    var complete := true;
    for i := 0 to |rels|
      invariant |ids| == |endpoints| == i
      invariant forall k | 0 <= k < i :: ids[k] == rels[k].id
      invariant complete <==> forall k | 0 <= k < i :: rels[k].endpoint.Some?
      invariant complete ==> forall k | 0 <= k < i :: rels[k].endpoint == Some(endpoints[k])
    {
      ids := ids + [rels[i].id];
      complete := complete && rels[i].endpoint.Some?;
      endpoints := endpoints + [rels[i].endpoint.GetOr(Endpoint("", 0))];
    }
    eps := if complete then Some(endpoints) else None;
    forall id | id in m ensures id in ids {
      var k :| 0 <= k < |rels| && rels[k] == m[id];
      assert ids[k] == id;
    }
  }

  method SendAll(records: seq<AdvertRecord>) returns (sent: seq<AdvertRecord>)
    ensures sent == records
  {
    sent := [];
    for i := 0 to |records|
      invariant sent == records[..i]
    {
      sent := sent + [records[i]];
    }
  }

  /** Which relays of a snapshot to evict: not the node itself, and only on a definite refusal. */
  function RelaysToEvict(ids: seq<Id>, myId: Id, permission: Id -> Option<bool>): (r: seq<Id>)
    ensures forall id :: id in r <==> id in ids && id != myId && permission(id) == Some(false)
    ensures Distinct(ids) ==> Distinct(r)
  {
    if ids == [] then []
    else
      var rest := RelaysToEvict(ids[1..], myId, permission);
      if ids[0] != myId && permission(ids[0]) == Some(false) then [ids[0]] + rest else rest
  }

  // ----- the database object -----

  class Backend {
    var db: Db
    const advertTtl: Option<nat>
    var ownId: Option<Id>

    function P(): Policy
      reads this
    {
      Policy(advertTtl, ownId)
    }

    ghost predicate Valid()
      reads this
    {
      Keyed(db)
    }

    constructor (advertTtl: Option<nat>)
      ensures Valid() && db == map[] && P() == Policy(advertTtl, None)
    {
      this.advertTtl, ownId, db := advertTtl, None, map[];
    }

    method SetOwnId(id: Id)
      modifies this`ownId
      ensures P() == Policy(advertTtl, Some(id))
    {
      ownId := Some(id);
    }

    method Upsert(now: int, record: AdvertRecord)
      requires Valid()
      modifies this`db
      ensures Valid() && db == old(db)[record.id := Stored(record, now)]
    {
      db := db[record.id := Stored(record, now)];
    }

    method Delete(id: Id)
      requires Valid()
      modifies this`db
      ensures Valid() && db == old(db) - {id}
    {
      db := db - {id};
    }

    method Find(now: int, id: Id) returns (r: Option<AdvertRecord>)
      ensures r == Lookup(Live(P(), db, now), id)
    {
      if id in db && !Expired(P(), db[id], now) {
        r := Some(db[id].record);
      } else {
        r := None;
      }
    }

    /** Walks the map, in whatever order, and keeps the live records. */
    method LiveRecords(now: int) returns (rs: seq<AdvertRecord>)
      requires Valid()
      ensures Enumerates(rs, Live(P(), db, now))
      ensures |rs| == |Live(P(), db, now)|
    {
      rs := [];
      var p, keys := P(), db.Keys;
      ghost var live := Live(p, db, now);
      assert live - keys == map[];
      while keys != {}
        invariant keys <= db.Keys
        invariant Enumerates(rs, live - keys) && |rs| == |live - keys|
        decreases keys
      {
        var id :| id in keys;
        LiveStep(live, keys, id);
        if !Expired(p, db[id], now) {
          EnumerateOneMore(rs, live - keys, db[id].record);
          rs := rs + [db[id].record];
        }
        keys := keys - {id};
      }
      assert live - keys == live;
    }

    method Len(now: int) returns (n: nat)
      requires Valid()
      ensures n == |Live(P(), db, now)|
    {
      var rs := LiveRecords(now);
      n := |rs|;
    }

    /** The relay ids in order, and their endpoints when all are known. */
    method MakeEpochInfo(now: int) returns (ids: seq<Id>, eps: Option<seq<Endpoint>>)
      requires Valid()
      ensures ListsRelays(ids, Live(P(), db, now))
      ensures AlignsEndpoints(ids, eps, Live(P(), db, now))
    {
      var all := LiveRecords(now);
      ghost var live := Live(P(), db, now);
      var rels := KeepRelays(all, live);
      ghost var relays := RelaysOf(live);
      SortLists(rels, relays);
      rels := Sort(IdLeq, rels);
      ids, eps := Columns(rels, relays);
    }

    /** What is sent to a new peer: the announced number, then the records one by one. */
    method HandleInit(now: int) returns (count: nat, dump: seq<AdvertRecord>)
      requires Valid()
      ensures Lists(dump, Live(P(), db, now))
      ensures count == |dump| == |Live(P(), db, now)|
    {
      var scan := LiveRecords(now);
      SortLists(scan, Live(P(), db, now));
      var records := Sort(IdLeq, scan);
      count := |records|;
      dump := SendAll(records);
    }

    /** Which relays to evict, by the database as it is now: those that are definitely not permitted,
        the node itself excepted, each once. */
    method PlanEviction(now: int, myId: Id, permission: Id -> Option<bool>) returns (evict: seq<Id>)
      requires Valid()
      ensures forall id :: id in evict <==> id in db && IsRelay(db[id].record) && id != myId && permission(id) == Some(false)
      ensures Distinct(evict)
    {
      var ids, _ := MakeEpochInfo(now);
      forall id | id in db && IsRelay(db[id].record) ensures id in ids {
        assert !Expired(P(), db[id], now) && id in Live(P(), db, now);
      }
      forall i, j | 0 <= i < j < |ids| ensures ids[i] != ids[j] { LessAsymmetric(ids[i], ids[j]); }
      evict := RelaysToEvict(ids, myId, permission);
    }

    /** Removes the given records, whatever has become of them meanwhile, and no others. */
    method RemoveAll(ids: seq<Id>)
      requires Valid()
      modifies this`db
      ensures Valid() && db == old(db) - set id | id in ids
    {
      for i := 0 to |ids|
        invariant Keyed(db)
        invariant forall id :: id in db <==> id in old(db) && id !in ids[..i]
        invariant forall id | id in db :: db[id] == old(db)[id]
      {
        Delete(ids[i]);
        assert ids[..i + 1] == ids[..i] + [ids[i]];
      }
      assert ids[..|ids|] == ids;
    }

    /** Removes exactly the relays that are definitely not permitted, the node itself excepted, and
        leaves every other record as it was. */
    method EvictDisallowedRelays(now: int, myId: Id, permission: Id -> Option<bool>) returns (evicted: seq<Id>)
      requires Valid()
      modifies this`db
      ensures Valid()
      ensures forall id :: id in evicted <==>
                id in old(db) && IsRelay(old(db)[id].record) && id != myId && permission(id) == Some(false)
      ensures db.Keys == old(db).Keys - set id | id in evicted
      ensures forall id | id in db :: db[id] == old(db)[id]
    {
      evicted := PlanEviction(now, myId, permission);
      if evicted != [] {
        RemoveAll(evicted);
      }
    }

    /** Removes exactly the expired records and reports their ids, each once. */
    method SweepExpired(now: int) returns (expired: seq<Id>)
      requires Valid()
      modifies this`db
      ensures Valid() && db == Swept(P(), old(db), now)
      ensures Distinct(expired) && forall id :: id in expired <==> id in old(db) && id !in db
    {
      expired := [];
      var keys := db.Keys;
      while keys != {}
        invariant keys <= db.Keys
        invariant forall id :: id in expired <==> id in db.Keys - keys && Expired(P(), db[id], now)
        invariant Distinct(expired)
        decreases keys
      {
        var id :| id in keys;
        keys := keys - {id};
        if Expired(P(), db[id], now) {
          expired := expired + [db[id].record.id];
        }
      }
      for i := 0 to |expired|
        invariant forall id :: id in db <==> id in old(db) && id !in expired[..i]
        invariant forall id | id in db :: db[id] == old(db)[id]
      {
        db := db - {expired[i]};
        assert expired[..i + 1] == expired[..i] + [expired[i]];
      }
      assert expired[..|expired|] == expired;
    }
  }

  function Swept(p: Policy, db: Db, now: int): Db {
    map id | id in db && !Expired(p, db[id], now) :: db[id]
  }
}
