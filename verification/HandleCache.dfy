/** The two-way cache of handles and user ids, whose entries age. */
module HandleCache {
  import opened Wrappers

  type Handle = string
  type UserId = string

  datatype Cache = Cache(toId: map<Handle, (UserId, int)>, toHandle: map<UserId, (Handle, int)>)

  const EMPTY := Cache(map[], map[])

  function Elapsed(now: int, since: int): nat {
    if now < since then 0 else now - since
  }

  /** Each map is the other one turned around, timestamps included. */
  ghost predicate Mirrored(c: Cache) {
    && (forall h | h in c.toId :: c.toId[h].0 in c.toHandle && c.toHandle[c.toId[h].0] == (h, c.toId[h].1))
    && (forall u | u in c.toHandle :: c.toHandle[u].0 in c.toId && c.toId[c.toHandle[u].0] == (u, c.toHandle[u].1))
  }

  /** Every pair that mentions `h` or `u` goes, and the new pair comes. */
  function Inserted(c: Cache, h: Handle, u: UserId, now: int): Cache {
    Cache((map k | k in c.toId && k != h && c.toId[k].0 != u :: c.toId[k])[h := (u, now)],
          (map k | k in c.toHandle && k != u && c.toHandle[k].0 != h :: c.toHandle[k])[u := (h, now)])
  }

  function WithoutHandle(c: Cache, h: Handle): Cache {
    Cache(c.toId - {h}, map k | k in c.toHandle && c.toHandle[k].0 != h :: c.toHandle[k])
  }

  function WithoutUser(c: Cache, u: UserId): Cache {
    Cache(map k | k in c.toId && c.toId[k].0 != u :: c.toId[k], c.toHandle - {u})
  }

  /** The pair of `h` goes, if it has reached its expiry. */
  function Aged(c: Cache, h: Handle, expiry: nat, now: int): Cache {
    if h in c.toId && Elapsed(now, c.toId[h].1) >= expiry
    then Cache(c.toId - {h}, c.toHandle - {c.toId[h].0}) else c
  }

  function IdOf(c: Cache, h: Handle, expiry: nat, now: int): Option<UserId> {
    if h in c.toId && Elapsed(now, c.toId[h].1) < expiry then Some(c.toId[h].0) else None
  }

  function HandleOf(c: Cache, u: UserId, expiry: nat, now: int): Option<Handle> {
    if u in c.toHandle && Elapsed(now, c.toHandle[u].1) < expiry then Some(c.toHandle[u].0) else None
  }

  lemma InsertedInSteps(c: Cache, h: Handle, u: UserId, now: int)
    ensures
      var d := WithoutUser(WithoutHandle(c, h), u);
      Inserted(c, h, u, now) == Cache(d.toId[h := (u, now)], d.toHandle[u := (h, now)])
  {
    var d := WithoutUser(WithoutHandle(c, h), u);
    assert d.toId == map k | k in c.toId && k != h && c.toId[k].0 != u :: c.toId[k];
    assert d.toHandle == map k | k in c.toHandle && k != u && c.toHandle[k].0 != h :: c.toHandle[k];
  }

  lemma InsertedMirrored(c: Cache, h: Handle, u: UserId, now: int)
    requires Mirrored(c)
    ensures Mirrored(Inserted(c, h, u, now))
  {
  }

  class HandleCacheBi {
    var handleToId: map<Handle, (UserId, int)>
    var idToHandle: map<UserId, (Handle, int)>

    function View(): Cache
      reads this
    {
      Cache(handleToId, idToHandle)
    }

    ghost predicate Valid()
      reads this
    {
      Mirrored(View())
    }

    constructor ()
      ensures Valid() && View() == EMPTY
    {
      handleToId, idToHandle := map[], map[];
    }

    method ForgetHandle(handle: Handle)
      requires Valid()
      modifies this
      ensures Valid() && View() == WithoutHandle(old(View()), handle)
    {
      if handle in handleToId {
        var oldUid := handleToId[handle].0;
        handleToId := handleToId - {handle};
        if oldUid in idToHandle && idToHandle[oldUid].0 == handle {
          idToHandle := idToHandle - {oldUid};
        }
      }
    }

    method ForgetUser(userId: UserId)
      requires Valid()
      modifies this
      ensures Valid() && View() == WithoutUser(old(View()), userId)
    {
      if userId in idToHandle {
        var oldHandle := idToHandle[userId].0;
        idToHandle := idToHandle - {userId};
        if oldHandle in handleToId && handleToId[oldHandle].0 == userId {
          handleToId := handleToId - {oldHandle};
        }
      }
    }

    method Insert(handle: Handle, userId: UserId, now: int)
      requires Valid()
      modifies this
      ensures Valid() && View() == Inserted(old(View()), handle, userId, now)
    {
      InsertedInSteps(View(), handle, userId, now);
      InsertedMirrored(View(), handle, userId, now);
      ForgetHandle(handle);
      ForgetUser(userId);
      handleToId := handleToId[handle := (userId, now)];
      idToHandle := idToHandle[userId := (handle, now)];
    }

    method GetIdByHandle(handle: Handle, expiry: nat, now: int) returns (r: Option<UserId>)
      requires Valid()
      modifies this
      ensures Valid() && View() == Aged(old(View()), handle, expiry, now)
      ensures r == IdOf(old(View()), handle, expiry, now)
    {
      if handle in handleToId {
        var (uid, ts) := handleToId[handle];
        if Elapsed(now, ts) < expiry {
          return Some(uid);
        }
        handleToId := handleToId - {handle};
        if uid in idToHandle && idToHandle[uid].0 == handle {
          idToHandle := idToHandle - {uid};
        }
      }
      r := None;
    }

    method GetHandleById(userId: UserId, expiry: nat, now: int) returns (r: Option<Handle>)
      requires Valid()
      modifies this
      ensures Valid()
      ensures View() == if userId in old(idToHandle) then Aged(old(View()), old(idToHandle)[userId].0, expiry, now) else old(View())
      ensures r == HandleOf(old(View()), userId, expiry, now)
    {
      if userId in idToHandle {
        var (handle, ts) := idToHandle[userId];
        if Elapsed(now, ts) < expiry {
          return Some(handle);
        }
        idToHandle := idToHandle - {userId};
        if handle in handleToId && handleToId[handle].0 == userId {
          handleToId := handleToId - {handle};
        }
      }
      r := None;
    }
  }

  // ----- against the log -----

  datatype Op =
    | Put(now: int, handle: Handle, user: UserId)
    | AskId(now: int, handle: Handle)
    | AskHandle(now: int, user: UserId)

  function Do(c: Cache, expiry: nat, op: Op): Cache {
    match op
    case Put(now, h, u) => Inserted(c, h, u, now)
    case AskId(now, h) => Aged(c, h, expiry, now)
    case AskHandle(now, u) => if u in c.toHandle then Aged(c, c.toHandle[u].0, expiry, now) else c
  }

  function Exec(expiry: nat, ops: seq<Op>): Cache
    decreases |ops|
  {
    if ops == [] then EMPTY else Do(Exec(expiry, ops[..|ops| - 1]), expiry, ops[|ops| - 1])
  }

  ghost predicate Timed(ops: seq<Op>, now: int) {
    && (forall i, j | 0 <= i < j < |ops| :: ops[i].now <= ops[j].now)
    && (forall i | 0 <= i < |ops| :: ops[i].now <= now)
  }

  /** The insert at `i` paired `h` with `u`, and no later insert mentions either. */
  ghost predicate Stands(ops: seq<Op>, i: nat, h: Handle, u: UserId) {
    && i < |ops| && ops[i].Put? && ops[i].handle == h && ops[i].user == u
    && forall j | i < j < |ops| && ops[j].Put? :: ops[j].handle != h && ops[j].user != u
  }

  lemma DoMirrored(c: Cache, expiry: nat, op: Op)
    requires Mirrored(c)
    ensures Mirrored(Do(c, expiry, op))
  {
    if op.Put? { InsertedMirrored(c, op.handle, op.user, op.now); }
  }

  lemma {:induction false} ExecMirrored(expiry: nat, ops: seq<Op>)
    ensures Mirrored(Exec(expiry, ops))
    decreases |ops|
  {
    if ops != [] {
      ExecMirrored(expiry, ops[..|ops| - 1]);
      DoMirrored(Exec(expiry, ops[..|ops| - 1]), expiry, ops[|ops| - 1]);
    }
  }

  lemma DoEntry(c: Cache, expiry: nat, op: Op, h: Handle)
    requires h in Do(c, expiry, op).toId && !(op.Put? && op.handle == h)
    ensures h in c.toId && Do(c, expiry, op).toId[h] == c.toId[h]
    ensures op.Put? ==> op.user != c.toId[h].0
  {
  }

  /** An entry of the cache stems from an insert that stands. */
  lemma {:induction false} EntryStands(expiry: nat, ops: seq<Op>, h: Handle) returns (i: nat)
    requires h in Exec(expiry, ops).toId
    ensures Stands(ops, i, h, Exec(expiry, ops).toId[h].0) && ops[i].now == Exec(expiry, ops).toId[h].1
    decreases |ops|
  {
    var last := ops[|ops| - 1];
    if last.Put? && last.handle == h {
      i := |ops| - 1;
    } else {
      var front := ops[..|ops| - 1];
      DoEntry(Exec(expiry, front), expiry, last, h);
      i := EntryStands(expiry, front, h);
    }
  }

  /** An insert that stands is in the cache, unless it has reached its expiry. */
  lemma {:induction false} StandingKept(expiry: nat, ops: seq<Op>, now: int, i: nat, h: Handle, u: UserId)
    requires Timed(ops, now) && Stands(ops, i, h, u) && Elapsed(now, ops[i].now) < expiry
    ensures h in Exec(expiry, ops).toId && Exec(expiry, ops).toId[h] == (u, ops[i].now)
    decreases |ops|
  {
    var last := ops[|ops| - 1];
    if i < |ops| - 1 {
      var front := ops[..|ops| - 1];
      StandingKept(expiry, front, last.now, i, h, u);
      ExecMirrored(expiry, front);
    }
  }

  /** The cache refines its log: `h` yields `u` exactly when the last insert of `h` paired it with
      `u`, no later insert gave `u` another handle, and its age is below the expiry. */
  lemma {:induction false} RefinesLog(expiry: nat, ops: seq<Op>, now: int, h: Handle, u: UserId)
    requires Timed(ops, now)
    ensures IdOf(Exec(expiry, ops), h, expiry, now) == Some(u)
            <==> exists i: nat :: Stands(ops, i, h, u) && Elapsed(now, ops[i].now) < expiry
  {
    var c := Exec(expiry, ops);
    if IdOf(c, h, expiry, now) == Some(u) {
      var i := EntryStands(expiry, ops, h);
    }
    if i: nat :| Stands(ops, i, h, u) && Elapsed(now, ops[i].now) < expiry {
      StandingKept(expiry, ops, now, i, h, u);
    }
  }

  /** The two directions agree: `h` yields `u` exactly when `u` yields `h`. */
  lemma {:induction false} DirectionsAgree(expiry: nat, ops: seq<Op>, now: int, h: Handle, u: UserId)
    ensures Mirrored(Exec(expiry, ops))
    ensures IdOf(Exec(expiry, ops), h, expiry, now) == Some(u) <==> HandleOf(Exec(expiry, ops), u, expiry, now) == Some(h)
  {
    ExecMirrored(expiry, ops);
  }
}
