/**
  Checking and co-signing the transaction groups of a registration and of a handle clash recovery.
  Base64, msgpack, hashing and signatures are parameters of the model.
 */
module RegistrationGroup {
  import opened Wrappers
  import opened Bytes

  type Key = Bytes
  type Address = Bytes

  datatype Transaction = Transaction(
    kind: string, snd: Address, fee: Option<nat>,
    fv: Option<nat>, lv: nat, genesisId: Option<string>, gh: Bytes, grp: Option<Bytes>,
    lx: Option<Bytes>, note: Option<Bytes>, rekey: Option<Address>,
    rcv: Option<Address>, amt: Option<nat>, close: Option<Address>,
    xaid: Option<nat>, aamt: Option<nat>, arcv: Option<Address>, aclose: Option<Address>, asnd: Option<Address>,
    apid: Option<nat>, apan: Option<nat>, apaa: Option<seq<Bytes>>,
    apat: Option<seq<Address>>, apfa: Option<seq<nat>>, apas: Option<seq<nat>>)

  /** What the checker relies on from outside: codecs, the keys' addresses and signatures, the
      address of an application's account and the selector of its `register` method. */
  datatype Env = Env(
    unbase64: string -> Option<Bytes>,
    base64: Bytes -> string,
    groupOf: Bytes -> Option<Option<Bytes>>,
    decode: Bytes -> Option<Transaction>,
    publicKey: Key -> Address,
    signature: (Key, Bytes) -> Bytes,
    appAddress: nat -> Address,
    registerSelector: Bytes)

  datatype GroupIds = GroupIds(app: nat, asset: nat)

  datatype Reason =
    | SameKeys | OwnFunder | WrongSender | FeeTooHigh(fee: nat) | Rekeys | HasNote | HasLease
    | WrongKind(kind: string) | HasField(name: string)
    | WrongAsset(asset: Option<nat>) | WrongReceiver | WrongAmount(amount: nat) | WrongCloseTo
    | WrongApp(app: Option<nat>) | WrongOnComplete(apan: Option<nat>) | WrongArguments | WrongForeignAssets

  datatype GroupError =
    | GroupSize(expected: seq<nat>, actual: nat)
    | SignIndexes(expectedIndexes: seq<nat>, actualIndexes: seq<nat>)
    | Undecodable(index: nat)
    | Template(index: nat, what: string, reason: Reason)
    | Ungrouped(index: nat)

  const REGISTRATION_SIGN_INDEXES: seq<nat> := [1, 3, 4, 5]
  const RECOVERY_SIGN_INDEXES: seq<nat> := [0, 1, 2, 3, 5, 6, 7]
  const RECOVERY_OLD_KEY_INDEXES: seq<nat> := [0, 1, 2]
  const RECOVERY_FUNDER_INDEX := 4
  const MAX_CLIENT_FEE := 1000
  const ON_COMPLETE_OPT_IN := 1
  const ON_COMPLETE_CLEAR_STATE := 3

  // ----- templates: the whole transaction, every field of it -----

  /** A transaction with nothing in it but its kind and sender. */
  function Blank(kind: string, sender: Address): Transaction {
    Transaction(kind, sender, None, None, 0, None, [], None, None, None, None,
                None, None, None, None, None, None, None, None, None, None, None, None, None, None)
  }

  function Amount(n: nat): Option<nat> {
    if n == 0 then None else Some(n)
  }

  function Transfer(sender: Address, asset: nat, receiver: Address, amount: nat, closeTo: Option<Address>): Transaction {
    Blank("axfer", sender).(xaid := Some(asset), arcv := Some(receiver), aamt := Amount(amount), aclose := closeTo)
  }

  function CloseAccount(sender: Address, receiver: Address): Transaction {
    Blank("pay", sender).(rcv := Some(receiver), close := Some(receiver))
  }

  /** The template of an application call: with an on-complete action, or `register` with a handle. */
  function CallTemplate(env: Env, sender: Address, ids: GroupIds, onComplete: Option<nat>, handle: Option<Bytes>): Transaction {
    Blank("appl", sender).(
      apid := Some(ids.app),
      apan := onComplete,
      apaa := if handle.Some? then Some(RegisterArgs(env, handle.value)) else None,
      apas := if handle.Some? then Some([ids.asset]) else None)
  }

  /** A transaction without what a template leaves open: fee, validity, network and group. An amount
      of zero is the same as no amount where the kind of transaction has one. */
  function Core(t: Transaction): Transaction {
    t.(fee := None, fv := None, lv := 0, genesisId := None, gh := [], grp := None,
       aamt := if t.kind == "axfer" then Amount(t.aamt.GetOr(0)) else t.aamt,
       amt := if t.kind == "pay" then Amount(t.amt.GetOr(0)) else t.amt)
  }

  /** As a client may sign it. */
  predicate ClientIs(t: Transaction, want: Transaction) {
    Core(t) == want && t.fee.GetOr(0) <= MAX_CLIENT_FEE
  }

  /** As the funder may have made it: any fee, and with or without note, lease and rekey. */
  predicate FunderIs(t: Transaction, want: Transaction) {
    Core(t).(lx := None, note := None, rekey := None) == want
  }

  function RegisterArgs(env: Env, handle: Bytes): seq<Bytes> {
    var length := if |handle| <= 0xFFFF then |handle| else 0xFFFF;
    [env.registerSelector, ToBytes(2, length) + handle]
  }

  // ----- the checks -----

  /** The first field of the list that is present, in list order. */
  function FirstPresent(fields: seq<(string, bool)>): (r: Option<string>)
    ensures r.None? <==> forall i | 0 <= i < |fields| :: !fields[i].1
  {
    if fields == [] then None
    else if fields[0].1 then Some(fields[0].0)
    else FirstPresent(fields[1..])
  }

  function OnlyFields(index: nat, what: string, fields: seq<(string, bool)>): (r: Result<(), GroupError>)
    ensures r.Ok? <==> forall i | 0 <= i < |fields| :: !fields[i].1
  {
    match FirstPresent(fields)
    case Some(name) => Err(Template(index, what, HasField(name)))
    case None => Ok(())
  }

  function NoAppFields(index: nat, what: string, t: Transaction): (r: Result<(), GroupError>)
    ensures r.Ok? <==> t.apid.None? && t.apan.None? && t.apaa.None? && t.apat.None? && t.apfa.None? && t.apas.None?
  {
    var fields := [("apid", t.apid.Some?), ("apan", t.apan.Some?), ("apaa", t.apaa.Some?),
                   ("apat", t.apat.Some?), ("apfa", t.apfa.Some?), ("apas", t.apas.Some?)];
    assert fields[0].1 == t.apid.Some? && fields[1].1 == t.apan.Some? && fields[2].1 == t.apaa.Some?
           && fields[3].1 == t.apat.Some? && fields[4].1 == t.apfa.Some? && fields[5].1 == t.apas.Some?;
    OnlyFields(index, what, fields)
  }

  /** What every client transaction shares, once decoded. */
  function CheckBasics(index: nat, t: Transaction, sender: Address): (r: Result<(), GroupError>)
    ensures r.Ok? <==> t.snd == sender && t.fee.GetOr(0) <= MAX_CLIENT_FEE && t.rekey.None? && t.note.None? && t.lx.None?
  {
    var what := "client transaction";
    if t.snd != sender then Err(Template(index, what, WrongSender))
    else if t.fee.GetOr(0) > MAX_CLIENT_FEE then Err(Template(index, what, FeeTooHigh(t.fee.GetOr(0))))
    else if t.rekey.Some? then Err(Template(index, what, Rekeys))
    else if t.note.Some? then Err(Template(index, what, HasNote))
    else if t.lx.Some? then Err(Template(index, what, HasLease))
    else Ok(())
  }

  function CheckAssetTransfer(index: nat, t: Transaction, ids: GroupIds, receiver: Address, amount: nat, closeTo: Option<Address>): (r: Result<(), GroupError>)
    ensures r.Ok? <==> FunderIs(t, Transfer(t.snd, ids.asset, receiver, amount, closeTo))
  {
    var what := "Bingle$ transfer";
    if t.kind != "axfer" then Err(Template(index, what, WrongKind(t.kind)))
    else
      var fields := [("rcv", t.rcv.Some?), ("amt", t.amt.Some?), ("close", t.close.Some?), ("asnd", t.asnd.Some?)];
      assert fields[0].1 == t.rcv.Some? && fields[1].1 == t.amt.Some? && fields[2].1 == t.close.Some? && fields[3].1 == t.asnd.Some?;
      var _ :- OnlyFields(index, what, fields);
      var _ :- NoAppFields(index, what, t);
      if t.xaid != Some(ids.asset) then Err(Template(index, what, WrongAsset(t.xaid)))
      else if t.arcv != Some(receiver) then Err(Template(index, what, WrongReceiver))
      else if t.aamt.GetOr(0) != amount then Err(Template(index, what, WrongAmount(t.aamt.GetOr(0))))
      else if t.aclose != closeTo then Err(Template(index, what, WrongCloseTo))
      else Ok(())
  }

  function CheckAssetOptIn(index: nat, t: Transaction, ids: GroupIds): (r: Result<(), GroupError>)
    ensures r.Ok? <==> FunderIs(t, Transfer(t.snd, ids.asset, t.snd, 0, None))
  {
    CheckAssetTransfer(index, t, ids, t.snd, 0, None)
  }

  function CheckPaymentClose(index: nat, t: Transaction, receiver: Address): (r: Result<(), GroupError>)
    ensures r.Ok? <==> FunderIs(t, CloseAccount(t.snd, receiver))
  {
    var what := "account close";
    if t.kind != "pay" then Err(Template(index, what, WrongKind(t.kind)))
    else
      var fields := [("xaid", t.xaid.Some?), ("aamt", t.aamt.Some?), ("arcv", t.arcv.Some?), ("aclose", t.aclose.Some?), ("asnd", t.asnd.Some?)];
      assert fields[0].1 == t.xaid.Some? && fields[1].1 == t.aamt.Some? && fields[2].1 == t.arcv.Some?
             && fields[3].1 == t.aclose.Some? && fields[4].1 == t.asnd.Some?;
      var _ :- OnlyFields(index, what, fields);
      var _ :- NoAppFields(index, what, t);
      if t.rcv != Some(receiver) then Err(Template(index, what, WrongReceiver))
      else if t.amt.GetOr(0) != 0 then Err(Template(index, what, WrongAmount(t.amt.GetOr(0))))
      else if t.close != Some(receiver) then Err(Template(index, what, WrongCloseTo))
      else Ok(())
  }

  function CallName(onComplete: Option<nat>): string {
    if onComplete == Some(ON_COMPLETE_OPT_IN) then "Bingle DApp opt-in"
    else if onComplete == Some(ON_COMPLETE_CLEAR_STATE) then "Bingle DApp ClearState"
    else "Bingle DApp register(handle)"
  }

  function CheckCallFields(index: nat, what: string, t: Transaction): (r: Result<(), GroupError>)
    ensures r.Ok? <==> t.rcv.None? && t.amt.None? && t.close.None? && t.xaid.None? && t.aamt.None? && t.arcv.None?
                       && t.aclose.None? && t.asnd.None? && t.apat.None? && t.apfa.None?
  {
    var money := [("rcv", t.rcv.Some?), ("amt", t.amt.Some?), ("close", t.close.Some?), ("xaid", t.xaid.Some?), ("aamt", t.aamt.Some?)];
    assert money[0].1 == t.rcv.Some? && money[1].1 == t.amt.Some? && money[2].1 == t.close.Some?
           && money[3].1 == t.xaid.Some? && money[4].1 == t.aamt.Some?;
    var _ :- OnlyFields(index, what, money);
    var rest := [("arcv", t.arcv.Some?), ("aclose", t.aclose.Some?), ("asnd", t.asnd.Some?), ("apat", t.apat.Some?), ("apfa", t.apfa.Some?)];
    assert rest[0].1 == t.arcv.Some? && rest[1].1 == t.aclose.Some? && rest[2].1 == t.asnd.Some?
           && rest[3].1 == t.apat.Some? && rest[4].1 == t.apfa.Some?;
    OnlyFields(index, what, rest)
  }

  function CheckAppCall(env: Env, index: nat, t: Transaction, ids: GroupIds, onComplete: Option<nat>, handle: Option<Bytes>): (r: Result<(), GroupError>)
    ensures r.Ok? <==> FunderIs(t, CallTemplate(env, t.snd, ids, onComplete, handle))
  {
    var what := CallName(onComplete);
    if t.kind != "appl" then Err(Template(index, what, WrongKind(t.kind)))
    else
      var _ :- CheckCallFields(index, what, t);
      if t.apid != Some(ids.app) then Err(Template(index, what, WrongApp(t.apid)))
      else if t.apan != onComplete then Err(Template(index, what, WrongOnComplete(t.apan)))
      else
        match handle
        case None =>
          var fields := [("apaa", t.apaa.Some?), ("apas", t.apas.Some?)];
          assert fields[0].1 == t.apaa.Some? && fields[1].1 == t.apas.Some?;
          OnlyFields(index, what, fields)
        case Some(h) =>
          if t.apaa != Some(RegisterArgs(env, h)) then Err(Template(index, what, WrongArguments))
          else if t.apas != Some([ids.asset]) then Err(Template(index, what, WrongForeignAssets))
          else Ok(())
  }

  // ----- the group -----

  /** The bytes of a transaction of the group. */
  function BytesOf(env: Env, txs: seq<string>, i: nat): Bytes
    requires i < |txs|
  {
    env.unbase64(txs[i]).GetOr([])
  }

  /** All transactions decode, and carry the group id `g`. */
  predicate GroupedBy(env: Env, txs: seq<string>, g: Bytes) {
    forall i | 0 <= i < |txs| :: env.unbase64(txs[i]).Some? && env.groupOf(BytesOf(env, txs, i)) == Some(Some(g))
  }

  ghost predicate Grouped(env: Env, txs: seq<string>) {
    exists g :: GroupedBy(env, txs, g)
  }

  method DecodeGroup(env: Env, txs: seq<string>) returns (r: Result<seq<Bytes>, GroupError>)
    ensures r.Ok? <==> Grouped(env, txs)
    ensures r.Ok? ==> |r.value| == |txs| && forall i | 0 <= i < |txs| :: r.value[i] == BytesOf(env, txs, i)
  {
    var group: seq<Bytes> := [];
    var groupId: Option<Bytes> := None;
    for i := 0 to |txs|
      invariant |group| == i && (i > 0 <==> groupId.Some?)
      invariant forall k | 0 <= k < i :: env.unbase64(txs[k]).Some? && group[k] == BytesOf(env, txs, k)
      invariant forall k | 0 <= k < i :: env.groupOf(BytesOf(env, txs, k)) == Some(groupId)
    {
      var bytes := env.unbase64(txs[i]);
      if bytes.None? { return Err(Undecodable(i)); }
      assert bytes.value == BytesOf(env, txs, i);
      var only := env.groupOf(bytes.value);
      if only.None? { return Err(Undecodable(i)); }
      if only.value.None? { return Err(Ungrouped(i)); }
      match groupId {
        case None => groupId := only.value;
        case Some(first) =>
          if first != only.value.value {
            forall g ensures !GroupedBy(env, txs, g) { assert env.groupOf(BytesOf(env, txs, 0)) == Some(Some(first)); }
            return Err(Ungrouped(i));
          }
      }
      group := group + [bytes.value];
    }
    assert GroupedBy(env, txs, groupId.GetOr([]));
    r := Ok(group);
  }

  function CheckSize(txs: seq<string>, allowed: seq<nat>): Result<(), GroupError> {
    if |txs| in allowed then Ok(()) else Err(GroupSize(allowed, |txs|))
  }

  function CheckSignIndexes(signIndexes: seq<nat>, expected: seq<nat>): Result<(), GroupError> {
    if signIndexes == expected then Ok(()) else Err(SignIndexes(expected, signIndexes))
  }

  /** What both kinds of group begin with: the size, the positions to sign, and the group id. */
  method OpenGroup(env: Env, txs: seq<string>, sizes: seq<nat>, signIndexes: seq<nat>, expected: seq<nat>)
    returns (r: Result<seq<Bytes>, GroupError>)
    ensures r.Ok? <==> |txs| in sizes && signIndexes == expected && Grouped(env, txs)
    ensures r.Ok? ==> |r.value| == |txs| && forall i | 0 <= i < |txs| :: r.value[i] == BytesOf(env, txs, i)
  {
    var _ :- CheckSize(txs, sizes);
    var _ :- CheckSignIndexes(signIndexes, expected);
    r := DecodeGroup(env, txs);
  }

  function Decode(env: Env, index: nat, bytes: Bytes): Result<Transaction, GroupError> {
    match env.decode(bytes)
    case None => Err(Undecodable(index))
    case Some(t) => Ok(t)
  }

  function CheckClient(env: Env, index: nat, bytes: Bytes, sender: Address): (r: Result<Transaction, GroupError>)
    ensures r.Ok? <==> env.decode(bytes).Some? && CheckBasics(index, env.decode(bytes).value, sender).Ok?
    ensures r.Ok? ==> env.decode(bytes) == Some(r.value)
  {
    var t :- Decode(env, index, bytes);
    var _ :- CheckBasics(index, t, sender);
    Ok(t)
  }

  /** The client's transaction with these bytes is what the template wants. */
  predicate ClientSlot(env: Env, bytes: Bytes, want: Transaction) {
    env.decode(bytes).Some? && ClientIs(env.decode(bytes).value, want)
  }

  /** Each of the client's transactions meets its template exactly when it passes its checks. */
  lemma SlotIsChecks(t: Transaction, sender: Address, want: Transaction, index: nat)
    requires want.snd == sender && want.lx.None? && want.note.None? && want.rekey.None?
    ensures ClientIs(t, want) <==> CheckBasics(index, t, sender).Ok? && FunderIs(t, want)
  {
    if CheckBasics(index, t, sender).Ok? {
      assert Core(t).(lx := None, note := None, rekey := None) == Core(t);
    }
  }

  method CheckTransferSlot(env: Env, index: nat, bytes: Bytes, sender: Address, ids: GroupIds, receiver: Address, amount: nat, closeTo: Option<Address>)
    returns (r: Result<(), GroupError>)
    ensures r.Ok? <==> ClientSlot(env, bytes, Transfer(sender, ids.asset, receiver, amount, closeTo))
  {
    if env.decode(bytes).Some? {
      SlotIsChecks(env.decode(bytes).value, sender, Transfer(sender, ids.asset, receiver, amount, closeTo), index);
    }
    var t :- CheckClient(env, index, bytes, sender);
    r := CheckAssetTransfer(index, t, ids, receiver, amount, closeTo);
  }

  method CheckOptInSlot(env: Env, index: nat, bytes: Bytes, sender: Address, ids: GroupIds) returns (r: Result<(), GroupError>)
    ensures r.Ok? <==> ClientSlot(env, bytes, Transfer(sender, ids.asset, sender, 0, None))
  {
    if env.decode(bytes).Some? {
      SlotIsChecks(env.decode(bytes).value, sender, Transfer(sender, ids.asset, sender, 0, None), index);
    }
    var t :- CheckClient(env, index, bytes, sender);
    r := CheckAssetOptIn(index, t, ids);
  }

  method CheckCloseSlot(env: Env, index: nat, bytes: Bytes, sender: Address, receiver: Address) returns (r: Result<(), GroupError>)
    ensures r.Ok? <==> ClientSlot(env, bytes, CloseAccount(sender, receiver))
  {
    if env.decode(bytes).Some? {
      SlotIsChecks(env.decode(bytes).value, sender, CloseAccount(sender, receiver), index);
    }
    var t :- CheckClient(env, index, bytes, sender);
    r := CheckPaymentClose(index, t, receiver);
  }

  method CheckCallSlot(env: Env, index: nat, bytes: Bytes, sender: Address, ids: GroupIds, onComplete: Option<nat>, handle: Option<Bytes>)
    returns (r: Result<(), GroupError>)
    ensures r.Ok? <==> ClientSlot(env, bytes, CallTemplate(env, sender, ids, onComplete, handle))
  {
    if env.decode(bytes).Some? {
      SlotIsChecks(env.decode(bytes).value, sender, CallTemplate(env, sender, ids, onComplete, handle), index);
    }
    var t :- CheckClient(env, index, bytes, sender);
    r := CheckAppCall(env, index, t, ids, onComplete, handle);
  }

  // ----- signing -----

  const TX_PREFIX: Bytes := [84, 88]

  /** The signed transaction: a map of the signature over `"TX"` and the bytes, and of the bytes. */
  function SignedForm(env: Env, bytes: Bytes, key: Key): Bytes {
    [0x82, 0xa3, 115, 105, 103, 0xc4, 64] + env.signature(key, TX_PREFIX + bytes) + [0xa3, 116, 120, 110] + bytes
  }

  method Sign(env: Env, bytes: Bytes, key: Key) returns (r: string)
    ensures r == env.base64(SignedForm(env, bytes, key))
  {
    var message: Bytes := [];
    message := message + [84, 88];
    message := message + bytes;
    var signature := env.signature(key, message);
    assert message == TX_PREFIX + bytes;
    var signed: Bytes := [];
    signed := signed + [0x82];
    signed := signed + [0xa3, 115, 105, 103, 0xc4, 64];
    signed := signed + signature;
    signed := signed + [0xa3, 116, 120, 110];
    signed := signed + bytes;
    assert signed == SignedForm(env, bytes, key);
    r := env.base64(signed);
  }

  /** A signed transaction ends with the very bytes it was given, after a header of fixed size. */
  lemma {:induction false} SignedKeepsBytes(env: Env, bytes: Bytes, key: Key)
    requires forall b :: env.unbase64(env.base64(b)) == Some(b)
    requires |env.signature(key, TX_PREFIX + bytes)| == 64
    ensures
      var s := env.unbase64(env.base64(SignedForm(env, bytes, key)));
      && s.Some? && |s.value| == 75 + |bytes| && s.value[75..] == bytes
      && s.value[7..71] == env.signature(key, TX_PREFIX + bytes)
  {
    var sig := env.signature(key, TX_PREFIX + bytes);
    var head: Bytes := [0x82, 0xa3, 115, 105, 103, 0xc4, 64];
    var mid: Bytes := [0xa3, 116, 120, 110];
    var s := SignedForm(env, bytes, key);
    assert s == head + sig + mid + bytes;
    assert s[75..] == bytes && s[7..71] == sig;
  }

  /** Signs the transactions at the given positions, in that order, each with its key. */
  method SignAll(env: Env, group: seq<Bytes>, indexes: seq<nat>, keyOf: nat -> Key) returns (signed: seq<string>)
    requires forall k | 0 <= k < |indexes| :: indexes[k] < |group|
    ensures |signed| == |indexes|
    ensures forall k | 0 <= k < |indexes| ::
              signed[k] == env.base64(SignedForm(env, group[indexes[k]], keyOf(indexes[k])))
  {
    signed := [];
    for k := 0 to |indexes|
      invariant |signed| == k
      invariant forall j | 0 <= j < k :: signed[j] == env.base64(SignedForm(env, group[indexes[j]], keyOf(indexes[j])))
    {
      var one := Sign(env, group[indexes[k]], keyOf(indexes[k]));
      signed := signed + [one];
    }
  }

  // ----- registration -----

  ghost predicate RegistrationTemplate(env: Env, txs: seq<string>, signIndexes: seq<nat>, ids: GroupIds, handle: Bytes, key: Key) {
    var me := env.publicKey(key);
    && (|txs| == 7 || |txs| == 8)
    && signIndexes == REGISTRATION_SIGN_INDEXES
    && Grouped(env, txs)
    && ClientSlot(env, BytesOf(env, txs, 1), Transfer(me, ids.asset, me, 0, None))
    && ClientSlot(env, BytesOf(env, txs, 3), CallTemplate(env, me, ids, Some(ON_COMPLETE_OPT_IN), None))
    && ClientSlot(env, BytesOf(env, txs, 4), Transfer(me, ids.asset, env.appAddress(ids.app), 1, None))
    && ClientSlot(env, BytesOf(env, txs, 5), CallTemplate(env, me, ids, None, Some(handle)))
  }

  /** Signs exactly the groups that meet the template, and then the client's four, in index order. */
  method SignRegistrationGroup(env: Env, txs: seq<string>, signIndexes: seq<nat>, ids: GroupIds, handle: Bytes, key: Key)
    returns (r: Result<seq<string>, GroupError>)
    ensures r.Ok? <==> RegistrationTemplate(env, txs, signIndexes, ids, handle, key)
    ensures r.Ok? ==> |r.value| == 4 && forall k | 0 <= k < 4 ::
              r.value[k] == env.base64(SignedForm(env, BytesOf(env, txs, REGISTRATION_SIGN_INDEXES[k]), key))
  {
    var group :- OpenGroup(env, txs, [7, 8], signIndexes, REGISTRATION_SIGN_INDEXES);
    var address := env.publicKey(key);
    var _ :- CheckOptInSlot(env, 1, group[1], address, ids);
    var _ :- CheckCallSlot(env, 3, group[3], address, ids, Some(ON_COMPLETE_OPT_IN), None);
    var _ :- CheckTransferSlot(env, 4, group[4], address, ids, env.appAddress(ids.app), 1, None);
    var _ :- CheckCallSlot(env, 5, group[5], address, ids, None, Some(handle));
    var signed := SignAll(env, group, REGISTRATION_SIGN_INDEXES, _ => key);
    r := Ok(signed);
  }

  // ----- recovery -----

  /** The funder is whoever sends transaction 4. */
  function Funder(env: Env, txs: seq<string>): Address
    requires |txs| > RECOVERY_FUNDER_INDEX
  {
    var t := env.decode(BytesOf(env, txs, RECOVERY_FUNDER_INDEX));
    if t.Some? then t.value.snd else []
  }

  ghost predicate RecoveryTemplate(env: Env, txs: seq<string>, signIndexes: seq<nat>, ids: GroupIds, handle: Bytes, oldKey: Key, newKey: Key) {
    var before, after := env.publicKey(oldKey), env.publicKey(newKey);
    && (|txs| == 9 || |txs| == 10)
    && signIndexes == RECOVERY_SIGN_INDEXES
    && Grouped(env, txs)
    && RecoverySlots(env, txs, ids, handle, before, after, Funder(env, txs))
  }

  predicate RecoverySlots(env: Env, txs: seq<string>, ids: GroupIds, handle: Bytes, before: Address, after: Address, funder: Address)
    requires |txs| >= 9
  {
    && before != after && funder != before && funder != after
    && env.decode(BytesOf(env, txs, 4)).Some?
    && FunderIs(env.decode(BytesOf(env, txs, 4)).value, Transfer(funder, ids.asset, after, 1, None))
    && ClientSlot(env, BytesOf(env, txs, 0), CallTemplate(env, before, ids, Some(ON_COMPLETE_CLEAR_STATE), None))
    && ClientSlot(env, BytesOf(env, txs, 1), Transfer(before, ids.asset, funder, 0, Some(funder)))
    && ClientSlot(env, BytesOf(env, txs, 2), CloseAccount(before, after))
    && ClientSlot(env, BytesOf(env, txs, 3), Transfer(after, ids.asset, after, 0, None))
    && ClientSlot(env, BytesOf(env, txs, 5), CallTemplate(env, after, ids, Some(ON_COMPLETE_OPT_IN), None))
    && ClientSlot(env, BytesOf(env, txs, 6), Transfer(after, ids.asset, env.appAddress(ids.app), 1, None))
    && ClientSlot(env, BytesOf(env, txs, 7), CallTemplate(env, after, ids, None, Some(handle)))
  }

  /** The funder's transfer: from neither of the client's accounts, 1 Bingle$ to the new one. */
  method CheckFunder(env: Env, bytes: Bytes, ids: GroupIds, before: Address, after: Address) returns (r: Result<Address, GroupError>)
    ensures r.Ok? <==>
              && before != after && env.decode(bytes).Some?
              && env.decode(bytes).value.snd != before && env.decode(bytes).value.snd != after
              && FunderIs(env.decode(bytes).value, Transfer(env.decode(bytes).value.snd, ids.asset, after, 1, None))
    ensures r.Ok? ==> r.value == env.decode(bytes).value.snd
  {
    if before == after {
      return Err(Template(RECOVERY_FUNDER_INDEX, "recovery group", SameKeys));
    }
    var funderTxn :- Decode(env, RECOVERY_FUNDER_INDEX, bytes);
    var funder := funderTxn.snd;
    if funder == before || funder == after {
      return Err(Template(RECOVERY_FUNDER_INDEX, "funder transfer", OwnFunder));
    }
    var _ :- CheckAssetTransfer(RECOVERY_FUNDER_INDEX, funderTxn, ids, after, 1, None);
    r := Ok(funder);
  }

  method CheckOldAccount(env: Env, group: seq<Bytes>, ids: GroupIds, before: Address, after: Address, funder: Address)
    returns (r: Result<(), GroupError>)
    requires |group| >= 9
    ensures r.Ok? <==>
              && ClientSlot(env, group[0], CallTemplate(env, before, ids, Some(ON_COMPLETE_CLEAR_STATE), None))
              && ClientSlot(env, group[1], Transfer(before, ids.asset, funder, 0, Some(funder)))
              && ClientSlot(env, group[2], CloseAccount(before, after))
  {
    var _ :- CheckCallSlot(env, 0, group[0], before, ids, Some(ON_COMPLETE_CLEAR_STATE), None);
    var _ :- CheckTransferSlot(env, 1, group[1], before, ids, funder, 0, Some(funder));
    r := CheckCloseSlot(env, 2, group[2], before, after);
  }

  method CheckNewAccount(env: Env, group: seq<Bytes>, ids: GroupIds, handle: Bytes, after: Address)
    returns (r: Result<(), GroupError>)
    requires |group| >= 9
    ensures r.Ok? <==>
              && ClientSlot(env, group[3], Transfer(after, ids.asset, after, 0, None))
              && ClientSlot(env, group[5], CallTemplate(env, after, ids, Some(ON_COMPLETE_OPT_IN), None))
              && ClientSlot(env, group[6], Transfer(after, ids.asset, env.appAddress(ids.app), 1, None))
              && ClientSlot(env, group[7], CallTemplate(env, after, ids, None, Some(handle)))
  {
    var _ :- CheckOptInSlot(env, 3, group[3], after, ids);
    var _ :- CheckCallSlot(env, 5, group[5], after, ids, Some(ON_COMPLETE_OPT_IN), None);
    var _ :- CheckTransferSlot(env, 6, group[6], after, ids, env.appAddress(ids.app), 1, None);
    r := CheckCallSlot(env, 7, group[7], after, ids, None, Some(handle));
  }

  /** Signs exactly the groups that meet the template, and then the client's seven, in index order,
      the first three with the old key. */
  method SignRecoveryGroup(env: Env, txs: seq<string>, signIndexes: seq<nat>, ids: GroupIds, handle: Bytes, oldKey: Key, newKey: Key)
    returns (r: Result<seq<string>, GroupError>)
    ensures r.Ok? <==> RecoveryTemplate(env, txs, signIndexes, ids, handle, oldKey, newKey)
    ensures r.Ok? ==> |r.value| == 7 && forall k | 0 <= k < 7 ::
              r.value[k] == env.base64(SignedForm(env, BytesOf(env, txs, RECOVERY_SIGN_INDEXES[k]), if k < 3 then oldKey else newKey))
  {
    var group :- OpenGroup(env, txs, [9, 10], signIndexes, RECOVERY_SIGN_INDEXES);
    var before, after := env.publicKey(oldKey), env.publicKey(newKey);
    var funder :- CheckFunder(env, group[RECOVERY_FUNDER_INDEX], ids, before, after);
    var _ :- CheckOldAccount(env, group, ids, before, after, funder);
    var _ :- CheckNewAccount(env, group, ids, handle, after);
    var signed := SignAll(env, group, RECOVERY_SIGN_INDEXES, i => if i in RECOVERY_OLD_KEY_INDEXES then oldKey else newKey);
    r := Ok(signed);
  }

  // ----- the arguments of `register` -----

  /** A byte string in the contract's own encoding: its length, then its bytes. */
  predicate AbiString(b: Bytes) {
    |b| >= 2 && FromBytes(b[..2]) == |b| - 2
  }

  /** The handle argument is well formed exactly when its length fits; a longer one is not refused,
      it is sent with a length that is not its own. */
  lemma ArgumentWellFormedWhen(env: Env, handle: Bytes)
    ensures |RegisterArgs(env, handle)| == 2
    ensures AbiString(RegisterArgs(env, handle)[1]) <==> |handle| <= 0xFFFF
    ensures RegisterArgs(env, handle)[1][2..] == handle
  {
    var length := if |handle| <= 0xFFFF then |handle| else 0xFFFF;
    var arg := RegisterArgs(env, handle)[1];
    Powers();
    FromToBytes(2, length);
    assert arg[..2] == ToBytes(2, length) && arg[2..] == handle;
  }
}
