/**
  What the transactions of a group do to the accounts themselves: fees, payments, Bingle$ transfers and
  clawbacks, closes and rekeys, over any ledger. The ledger refuses only what an account cannot pay;
  minimum balances and opt-ins, which would refuse more, are not part of it, and neither are the
  transactions that a called application issues of its own.
 */
module Ledger {
  import opened Wrappers
  import opened Bytes
  import opened RegistrationGroup

  type Balances = map<Address, nat>

  datatype Ledger = Ledger(algo: Balances, bingle: Balances, auth: map<Address, Address>, fees: nat)

  const ZERO_ADDRESS: Address := ToBytes(32, 0)

  function Of(m: Balances, a: Address): nat {
    if a in m then m[a] else 0
  }

  /** Who signs for an account: the account itself unless it was rekeyed. */
  function Signer(l: Ledger, a: Address): Address {
    if a in l.auth then l.auth[a] else a
  }

  function Move(m: Balances, from: Address, to: Address, n: nat): Option<Balances> {
    if Of(m, from) < n then None
    else
      var taken := m[from := Of(m, from) - n];
      Some(taken[to := Of(taken, to) + n])
  }

  /** Moves the amount, then whatever is left if the account is closed. */
  function MoveAndClose(m: Balances, from: Address, to: Address, n: nat, closeTo: Option<Address>): Option<Balances> {
    var moved :- Move(m, from, to, n);
    if closeTo.None? then Some(moved) else Move(moved, from, closeTo.value, Of(moved, from))
  }

  function Charge(l: Ledger, t: Transaction): Option<Ledger> {
    var fee := t.fee.GetOr(0);
    if Of(l.algo, t.snd) < fee then None
    else Some(l.(algo := l.algo[t.snd := Of(l.algo, t.snd) - fee], fees := l.fees + fee))
  }

  function Transact(l: Ledger, asset: nat, t: Transaction): Option<Ledger> {
    if t.kind == "pay" then
      var algo :- MoveAndClose(l.algo, t.snd, t.rcv.GetOr(ZERO_ADDRESS), t.amt.GetOr(0), t.close);
      Some(l.(algo := algo))
    else if t.kind == "axfer" && t.xaid == Some(asset) then
      var bingle :- MoveAndClose(l.bingle, t.asnd.GetOr(t.snd), t.arcv.GetOr(ZERO_ADDRESS), t.aamt.GetOr(0), t.aclose);
      Some(l.(bingle := bingle))
    else
      Some(l)
  }

  function Rekey(l: Ledger, t: Transaction): Ledger {
    if t.rekey.Some? then l.(auth := l.auth[t.snd := t.rekey.value]) else l
  }

  function Step(l: Ledger, asset: nat, t: Transaction): Option<Ledger> {
    var charged :- Charge(l, t);
    var done :- Transact(charged, asset, t);
    Some(Rekey(done, t))
  }

  /** A group runs as a whole or not at all. */
  function Run(l: Ledger, asset: nat, ts: seq<Transaction>): Option<Ledger>
    decreases |ts|
  {
    if ts == [] then Some(l)
    else
      var next :- Step(l, asset, ts[0]);
      Run(next, asset, ts[1..])
  }

  /** The ledgers a run goes through. */
  ghost predicate Traced(ls: seq<Ledger>, asset: nat, ts: seq<Transaction>) {
    && |ls| == |ts| + 1
    && forall i | 0 <= i < |ts| :: Step(ls[i], asset, ts[i]) == Some(ls[i + 1])
  }

  lemma {:induction false} RunTraces(l: Ledger, asset: nat, ts: seq<Transaction>) returns (ls: seq<Ledger>)
    requires Run(l, asset, ts).Some?
    ensures Traced(ls, asset, ts) && ls[0] == l && ls[|ts|] == Run(l, asset, ts).value
    decreases |ts|
  {
    if ts == [] {
      ls := [l];
    } else {
      var rest := RunTraces(Step(l, asset, ts[0]).value, asset, ts[1..]);
      ls := [l] + rest;
      forall i | 0 <= i < |ts| ensures Step(ls[i], asset, ts[i]) == Some(ls[i + 1]) {
        if i > 0 { assert ts[i] == ts[1..][i - 1] && ls[i] == rest[i - 1] && ls[i + 1] == rest[i]; }
      }
    }
  }

  // ----- nothing is made or lost -----

  ghost function Total(m: Balances): nat {
    if m == map[] then 0
    else
      var a :| a in m;
      m[a] + Total(m - {a})
  }

  /** The total does not depend on the order in which it is added up. */
  lemma {:induction false} TotalSplit(m: Balances, a: Address)
    requires a in m
    ensures Total(m) == m[a] + Total(m - {a})
    decreases |m|
  {
    var b :| b in m && Total(m) == m[b] + Total(m - {b});
    if b != a {
      TotalSplit(m - {b}, a);
      TotalSplit(m - {a}, b);
      assert m - {b} - {a} == m - {a} - {b};
    }
  }

  lemma TotalPut(m: Balances, a: Address, n: nat)
    ensures Total(m[a := n]) == Total(m) - Of(m, a) + n
  {
    TotalSplit(m[a := n], a);
    assert m[a := n] - {a} == m - {a};
    if a in m {
      TotalSplit(m, a);
    } else {
      assert m - {a} == m;
    }
  }

  lemma MoveConserves(m: Balances, from: Address, to: Address, n: nat)
    ensures Move(m, from, to, n).Some? ==> Total(Move(m, from, to, n).value) == Total(m)
  {
    if Of(m, from) >= n {
      var taken := m[from := Of(m, from) - n];
      TotalPut(m, from, Of(m, from) - n);
      TotalPut(taken, to, Of(taken, to) + n);
    }
  }

  lemma MoveAndCloseConserves(m: Balances, from: Address, to: Address, n: nat, closeTo: Option<Address>)
    ensures var r := MoveAndClose(m, from, to, n, closeTo);
            r.Some? ==> Total(r.value) == Total(m)
  {
    MoveConserves(m, from, to, n);
    var moved := Move(m, from, to, n);
    if moved.Some? && closeTo.Some? {
      MoveConserves(moved.value, from, closeTo.value, Of(moved.value, from));
    }
  }

  lemma TransactConserves(l: Ledger, asset: nat, t: Transaction)
    ensures var r := Transact(l, asset, t);
            r.Some? ==> Total(r.value.algo) == Total(l.algo) && Total(r.value.bingle) == Total(l.bingle) && r.value.fees == l.fees
  {
    if t.kind == "pay" {
      MoveAndCloseConserves(l.algo, t.snd, t.rcv.GetOr(ZERO_ADDRESS), t.amt.GetOr(0), t.close);
    } else {
      MoveAndCloseConserves(l.bingle, t.asnd.GetOr(t.snd), t.arcv.GetOr(ZERO_ADDRESS), t.aamt.GetOr(0), t.aclose);
    }
  }

  lemma StepConserves(l: Ledger, asset: nat, t: Transaction)
    ensures var r := Step(l, asset, t);
            r.Some? ==> Total(r.value.algo) + r.value.fees == Total(l.algo) + l.fees && Total(r.value.bingle) == Total(l.bingle)
  {
    var c := Charge(l, t);
    if c.Some? {
      TotalPut(l.algo, t.snd, Of(l.algo, t.snd) - t.fee.GetOr(0));
      TransactConserves(c.value, asset, t);
    }
  }

  /** Over any run of any transactions, all Algo is in an account or paid as a fee, and all Bingle$
      is in an account. */
  lemma {:induction false} RunConserves(l: Ledger, asset: nat, ts: seq<Transaction>)
    ensures var r := Run(l, asset, ts);
            r.Some? ==> Total(r.value.algo) + r.value.fees == Total(l.algo) + l.fees && Total(r.value.bingle) == Total(l.bingle)
    decreases |ts|
  {
    if ts != [] && Step(l, asset, ts[0]).Some? {
      StepConserves(l, asset, ts[0]);
      RunConserves(Step(l, asset, ts[0]).value, asset, ts[1..]);
    }
  }

  // ----- what one transaction does to one account -----

  function Fee(t: Transaction): nat {
    t.fee.GetOr(0)
  }

  /** `n` if it concerns the account, else nothing. */
  function At(a: Address, b: Address, n: nat): nat {
    if a == b then n else 0
  }

  predicate Charged(l: Ledger, m: Ledger, t: Transaction, a: Address) {
    Of(m.algo, a) == Of(l.algo, a) - At(a, t.snd, Fee(t)) && m.fees == l.fees + Fee(t)
  }

  predicate SameBingle(l: Ledger, m: Ledger, a: Address) {
    Of(m.bingle, a) == Of(l.bingle, a)
  }

  predicate SameSigner(l: Ledger, m: Ledger, t: Transaction, a: Address) {
    (a == t.snd ==> t.rekey.None?) ==> Signer(m, a) == Signer(l, a)
  }

  lemma CallEffect(env: Env, l: Ledger, asset: nat, t: Transaction, a: Address, ids: GroupIds, onComplete: Option<nat>, handle: Option<Bytes>)
    requires FunderIs(t, CallTemplate(env, t.snd, ids, onComplete, handle))
    requires Step(l, asset, t).Some?
    ensures Charged(l, Step(l, asset, t).value, t, a) && SameBingle(l, Step(l, asset, t).value, a) && SameSigner(l, Step(l, asset, t).value, t, a)
  {
    assert Core(t).kind == "appl";
  }

  lemma TransferEffect(l: Ledger, t: Transaction, a: Address, ids: GroupIds, receiver: Address, n: nat)
    requires FunderIs(t, Transfer(t.snd, ids.asset, receiver, n, None))
    requires Step(l, ids.asset, t).Some?
    ensures
      var m := Step(l, ids.asset, t).value;
      && Charged(l, m, t, a) && SameSigner(l, m, t, a) && Of(l.bingle, t.snd) >= n
      && Of(m.bingle, a) == Of(l.bingle, a) - At(a, t.snd, n) + At(a, receiver, n)
  {
    TransferFields(t, ids, receiver, n, None);
  }

  lemma TransferFields(t: Transaction, ids: GroupIds, receiver: Address, n: nat, closeTo: Option<Address>)
    requires FunderIs(t, Transfer(t.snd, ids.asset, receiver, n, closeTo))
    ensures t.kind == "axfer" && t.xaid == Some(ids.asset) && t.asnd == None && t.arcv == Some(receiver) && t.aamt.GetOr(0) == n && t.aclose == closeTo
  {
    var c := Core(t);
    assert c.kind == "axfer" && c.xaid == Some(ids.asset) && c.asnd == None && c.arcv == Some(receiver) && c.aclose == closeTo && c.aamt == Amount(n);
  }

  lemma CloseOutEffect(l: Ledger, t: Transaction, a: Address, ids: GroupIds, receiver: Address)
    requires FunderIs(t, Transfer(t.snd, ids.asset, receiver, 0, Some(receiver))) && receiver != t.snd
    requires Step(l, ids.asset, t).Some?
    ensures
      var m := Step(l, ids.asset, t).value;
      && Charged(l, m, t, a) && SameSigner(l, m, t, a)
      && Of(m.bingle, a) == Of(l.bingle, a) - At(a, t.snd, Of(l.bingle, t.snd)) + At(a, receiver, Of(l.bingle, t.snd))
  {
    TransferFields(t, ids, receiver, 0, Some(receiver));
  }

  lemma CloseEffect(l: Ledger, asset: nat, t: Transaction, a: Address, receiver: Address)
    requires FunderIs(t, CloseAccount(t.snd, receiver)) && receiver != t.snd
    requires Step(l, asset, t).Some?
    ensures
      var m := Step(l, asset, t).value;
      var rest := Of(l.algo, t.snd) - Fee(t);
      && SameBingle(l, m, a) && SameSigner(l, m, t, a) && rest >= 0 && m.fees == l.fees + Fee(t)
      && Of(m.algo, a) == Of(l.algo, a) - At(a, t.snd, Of(l.algo, t.snd)) + At(a, receiver, rest)
  {
    var c := Core(t);
    assert c.kind == "pay" && c.rcv == Some(receiver) && c.close == Some(receiver) && c.amt == Amount(0);
  }

  lemma ClientFacts(t: Transaction, want: Transaction)
    requires ClientIs(t, want) && want.lx.None? && want.note.None? && want.rekey.None?
    ensures FunderIs(t, want) && t.snd == want.snd && t.rekey.None? && Fee(t) <= MAX_CLIENT_FEE
  {
    SlotIsChecks(t, want.snd, want, 0);
  }

  // ----- recovery -----

  /** The parties to a recovery. */
  datatype Parties = Parties(before: Address, after: Address, funder: Address, app: Address) {
    predicate Distinct() {
      before != after && funder != before && funder != after
    }

    function Sender(i: nat): Address {
      if i < 3 then before else if i == 4 then funder else after
    }
  }

  /** What the transaction at `i` of a recovery group is. */
  function RecoveryWant(env: Env, ids: GroupIds, handle: Bytes, p: Parties, i: nat): Transaction
    requires i < 8
  {
    if i == 0 then CallTemplate(env, p.before, ids, Some(ON_COMPLETE_CLEAR_STATE), None)
    else if i == 1 then Transfer(p.before, ids.asset, p.funder, 0, Some(p.funder))
    else if i == 2 then CloseAccount(p.before, p.after)
    else if i == 3 then Transfer(p.after, ids.asset, p.after, 0, None)
    else if i == 4 then Transfer(p.funder, ids.asset, p.after, 1, None)
    else if i == 5 then CallTemplate(env, p.after, ids, Some(ON_COMPLETE_OPT_IN), None)
    else if i == 6 then Transfer(p.after, ids.asset, p.app, 1, None)
    else CallTemplate(env, p.after, ids, None, Some(handle))
  }

  predicate RecoveryStepIs(env: Env, t: Transaction, ids: GroupIds, handle: Bytes, p: Parties, i: nat)
    requires i < 8
  {
    if i == 4 then FunderIs(t, RecoveryWant(env, ids, handle, p, i)) else ClientIs(t, RecoveryWant(env, ids, handle, p, i))
  }

  /** The eight transactions a recovery group begins with. */
  ghost predicate RecoverySteps(env: Env, ts: seq<Transaction>, ids: GroupIds, handle: Bytes, p: Parties) {
    && p.Distinct() && |ts| == 8
    && forall i | 0 <= i < 8 :: RecoveryStepIs(env, ts[i], ids, handle, p, i)
  }

  /** What the transaction at `i` does to the account `a`. */
  predicate RecoveryStepEffect(l: Ledger, m: Ledger, t: Transaction, p: Parties, i: nat, a: Address) {
    && t.snd == p.Sender(i)
    && Of(l.algo, t.snd) >= Fee(t)
    && (i != 4 ==> Fee(t) <= MAX_CLIENT_FEE)
    && (i != 4 || a != p.funder ==> Signer(m, a) == Signer(l, a))
    && Of(m.algo, a) ==
       (if i == 2 then Of(l.algo, a) - At(a, p.before, Of(l.algo, p.before)) + At(a, p.after, Of(l.algo, p.before) - Fee(t))
        else Of(l.algo, a) - At(a, t.snd, Fee(t)))
    && Of(m.bingle, a) ==
       (if i == 1 then Of(l.bingle, a) - At(a, p.before, Of(l.bingle, p.before)) + At(a, p.funder, Of(l.bingle, p.before))
        else if i == 4 then Of(l.bingle, a) - At(a, p.funder, 1) + At(a, p.after, 1)
        else if i == 6 then Of(l.bingle, a) - At(a, p.after, 1) + At(a, p.app, 1)
        else Of(l.bingle, a))
  }

  lemma OldStepEffect(env: Env, l: Ledger, t: Transaction, ids: GroupIds, handle: Bytes, p: Parties, i: nat, a: Address)
    requires i < 3 && p.Distinct() && RecoveryStepIs(env, t, ids, handle, p, i) && Step(l, ids.asset, t).Some?
    ensures RecoveryStepEffect(l, Step(l, ids.asset, t).value, t, p, i, a)
  {
    ClientFacts(t, RecoveryWant(env, ids, handle, p, i));
    if i == 0 {
      CallEffect(env, l, ids.asset, t, a, ids, Some(ON_COMPLETE_CLEAR_STATE), None);
    } else if i == 1 {
      CloseOutEffect(l, t, a, ids, p.funder);
    } else {
      CloseEffect(l, ids.asset, t, a, p.after);
    }
  }

  lemma NewStepEffect(env: Env, l: Ledger, t: Transaction, ids: GroupIds, handle: Bytes, p: Parties, i: nat, a: Address)
    requires 3 <= i < 8 && p.Distinct() && RecoveryStepIs(env, t, ids, handle, p, i) && Step(l, ids.asset, t).Some?
    ensures RecoveryStepEffect(l, Step(l, ids.asset, t).value, t, p, i, a)
  {
    if i != 4 {
      ClientFacts(t, RecoveryWant(env, ids, handle, p, i));
    } else {
      assert Core(t).snd == p.funder;
    }
    if i == 3 {
      TransferEffect(l, t, a, ids, p.after, 0);
    } else if i == 4 {
      TransferEffect(l, t, a, ids, p.after, 1);
    } else if i == 6 {
      TransferEffect(l, t, a, ids, p.app, 1);
    } else if i == 5 {
      CallEffect(env, l, ids.asset, t, a, ids, Some(ON_COMPLETE_OPT_IN), None);
    } else {
      CallEffect(env, l, ids.asset, t, a, ids, None, Some(handle));
    }
  }

  function OldFees(ts: seq<Transaction>): nat
    requires |ts| == 8
  {
    Fee(ts[0]) + Fee(ts[1]) + Fee(ts[2])
  }

  function NewFees(ts: seq<Transaction>): nat
    requires |ts| == 8
  {
    Fee(ts[3]) + Fee(ts[5]) + Fee(ts[6]) + Fee(ts[7])
  }

  /** What a recovery does to every account. */
  predicate Recovered(l: Ledger, m: Ledger, ts: seq<Transaction>, p: Parties, a: Address)
    requires |ts| == 8
  {
    var bingle, algo := Of(l.bingle, p.before), Of(l.algo, p.before);
    && Of(m.bingle, a) == Of(l.bingle, a) - At(a, p.before, bingle) + At(a, p.funder, bingle) - At(a, p.funder, 1) + At(a, p.app, 1)
    && Of(m.algo, a) == Of(l.algo, a) - At(a, p.before, algo) + At(a, p.after, algo)
                        - At(a, p.after, OldFees(ts) + NewFees(ts)) - At(a, p.funder, Fee(ts[4]))
    && (a != p.funder ==> Signer(m, a) == Signer(l, a))
  }

  predicate EffectAt(ls: seq<Ledger>, ts: seq<Transaction>, p: Parties, i: nat, a: Address)
    requires |ts| == 8 && |ls| == 9 && i < 8
  {
    RecoveryStepEffect(ls[i], ls[i + 1], ts[i], p, i, a)
  }

  /** The old account is emptied: its Bingle$ to the funder, its Algo to the new account. */
  predicate OldEmptied(l: Ledger, m: Ledger, fees: nat, p: Parties, a: Address) {
    var bingle, algo := Of(l.bingle, p.before), Of(l.algo, p.before);
    && algo >= fees && fees <= 3 * MAX_CLIENT_FEE
    && Of(m.bingle, a) == Of(l.bingle, a) - At(a, p.before, bingle) + At(a, p.funder, bingle)
    && Of(m.algo, a) == Of(l.algo, a) - At(a, p.before, algo) + At(a, p.after, algo - fees)
    && Signer(m, a) == Signer(l, a)
  }

  lemma OldAddsUp(ls: seq<Ledger>, ts: seq<Transaction>, p: Parties, a: Address)
    requires p.Distinct() && |ts| == 8 && |ls| == 9
    requires forall i, b | 0 <= i < 3 :: EffectAt(ls, ts, p, i, b)
    ensures OldEmptied(ls[0], ls[3], OldFees(ts), p, a)
  {
    assert EffectAt(ls, ts, p, 0, p.before) && EffectAt(ls, ts, p, 1, p.before);
    assert EffectAt(ls, ts, p, 0, a) && EffectAt(ls, ts, p, 1, a) && EffectAt(ls, ts, p, 2, a);
  }

  /** The new account passes the funder's 1 Bingle$ on and pays its own fees. */
  predicate NewRegistered(l: Ledger, m: Ledger, ts: seq<Transaction>, p: Parties, a: Address)
    requires |ts| == 8
  {
    && NewFees(ts) <= 4 * MAX_CLIENT_FEE
    && Of(m.bingle, a) == Of(l.bingle, a) - At(a, p.funder, 1) + At(a, p.app, 1)
    && Of(m.algo, a) == Of(l.algo, a) - At(a, p.after, NewFees(ts)) - At(a, p.funder, Fee(ts[4]))
    && (a != p.funder ==> Signer(m, a) == Signer(l, a))
  }

  lemma NewAddsUp(ls: seq<Ledger>, ts: seq<Transaction>, p: Parties, a: Address)
    requires p.Distinct() && |ts| == 8 && |ls| == 9
    requires forall i | 3 <= i < 8 :: EffectAt(ls, ts, p, i, a)
    ensures NewRegistered(ls[3], ls[8], ts, p, a)
  {
    assert EffectAt(ls, ts, p, 3, a) && EffectAt(ls, ts, p, 4, a) && EffectAt(ls, ts, p, 5, a) && EffectAt(ls, ts, p, 6, a) && EffectAt(ls, ts, p, 7, a);
  }

  lemma EffectsAddUp(ls: seq<Ledger>, ts: seq<Transaction>, p: Parties, a: Address)
    requires p.Distinct() && |ts| == 8 && |ls| == 9
    requires OldEmptied(ls[0], ls[3], OldFees(ts), p, a) && NewRegistered(ls[3], ls[8], ts, p, a)
    ensures Recovered(ls[0], ls[8], ts, p, a)
    ensures OldFees(ts) <= Of(ls[0].algo, p.before) && OldFees(ts) + NewFees(ts) <= 7 * MAX_CLIENT_FEE
  {
  }

  lemma EffectOfStep(env: Env, ls: seq<Ledger>, ts: seq<Transaction>, ids: GroupIds, handle: Bytes, p: Parties, i: nat, a: Address)
    requires RecoverySteps(env, ts, ids, handle, p) && Traced(ls, ids.asset, ts) && i < 8
    ensures EffectAt(ls, ts, p, i, a)
  {
    assert RecoveryStepIs(env, ts[i], ids, handle, p, i);
    assert Step(ls[i], ids.asset, ts[i]) == Some(ls[i + 1]);
    if i < 3 {
      OldStepEffect(env, ls[i], ts[i], ids, handle, p, i, a);
    } else {
      NewStepEffect(env, ls[i], ts[i], ids, handle, p, i, a);
    }
  }

  lemma RecoveryRun(env: Env, ls: seq<Ledger>, ts: seq<Transaction>, ids: GroupIds, handle: Bytes, p: Parties, a: Address)
    requires RecoverySteps(env, ts, ids, handle, p) && Traced(ls, ids.asset, ts)
    ensures Recovered(ls[0], ls[8], ts, p, a)
    ensures OldFees(ts) <= Of(ls[0].algo, p.before) && OldFees(ts) + NewFees(ts) <= 7 * MAX_CLIENT_FEE
  {
    assert OldEmptied(ls[0], ls[3], OldFees(ts), p, a) && NewRegistered(ls[3], ls[8], ts, p, a) by {
      forall i, b | 0 <= i < 8 ensures EffectAt(ls, ts, p, i, b) {
        EffectOfStep(env, ls, ts, ids, handle, p, i, b);
      }
      OldAddsUp(ls, ts, p, a);
      NewAddsUp(ls, ts, p, a);
    }
    EffectsAddUp(ls, ts, p, a);
  }

  /** The transactions at these positions are the decoded ones. */
  predicate DecodedAs(env: Env, txs: seq<string>, ts: seq<Transaction>, indexes: seq<nat>) {
    && |ts| <= |txs|
    && forall k | 0 <= k < |indexes| :: indexes[k] < |ts| && env.decode(BytesOf(env, txs, indexes[k])) == Some(ts[indexes[k]])
  }

  function PartiesOf(env: Env, txs: seq<string>, ids: GroupIds, oldKey: Key, newKey: Key): Parties
    requires |txs| > RECOVERY_FUNDER_INDEX
  {
    Parties(env.publicKey(oldKey), env.publicKey(newKey), Funder(env, txs), env.appAddress(ids.app))
  }

  lemma AcceptedSteps(env: Env, txs: seq<string>, ts: seq<Transaction>, signIndexes: seq<nat>, ids: GroupIds, handle: Bytes, oldKey: Key, newKey: Key)
    requires RecoveryTemplate(env, txs, signIndexes, ids, handle, oldKey, newKey)
    requires |ts| == 8 && DecodedAs(env, txs, ts, [0, 1, 2, 3, 4, 5, 6, 7])
    ensures RecoverySteps(env, ts, ids, handle, PartiesOf(env, txs, ids, oldKey, newKey))
  {
    var indexes: seq<nat> := [0, 1, 2, 3, 4, 5, 6, 7];
    forall i | 0 <= i < 8 ensures RecoveryStepIs(env, ts[i], ids, handle, PartiesOf(env, txs, ids, oldKey, newKey), i) {
      assert indexes[i] == i;
    }
  }

  /** Over every ledger on which an accepted recovery group runs: the old account ends with nothing of
      its own, all its Bingle$ gone to the funder and all its Algo to the new account; exactly 1
      Bingle$ goes on to the application; the client pays at most seven maximum fees; and no account
      but the funder's can have been rekeyed. */
  lemma RecoveryConservation(env: Env, txs: seq<string>, ts: seq<Transaction>, signIndexes: seq<nat>, ids: GroupIds, handle: Bytes, oldKey: Key, newKey: Key, l: Ledger)
    requires RecoveryTemplate(env, txs, signIndexes, ids, handle, oldKey, newKey)
    requires |ts| == 8 && DecodedAs(env, txs, ts, [0, 1, 2, 3, 4, 5, 6, 7])
    requires Run(l, ids.asset, ts).Some?
    ensures forall a :: Recovered(l, Run(l, ids.asset, ts).value, ts, PartiesOf(env, txs, ids, oldKey, newKey), a)
    ensures OldFees(ts) + NewFees(ts) <= 7 * MAX_CLIENT_FEE && OldFees(ts) <= Of(l.algo, env.publicKey(oldKey))
  {
    AcceptedSteps(env, txs, ts, signIndexes, ids, handle, oldKey, newKey);
    var p := PartiesOf(env, txs, ids, oldKey, newKey);
    var ls := RunTraces(l, ids.asset, ts);
    forall a ensures Recovered(l, ls[8], ts, p, a) && OldFees(ts) <= Of(l.algo, p.before) && OldFees(ts) + NewFees(ts) <= 7 * MAX_CLIENT_FEE {
      RecoveryRun(env, ls, ts, ids, handle, p, a);
    }
    assert Recovered(l, ls[8], ts, p, p.before);
  }

  // ----- registration -----

  /** The four transactions of a registration the client signs, among others'. */
  predicate RegistrationSteps(env: Env, ts: seq<Transaction>, ids: GroupIds, handle: Bytes, me: Address) {
    && 7 <= |ts| <= 8
    && ClientIs(ts[1], Transfer(me, ids.asset, me, 0, None))
    && ClientIs(ts[3], CallTemplate(env, me, ids, Some(ON_COMPLETE_OPT_IN), None))
    && ClientIs(ts[4], Transfer(me, ids.asset, env.appAddress(ids.app), 1, None))
    && ClientIs(ts[5], CallTemplate(env, me, ids, None, Some(handle)))
  }

  /** What each of the client's transactions does to any account: it costs its fee, and the one at 4
      gives 1 Bingle$ to the application. */
  lemma RegistrationStepEffect(env: Env, ts: seq<Transaction>, ls: seq<Ledger>, ids: GroupIds, handle: Bytes, me: Address, i: nat, a: Address)
    requires RegistrationSteps(env, ts, ids, handle, me)
    requires Traced(ls, ids.asset, ts)
    requires i in REGISTRATION_SIGN_INDEXES
    ensures Charged(ls[i], ls[i + 1], ts[i], a) && ts[i].snd == me && Fee(ts[i]) <= MAX_CLIENT_FEE
    ensures Signer(ls[i + 1], a) == Signer(ls[i], a)
    ensures var n := if i == 4 then 1 else 0;
            Of(ls[i + 1].bingle, a) == Of(ls[i].bingle, a) - At(a, me, n) + At(a, env.appAddress(ids.app), n)
  {
    assert Step(ls[i], ids.asset, ts[i]) == Some(ls[i + 1]);
    if i == 1 {
      ClientFacts(ts[1], Transfer(me, ids.asset, me, 0, None));
      TransferEffect(ls[1], ts[1], a, ids, me, 0);
    } else if i == 3 {
      ClientFacts(ts[3], CallTemplate(env, me, ids, Some(ON_COMPLETE_OPT_IN), None));
      CallEffect(env, ls[3], ids.asset, ts[3], a, ids, Some(ON_COMPLETE_OPT_IN), None);
    } else if i == 4 {
      ClientFacts(ts[4], Transfer(me, ids.asset, env.appAddress(ids.app), 1, None));
      TransferEffect(ls[4], ts[4], a, ids, env.appAddress(ids.app), 1);
    } else {
      ClientFacts(ts[5], CallTemplate(env, me, ids, None, Some(handle)));
      CallEffect(env, ls[5], ids.asset, ts[5], a, ids, None, Some(handle));
    }
  }

  // ----- what comes into an account and what goes out of it -----

  /** What a move with an optional close takes out of the account. */
  function Outflow(m: Balances, from: Address, to: Address, n: nat, closeTo: Option<Address>, me: Address): nat {
    if from != me then 0
    else n + (if closeTo.Some? && Move(m, from, to, n).Some? then Of(Move(m, from, to, n).value, from) else 0)
  }

  /** What it brings to the account. */
  function Inflow(m: Balances, from: Address, to: Address, n: nat, closeTo: Option<Address>, me: Address): nat {
    At(me, to, n) + (if closeTo == Some(me) && Move(m, from, to, n).Some? then Of(Move(m, from, to, n).value, from) else 0)
  }

  lemma MoveBalance(m: Balances, from: Address, to: Address, n: nat, closeTo: Option<Address>, me: Address)
    ensures var r := MoveAndClose(m, from, to, n, closeTo);
            r.Some? ==> Of(r.value, me) + Outflow(m, from, to, n, closeTo, me) == Of(m, me) + Inflow(m, from, to, n, closeTo, me)
  {
  }

  predicate MovesBingle(asset: nat, t: Transaction) {
    t.kind == "axfer" && t.xaid == Some(asset)
  }

  function BingleOut(l: Ledger, asset: nat, t: Transaction, me: Address): nat {
    if MovesBingle(asset, t)
    then Outflow(l.bingle, t.asnd.GetOr(t.snd), t.arcv.GetOr(ZERO_ADDRESS), t.aamt.GetOr(0), t.aclose, me) else 0
  }

  function BingleIn(l: Ledger, asset: nat, t: Transaction, me: Address): nat {
    if MovesBingle(asset, t)
    then Inflow(l.bingle, t.asnd.GetOr(t.snd), t.arcv.GetOr(ZERO_ADDRESS), t.aamt.GetOr(0), t.aclose, me) else 0
  }

  function Paid(l: Ledger, t: Transaction): Balances {
    if Charge(l, t).Some? then Charge(l, t).value.algo else l.algo
  }

  function AlgoOut(l: Ledger, t: Transaction, me: Address): nat {
    At(me, t.snd, Fee(t))
    + (if t.kind == "pay" then Outflow(Paid(l, t), t.snd, t.rcv.GetOr(ZERO_ADDRESS), t.amt.GetOr(0), t.close, me) else 0)
  }

  function AlgoIn(l: Ledger, t: Transaction, me: Address): nat {
    if t.kind == "pay" then Inflow(Paid(l, t), t.snd, t.rcv.GetOr(ZERO_ADDRESS), t.amt.GetOr(0), t.close, me) else 0
  }

  /** Every transaction balances, for every account. */
  lemma StepBalance(l: Ledger, asset: nat, t: Transaction, me: Address)
    requires Step(l, asset, t).Some?
    ensures
      var m := Step(l, asset, t).value;
      && Of(m.bingle, me) + BingleOut(l, asset, t, me) == Of(l.bingle, me) + BingleIn(l, asset, t, me)
      && Of(m.algo, me) + AlgoOut(l, t, me) == Of(l.algo, me) + AlgoIn(l, t, me)
      && (t.snd != me || t.rekey.None? ==> Signer(m, me) == Signer(l, me))
  {
    var c := Charge(l, t).value;
    if t.kind == "pay" {
      MoveBalance(c.algo, t.snd, t.rcv.GetOr(ZERO_ADDRESS), t.amt.GetOr(0), t.close, me);
    } else if MovesBingle(asset, t) {
      MoveBalance(c.bingle, t.asnd.GetOr(t.snd), t.arcv.GetOr(ZERO_ADDRESS), t.aamt.GetOr(0), t.aclose, me);
    }
  }

  // ----- sums over a run, up to its `k`-th transaction -----

  /** Bingle$ taken out of the account by its own transactions, or by those of others: clawed back. */
  function BingleTaken(ls: seq<Ledger>, asset: nat, ts: seq<Transaction>, me: Address, own: bool, k: nat): nat
    requires k <= |ts| < |ls|
  {
    if k == 0 then 0
    else BingleTaken(ls, asset, ts, me, own, k - 1) + (if (ts[k - 1].snd == me) == own then BingleOut(ls[k - 1], asset, ts[k - 1], me) else 0)
  }

  function BingleReceived(ls: seq<Ledger>, asset: nat, ts: seq<Transaction>, me: Address, k: nat): nat
    requires k <= |ts| < |ls|
  {
    if k == 0 then 0 else BingleReceived(ls, asset, ts, me, k - 1) + BingleIn(ls[k - 1], asset, ts[k - 1], me)
  }

  function AlgoSpent(ls: seq<Ledger>, ts: seq<Transaction>, me: Address, k: nat): nat
    requires k <= |ts| < |ls|
  {
    if k == 0 then 0 else AlgoSpent(ls, ts, me, k - 1) + AlgoOut(ls[k - 1], ts[k - 1], me)
  }

  function AlgoReceived(ls: seq<Ledger>, ts: seq<Transaction>, me: Address, k: nat): nat
    requires k <= |ts| < |ls|
  {
    if k == 0 then 0 else AlgoReceived(ls, ts, me, k - 1) + AlgoIn(ls[k - 1], ts[k - 1], me)
  }

  /** Every run balances, for every account. */
  lemma {:induction false} RunBalance(ls: seq<Ledger>, asset: nat, ts: seq<Transaction>, me: Address, k: nat)
    requires Traced(ls, asset, ts) && k <= |ts|
    ensures Of(ls[k].bingle, me) + BingleTaken(ls, asset, ts, me, true, k) + BingleTaken(ls, asset, ts, me, false, k)
         == Of(ls[0].bingle, me) + BingleReceived(ls, asset, ts, me, k)
    ensures Of(ls[k].algo, me) + AlgoSpent(ls, ts, me, k) == Of(ls[0].algo, me) + AlgoReceived(ls, ts, me, k)
  {
    if k > 0 {
      RunBalance(ls, asset, ts, me, k - 1);
      assert Step(ls[k - 1], asset, ts[k - 1]) == Some(ls[k]);
      StepBalance(ls[k - 1], asset, ts[k - 1], me);
    }
  }

  // ----- what a registration costs -----

  /** Every transaction of the group is signed by whoever signs for its sender. */
  ghost predicate Authorized(ls: seq<Ledger>, ts: seq<Transaction>, signers: seq<Address>) {
    && |ls| == |ts| + 1 && |signers| == |ts|
    && forall i | 0 <= i < |ts| :: Signer(ls[i], ts[i].snd) == signers[i]
  }

  /** The client's own transactions take 1 Bingle$ and their fees, and nothing else. */
  lemma OwnStep(env: Env, ts: seq<Transaction>, ls: seq<Ledger>, ids: GroupIds, handle: Bytes, me: Address, i: nat)
    requires RegistrationSteps(env, ts, ids, handle, me) && Traced(ls, ids.asset, ts) && i in REGISTRATION_SIGN_INDEXES
    ensures ts[i].snd == me && ts[i].rekey.None? && Fee(ts[i]) <= MAX_CLIENT_FEE
    ensures BingleOut(ls[i], ids.asset, ts[i], me) == (if i == 4 then 1 else 0) && AlgoOut(ls[i], ts[i], me) == Fee(ts[i])
  {
    if i == 1 {
      ClientFacts(ts[1], Transfer(me, ids.asset, me, 0, None));
      TransferFields(ts[1], ids, me, 0, None);
    } else if i == 3 {
      ClientFacts(ts[3], CallTemplate(env, me, ids, Some(ON_COMPLETE_OPT_IN), None));
      assert Core(ts[3]).kind == "appl";
    } else if i == 4 {
      ClientFacts(ts[4], Transfer(me, ids.asset, env.appAddress(ids.app), 1, None));
      TransferFields(ts[4], ids, env.appAddress(ids.app), 1, None);
    } else {
      ClientFacts(ts[5], CallTemplate(env, me, ids, None, Some(handle)));
      assert Core(ts[5]).kind == "appl";
    }
  }

  /** The client's signatures among the first `k` transactions. */
  function SignedBefore(k: nat): nat {
    (if k > 1 then 1 else 0) + (if k > 3 then 1 else 0) + (if k > 4 then 1 else 0) + (if k > 5 then 1 else 0)
  }

  /** The transaction is the client's own exactly at its four positions; its own take 1 Bingle$ at
      position 4 and their fees, others' take no Algo; and the account stays the client's. */
  predicate Ours(ls: seq<Ledger>, asset: nat, ts: seq<Transaction>, me: Address, i: nat)
    requires i < |ts| < |ls|
  {
    && Signer(ls[i + 1], me) == me
    && (ts[i].snd == me <==> i in REGISTRATION_SIGN_INDEXES)
    && (ts[i].snd == me ==> BingleOut(ls[i], asset, ts[i], me) == if i == 4 then 1 else 0)
    && AlgoOut(ls[i], ts[i], me) <= if i in REGISTRATION_SIGN_INDEXES then MAX_CLIENT_FEE else 0
  }

  lemma OneStep(env: Env, ts: seq<Transaction>, ls: seq<Ledger>, signers: seq<Address>, ids: GroupIds, handle: Bytes, me: Address, i: nat)
    requires RegistrationSteps(env, ts, ids, handle, me) && Traced(ls, ids.asset, ts) && i < |ts|
    requires |signers| == |ts| && Signer(ls[i], ts[i].snd) == signers[i] && Signer(ls[i], me) == me
    requires i !in REGISTRATION_SIGN_INDEXES ==> signers[i] != me
    ensures Ours(ls, ids.asset, ts, me, i)
  {
    assert Step(ls[i], ids.asset, ts[i]) == Some(ls[i + 1]);
    StepBalance(ls[i], ids.asset, ts[i], me);
    if i in REGISTRATION_SIGN_INDEXES {
      OwnStep(env, ts, ls, ids, handle, me, i);
    }
  }

  /** Nothing but its own four transactions is sent in the client's name. */
  lemma {:induction false} AllOurs(env: Env, ts: seq<Transaction>, ls: seq<Ledger>, signers: seq<Address>, ids: GroupIds, handle: Bytes, me: Address, k: nat)
    requires RegistrationSteps(env, ts, ids, handle, me) && Traced(ls, ids.asset, ts) && k <= |ts|
    requires Authorized(ls, ts, signers) && Signer(ls[0], me) == me
    requires forall i | 0 <= i < |ts| && i !in REGISTRATION_SIGN_INDEXES :: signers[i] != me
    ensures Signer(ls[k], me) == me && forall i | 0 <= i < k :: Ours(ls, ids.asset, ts, me, i)
  {
    if k > 0 {
      AllOurs(env, ts, ls, signers, ids, handle, me, k - 1);
      assert Signer(ls[k - 1], ts[k - 1].snd) == signers[k - 1];
      OneStep(env, ts, ls, signers, ids, handle, me, k - 1);
    }
  }

  lemma {:induction false} OursAddUp(ls: seq<Ledger>, asset: nat, ts: seq<Transaction>, me: Address, k: nat)
    requires k <= |ts| < |ls| && forall i | 0 <= i < k :: Ours(ls, asset, ts, me, i)
    ensures BingleTaken(ls, asset, ts, me, true, k) == if k > 4 then 1 else 0
    ensures AlgoSpent(ls, ts, me, k) <= MAX_CLIENT_FEE * SignedBefore(k)
  {
    if k > 0 {
      OursAddUp(ls, asset, ts, me, k - 1);
      assert Ours(ls, asset, ts, me, k - 1);
    }
  }

  /** Over every ledger on which an accepted registration group runs, whatever others put in it: the
      client's Bingle$ at the end, the 1 it pays and whatever is clawed back from it make up its
      Bingle$ at the start and whatever it receives; its Algo goes for at most four maximum fees; and
      its account stays its own. So it is at most 1 Bingle$ down exactly when no more is clawed back
      than it receives. */
  lemma RegistrationCost(env: Env, txs: seq<string>, ts: seq<Transaction>, ls: seq<Ledger>, signers: seq<Address>, signIndexes: seq<nat>, ids: GroupIds, handle: Bytes, key: Key)
    requires RegistrationTemplate(env, txs, signIndexes, ids, handle, key)
    requires |ts| == |txs| && DecodedAs(env, txs, ts, REGISTRATION_SIGN_INDEXES)
    requires Traced(ls, ids.asset, ts) && Authorized(ls, ts, signers) && Signer(ls[0], env.publicKey(key)) == env.publicKey(key)
    requires forall i | 0 <= i < |ts| && i !in REGISTRATION_SIGN_INDEXES :: signers[i] != env.publicKey(key)
    ensures
      var me, l, m, n := env.publicKey(key), ls[0], ls[|ts|], |ts|;
      var clawed, received := BingleTaken(ls, ids.asset, ts, me, false, n), BingleReceived(ls, ids.asset, ts, me, n);
      && Of(m.bingle, me) + 1 + clawed == Of(l.bingle, me) + received
      && (Of(m.bingle, me) + 1 >= Of(l.bingle, me) <==> clawed <= received)
      && Of(m.algo, me) + AlgoSpent(ls, ts, me, n) == Of(l.algo, me) + AlgoReceived(ls, ts, me, n)
      && AlgoSpent(ls, ts, me, n) <= 4 * MAX_CLIENT_FEE
      && Signer(m, me) == me
  {
    var me := env.publicKey(key);
    var indexes := REGISTRATION_SIGN_INDEXES;
    assert indexes[0] == 1 && indexes[1] == 3 && indexes[2] == 4 && indexes[3] == 5;
    AllOurs(env, ts, ls, signers, ids, handle, me, |ts|);
    OursAddUp(ls, ids.asset, ts, me, |ts|);
    RunBalance(ls, ids.asset, ts, me, |ts|);
  }

  // ----- a clawback among the others -----

  /** An environment that decodes the group's transactions from the characters of "0123456". */
  function Showing(env: Env, group: seq<Transaction>): Env {
    env.(unbase64 := (s: string) => if |s| == 1 then Some([s[0] as int % 256]) else None,
         groupOf := (b: Bytes) => Some(Some([])),
         decode := (b: Bytes) => if |b| == 1 && 48 <= b[0] < 48 + |group| then Some(group[b[0] - 48]) else None)
  }

  const SEVEN: seq<string> := ["0", "1", "2", "3", "4", "5", "6"]

  lemma ShownDecodes(env: Env, group: seq<Transaction>, i: nat)
    requires |group| == 7 && i < 7
    ensures
      var e := Showing(env, group);
      e.unbase64(SEVEN[i]).Some? && e.decode(BytesOf(e, SEVEN, i)) == Some(group[i])
  {
    assert |SEVEN[i]| == 1 && SEVEN[i][0] as int == 48 + i;
  }

  lemma ShownSlot(env: Env, group: seq<Transaction>, i: nat, want: Transaction)
    requires |group| == 7 && i < 7 && ClientIs(group[i], want)
    ensures ClientSlot(Showing(env, group), BytesOf(Showing(env, group), SEVEN, i), want)
  {
    ShownDecodes(env, group, i);
  }

  /** Any seven transactions of the right shape make an accepted group. */
  lemma ShownIsAccepted(env: Env, group: seq<Transaction>, ids: GroupIds, handle: Bytes, key: Key)
    requires |group| == 7 && RegistrationSteps(env, group, ids, handle, env.publicKey(key))
    ensures RegistrationTemplate(Showing(env, group), SEVEN, REGISTRATION_SIGN_INDEXES, ids, handle, key)
  {
    var e, me := Showing(env, group), env.publicKey(key);
    assert Grouped(e, SEVEN) by {
      forall i | 0 <= i < |SEVEN| ensures e.unbase64(SEVEN[i]).Some? { ShownDecodes(env, group, i); }
      assert GroupedBy(e, SEVEN, []);
    }
    assert RegisterArgs(e, handle) == RegisterArgs(env, handle);
    ShownSlot(env, group, 1, Transfer(me, ids.asset, me, 0, None));
    ShownSlot(env, group, 3, CallTemplate(env, me, ids, Some(ON_COMPLETE_OPT_IN), None));
    ShownSlot(env, group, 4, Transfer(me, ids.asset, env.appAddress(ids.app), 1, None));
    ShownSlot(env, group, 5, CallTemplate(env, me, ids, None, Some(handle)));
  }

  /** A group in which `other` claws `n` Bingle$ back from the client at position 6. */
  function ClawbackGroup(env: Env, ids: GroupIds, handle: Bytes, me: Address, other: Address, n: nat): seq<Transaction> {
    [Blank("keyreg", other), Transfer(me, ids.asset, me, 0, None), Blank("keyreg", other),
     CallTemplate(env, me, ids, Some(ON_COMPLETE_OPT_IN), None), Transfer(me, ids.asset, env.appAddress(ids.app), 1, None),
     CallTemplate(env, me, ids, None, Some(handle)),
     Blank("axfer", other).(xaid := Some(ids.asset), asnd := Some(me), arcv := Some(other), aamt := Some(n))]
  }

  /** A transaction without a fee that moves no more than there is goes through. */
  lemma StepRuns(l: Ledger, asset: nat, t: Transaction, me: Address)
    requires t.fee.None? && t.kind != "pay" && t.rekey.None?
    requires MovesBingle(asset, t) ==> t.aclose.None? && Of(l.bingle, t.asnd.GetOr(t.snd)) >= t.aamt.GetOr(0)
    ensures Step(l, asset, t).Some? && Step(l, asset, t).value.auth == l.auth
    ensures Of(Step(l, asset, t).value.bingle, me) + BingleOut(l, asset, t, me) == Of(l.bingle, me) + BingleIn(l, asset, t, me)
  {
    StepBalance(l, asset, t, me);
  }

  lemma ClawbackShape(env: Env, ids: GroupIds, handle: Bytes, me: Address, other: Address, n: nat)
    ensures RegistrationSteps(env, ClawbackGroup(env, ids, handle, me, other, n), ids, handle, me)
  {
  }

  /** What the client still has of its `n + 1` Bingle$ before the transaction at `i`. */
  function LeftBefore(n: nat, i: nat): nat {
    if i <= 4 then n + 1 else if i <= 6 then n else 0
  }

  lemma ClawbackStep(env: Env, ids: GroupIds, handle: Bytes, me: Address, other: Address, n: nat, l: Ledger, i: nat)
    requires me != other && me != env.appAddress(ids.app) && i < 7
    requires l.auth == map[] && Of(l.bingle, me) == LeftBefore(n, i)
    ensures
      var t := ClawbackGroup(env, ids, handle, me, other, n)[i];
      var m := Step(l, ids.asset, t);
      && t.snd == (if i in REGISTRATION_SIGN_INDEXES then me else other)
      && m.Some? && m.value.auth == map[] && Of(m.value.bingle, me) == LeftBefore(n, i + 1)
  {
    StepRuns(l, ids.asset, ClawbackGroup(env, ids, handle, me, other, n)[i], me);
  }

  /** The checks do not look at what they do not sign: there are accepted groups that take any number
      of Bingle$ from the client, beyond the 1 it pays. */
  lemma ClawbackBreaksBound(env: Env, ids: GroupIds, handle: Bytes, key: Key, other: Address, n: nat)
    returns (ts: seq<Transaction>, ls: seq<Ledger>, signers: seq<Address>)
    requires env.publicKey(key) != other && env.publicKey(key) != env.appAddress(ids.app) && n > 0
    ensures |ts| == 7 && RegistrationTemplate(Showing(env, ts), SEVEN, REGISTRATION_SIGN_INDEXES, ids, handle, key)
    ensures forall i | 0 <= i < 7 :: Showing(env, ts).decode(BytesOf(Showing(env, ts), SEVEN, i)) == Some(ts[i])
    ensures Traced(ls, ids.asset, ts) && Authorized(ls, ts, signers) && Signer(ls[0], env.publicKey(key)) == env.publicKey(key)
    ensures forall i | 0 <= i < 7 && i !in REGISTRATION_SIGN_INDEXES :: signers[i] != env.publicKey(key)
    ensures Of(ls[7].bingle, env.publicKey(key)) + 1 + n == Of(ls[0].bingle, env.publicKey(key))
  {
    var me := env.publicKey(key);
    ts := ClawbackGroup(env, ids, handle, me, other, n);
    assert RegistrationTemplate(Showing(env, ts), SEVEN, REGISTRATION_SIGN_INDEXES, ids, handle, key) by {
      ClawbackShape(env, ids, handle, me, other, n);
      ShownIsAccepted(env, ts, ids, handle, key);
    }
    forall i | 0 <= i < 7 ensures Showing(env, ts).decode(BytesOf(Showing(env, ts), SEVEN, i)) == Some(ts[i]) { ShownDecodes(env, ts, i); }
    ls, signers := ClawbackRun(env, ids, handle, me, other, n);
  }

  lemma ClawbackRun(env: Env, ids: GroupIds, handle: Bytes, me: Address, other: Address, n: nat) returns (ls: seq<Ledger>, signers: seq<Address>)
    requires me != other && me != env.appAddress(ids.app)
    ensures
      var ts := ClawbackGroup(env, ids, handle, me, other, n);
      Traced(ls, ids.asset, ts) && Authorized(ls, ts, signers) && Signer(ls[0], me) == me
    ensures forall i | 0 <= i < 7 && i !in REGISTRATION_SIGN_INDEXES :: signers[i] == other
    ensures Of(ls[0].bingle, me) == n + 1 && Of(ls[7].bingle, me) == 0
  {
    ghost var ts := ClawbackGroup(env, ids, handle, me, other, n);
    signers := seq(7, i requires 0 <= i < 7 => ts[i].snd);
    ls := [Ledger(map[], map[me := n + 1], map[], 0)];
    for k := 0 to 7
      invariant |ls| == k + 1 && Of(ls[0].bingle, me) == n + 1
      invariant forall j | 0 <= j < k :: Step(ls[j], ids.asset, ts[j]) == Some(ls[j + 1])
      invariant forall j | 0 <= j <= k :: ls[j].auth == map[] && Of(ls[j].bingle, me) == LeftBefore(n, j)
    {
      ClawbackStep(env, ids, handle, me, other, n, ls[k], k);
      ls := ls + [Step(ls[k], ids.asset, ts[k]).value];
    }
    forall i | 0 <= i < 7 ensures ts[i].snd == if i in REGISTRATION_SIGN_INDEXES then me else other {
      ClawbackStep(env, ids, handle, me, other, n, ls[i], i);
    }
  }
}
