/** Searching registered handles by prefix, and looking one up exactly. */
module HandleRanking {
  import opened Wrappers
  import opened Bytes
  import opened Order
  import opened Sorting

  /** What the text library decides: which characters are alphanumeric, and what reads as a number. */
  datatype Text = Text(alphanumeric: char -> bool, parse: string -> Option<u64>)

  /** An opted-in account with its decoded local state. */
  datatype Account = Account(address: string, localState: seq<(string, string)>)

  datatype Found = Found(address: string, time: u64)

  datatype Match = Match(address: string, handle: string, time: u64)

  datatype Ranked = Ranked(exact: bool, address: string, handle: string, time: u64)

  function Lower(c: char): char {
    if 'A' <= c <= 'Z' then c - 'A' + 'a' else c
  }

  /** A handle as it is compared: its alphanumeric characters, in lower case. */
  function Normalize(x: Text, handle: string): string {
    if handle == [] then []
    else (if x.alphanumeric(handle[0]) then [Lower(handle[0])] else []) + Normalize(x, handle[1..])
  }

  /** The value of the first entry with this key. */
  function Field(state: seq<(string, string)>, key: string): Option<string> {
    if state == [] then None
    else if state[0].0 == key then Some(state[0].1)
    else Field(state[1..], key)
  }

  function HandleTime(x: Text, a: Account): u64 {
    match Field(a.localState, "HandleTime")
    case None => 0
    case Some(v) => x.parse(v).GetOr(0)
  }

  // ----- scanning -----

  function ExactMatch(x: Text, a: Account, handle: string): Option<Found> {
    var h :- Field(a.localState, "Handle");
    if Normalize(x, h) == Normalize(x, handle) then Some(Found(a.address, HandleTime(x, a))) else None
  }

  function PrefixMatch(x: Text, a: Account, prefix: string): Option<Match> {
    if Normalize(x, prefix) == [] then None
    else
      var h :- Field(a.localState, "Handle");
      if Normalize(x, prefix) <= Normalize(x, h) then Some(Match(a.address, h, HandleTime(x, a))) else None
  }

  function Listed<T>(o: Option<T>): seq<T> {
    match o
    case None => []
    case Some(v) => [v]
  }

  /** What `f` finds in the items, in their order. */
  function Collect<A, B>(f: A -> Option<B>, s: seq<A>): seq<B> {
    if s == [] then [] else Collect(f, s[..|s| - 1]) + Listed(f(s[|s| - 1]))
  }

  function ExactBy(x: Text, handle: string): Account -> Option<Found> {
    a => ExactMatch(x, a, handle)
  }

  function PrefixBy(x: Text, prefix: string): Account -> Option<Match> {
    a => PrefixMatch(x, a, prefix)
  }

  /** Appends the account if its handle is the wanted one. */
  method ExtractHandleMatch(x: Text, a: Account, handle: string, matches: seq<Found>) returns (r: seq<Found>)
    ensures r == matches + Listed(ExactMatch(x, a, handle))
  {
    r := matches;
    var h := Field(a.localState, "Handle");
    if h.Some? && Normalize(x, h.value) == Normalize(x, handle) {
      r := r + [Found(a.address, HandleTime(x, a))];
    }
  }

  /** Appends the account if its handle begins with a prefix that is not empty. */
  method HandlePrefixMatch(x: Text, a: Account, prefix: string, matches: seq<Match>) returns (r: seq<Match>)
    ensures r == matches + Listed(PrefixMatch(x, a, prefix))
  {
    r := matches;
    var wanted := Normalize(x, prefix);
    if wanted == [] {
      return;
    }
    var h := Field(a.localState, "Handle");
    if h.Some? && wanted <= Normalize(x, h.value) {
      r := r + [Match(a.address, h.value, HandleTime(x, a))];
    }
  }

  method ScanExact(x: Text, accounts: seq<Account>, handle: string) returns (matches: seq<Found>)
    ensures matches == Collect(ExactBy(x, handle), accounts)
  {
    matches := [];
    for i := 0 to |accounts|
      invariant matches == Collect(ExactBy(x, handle), accounts[..i])
    {
      matches := ExtractHandleMatch(x, accounts[i], handle, matches);
      assert accounts[..i + 1][..i] == accounts[..i];
    }
    assert accounts[..|accounts|] == accounts;
  }

  method ScanPrefix(x: Text, accounts: seq<Account>, prefix: string) returns (matches: seq<Match>)
    ensures matches == Collect(PrefixBy(x, prefix), accounts)
  {
    matches := [];
    for i := 0 to |accounts|
      invariant matches == Collect(PrefixBy(x, prefix), accounts[..i])
    {
      matches := HandlePrefixMatch(x, accounts[i], prefix, matches);
      assert accounts[..i + 1][..i] == accounts[..i];
    }
    assert accounts[..|accounts|] == accounts;
  }

  // ----- ordering -----

  /** The older first; at the same time, the smaller address. */
  predicate Elder(s: u64, a: string, t: u64, b: string) {
    s < t || (s == t && !Less(b, a))
  }

  predicate AgeLeq(a: Found, b: Found) {
    Elder(a.time, a.address, b.time, b.address)
  }

  /** Exact matches first, then by age. */
  predicate RankLeq(a: Ranked, b: Ranked) {
    (a.exact && !b.exact) || (a.exact == b.exact && Elder(a.time, a.address, b.time, b.address))
  }

  lemma ElderTotal(s: u64, a: string, t: u64, b: string)
    ensures Elder(s, a, t, b) || Elder(t, b, s, a)
    ensures Elder(s, a, t, b) && Elder(t, b, s, a) ==> s == t && a == b
  {
    LessAsymmetric(a, b);
    LessTotal(a, b);
  }

  lemma ElderTransitive(s: u64, a: string, t: u64, b: string, u: u64, c: string)
    requires Elder(s, a, t, b) && Elder(t, b, u, c)
    ensures Elder(s, a, u, c)
  {
    LessTotal(a, b);
    LessTotal(b, c);
    if Less(a, b) && Less(b, c) { LessTransitive(a, b, c); }
    LessAsymmetric(a, c);
  }

  lemma Orders()
    ensures TotalOrder(AgeLeq) && TotalOrder(RankLeq)
  {
    forall a: Found, b: Found ensures AgeLeq(a, b) || AgeLeq(b, a) { ElderTotal(a.time, a.address, b.time, b.address); }
    forall a: Found, b: Found, c: Found | AgeLeq(a, b) && AgeLeq(b, c) ensures AgeLeq(a, c) {
      ElderTransitive(a.time, a.address, b.time, b.address, c.time, c.address);
    }
    forall a: Ranked, b: Ranked ensures RankLeq(a, b) || RankLeq(b, a) { ElderTotal(a.time, a.address, b.time, b.address); }
    forall a: Ranked, b: Ranked, c: Ranked | RankLeq(a, b) && RankLeq(b, c) ensures RankLeq(a, c) {
      if a.exact == b.exact == c.exact { ElderTransitive(a.time, a.address, b.time, b.address, c.time, c.address); }
    }
  }

  // ----- lookup and search -----

  function PickOldestMatch(matches: seq<Found>): Option<string> {
    if matches == [] then None else Some(Sort(AgeLeq, matches)[0].address)
  }

  function Lookup(x: Text, accounts: seq<Account>, handle: string): Option<string> {
    PickOldestMatch(Collect(ExactBy(x, handle), accounts))
  }

  function Marking(x: Text, prefix: string): Match -> Option<Ranked> {
    (m: Match) => Some(Ranked(Normalize(x, m.handle) == Normalize(x, prefix), m.address, m.handle, m.time))
  }

  function Ranking(x: Text, matches: seq<Match>, prefix: string): seq<Ranked> {
    Sort(RankLeq, Collect(Marking(x, prefix), matches))
  }

  function Shown(r: Ranked): (string, string, bool) {
    (r.address, r.handle, r.exact)
  }

  function RankPrefixMatches(x: Text, matches: seq<Match>, prefix: string, limit: nat): seq<(string, string, bool)> {
    var ranked := Ranking(x, matches, prefix);
    seq(if |ranked| < limit then |ranked| else limit, i requires 0 <= i < |ranked| => Shown(ranked[i]))
  }

  function Search(x: Text, accounts: seq<Account>, prefix: string, limit: nat): seq<(string, string, bool)> {
    RankPrefixMatches(x, Collect(PrefixBy(x, prefix), accounts), prefix, limit)
  }

  // ----- what is collected does not depend on the order -----

  lemma {:induction false} CollectIn<A, B>(f: A -> Option<B>, s: seq<A>, y: B)
    ensures y in Collect(f, s) <==> exists i :: 0 <= i < |s| && f(s[i]) == Some(y)
    decreases |s|
  {
    if s != [] {
      var u, last := LastOff(s);
      CollectIn(f, u, y);
      CollectSnoc(f, u, last);
      assert s[|u|] == last && forall i | 0 <= i < |u| :: s[i] == u[i];
    }
  }

  lemma {:induction false} CollectSnoc<A, B>(f: A -> Option<B>, s: seq<A>, y: A)
    ensures Collect(f, s + [y]) == Collect(f, s) + Listed(f(y))
  {
    assert (s + [y])[..|s|] == s;
  }

  lemma Regroup<T>(a: seq<T>, b: seq<T>, c: seq<T>)
    ensures a + (b + c) == a + b + c
  {
  }

  lemma ConcatSnoc<A, B>(f: A -> Option<B>, s: seq<A>, t: seq<A>, y: A)
    requires Collect(f, s + t) == Collect(f, s) + Collect(f, t)
    ensures Collect(f, s + (t + [y])) == Collect(f, s) + Collect(f, t + [y])
  {
    CollectSnoc(f, s + t, y);
    CollectSnoc(f, t, y);
    Regroup(s, t, [y]);
    Regroup(Collect(f, s), Collect(f, t), Listed(f(y)));
  }

  lemma CollectNone<A, B>(f: A -> Option<B>, s: seq<A>)
    ensures Collect(f, s + []) == Collect(f, s) + Collect(f, [])
  {
    assert s + [] == s && Collect(f, s) + [] == Collect(f, s);
  }

  lemma LastOff<T>(t: seq<T>) returns (u: seq<T>, y: T)
    requires t != []
    ensures t == u + [y]
  {
    u, y := t[..|t| - 1], t[|t| - 1];
  }

  lemma {:induction false} CollectConcat<A, B>(f: A -> Option<B>, s: seq<A>, t: seq<A>)
    ensures Collect(f, s + t) == Collect(f, s) + Collect(f, t)
    decreases |t|
  {
    if t == [] {
      CollectNone(f, s);
    } else {
      var u, y := LastOff(t);
      CollectConcat(f, s, u);
      ConcatSnoc(f, s, u, y);
    }
  }

  lemma CollectWithout<A, B>(f: A -> Option<B>, before: seq<A>, y: A, after: seq<A>)
    ensures multiset(Collect(f, before + [y] + after)) == multiset(Collect(f, before + after)) + multiset(Listed(f(y)))
  {
    CollectConcat(f, before, after);
    CollectConcat(f, before + [y], after);
    CollectSnoc(f, before, y);
  }

  lemma SplitOff<A>(t: seq<A>, y: A) returns (before: seq<A>, after: seq<A>)
    requires y in multiset(t)
    ensures t == before + [y] + after && multiset(before + after) == multiset(t) - multiset{y}
  {
    var j :| 0 <= j < |t| && t[j] == y;
    before, after := t[..j], t[j + 1..];
    assert t == before + [y] + after;
  }

  lemma {:induction false} CollectPermutes<A, B>(f: A -> Option<B>, s: seq<A>, t: seq<A>)
    requires multiset(s) == multiset(t)
    ensures multiset(Collect(f, s)) == multiset(Collect(f, t))
    decreases |s|
  {
    if s == [] {
      assert t == [] by { assert |multiset(t)| == |t|; }
    } else {
      var n := |s| - 1;
      var y := s[n];
      assert s == s[..n] + [y];
      var before, after := SplitOff(t, y);
      CollectPermutes(f, s[..n], before + after);
      CollectWithout(f, before, y, after);
    }
  }

  /** Accounts with the same address are the same account. */
  ghost predicate OneEach(accounts: seq<Account>) {
    forall a, b | a in accounts && b in accounts && a.address == b.address :: a == b
  }

  /** The account has this address, handle and time. */
  predicate Holds(x: Text, a: Account, address: string, handle: string, time: u64) {
    a.address == address && Field(a.localState, "Handle") == Some(handle) && HandleTime(x, a) == time
  }

  lemma {:induction false} MatchFrom(x: Text, accounts: seq<Account>, prefix: string, m: Match) returns (a: Account)
    requires m in Collect(PrefixBy(x, prefix), accounts)
    ensures a in accounts && Holds(x, a, m.address, m.handle, m.time)
  {
    CollectIn(PrefixBy(x, prefix), accounts, m);
    var k :| 0 <= k < |accounts| && PrefixBy(x, prefix)(accounts[k]) == Some(m);
    a := accounts[k];
    assert PrefixMatch(x, a, prefix) == Some(m);
  }

  lemma {:induction false} MarkedFrom(x: Text, matches: seq<Match>, prefix: string, r: Ranked)
    requires r in Collect(Marking(x, prefix), matches)
    ensures Match(r.address, r.handle, r.time) in matches
    ensures r.exact <==> Normalize(x, r.handle) == Normalize(x, prefix)
  {
    CollectIn(Marking(x, prefix), matches, r);
    var i :| 0 <= i < |matches| && Marking(x, prefix)(matches[i]) == Some(r);
    assert matches[i] == Match(r.address, r.handle, r.time);
  }

  /** Where a ranked entry comes from. */
  lemma {:induction false} RankedFrom(x: Text, accounts: seq<Account>, prefix: string, r: Ranked) returns (a: Account)
    requires r in Collect(Marking(x, prefix), Collect(PrefixBy(x, prefix), accounts))
    ensures a in accounts && Holds(x, a, r.address, r.handle, r.time)
    ensures r.exact <==> Normalize(x, r.handle) == Normalize(x, prefix)
  {
    MarkedFrom(x, Collect(PrefixBy(x, prefix), accounts), prefix, r);
    a := MatchFrom(x, accounts, prefix, Match(r.address, r.handle, r.time));
  }

  lemma {:induction false} RankedUntied(x: Text, accounts: seq<Account>, prefix: string)
    requires OneEach(accounts)
    ensures Untied(RankLeq, Ranking(x, Collect(PrefixBy(x, prefix), accounts), prefix))
  {
    var marked := Collect(Marking(x, prefix), Collect(PrefixBy(x, prefix), accounts));
    var ranked := Sort(RankLeq, marked);
    forall r, q | r in ranked && q in ranked && RankLeq(r, q) && RankLeq(q, r) ensures r == q {
      assert r in multiset(marked) && q in multiset(marked);
      var a := RankedFrom(x, accounts, prefix, r);
      var b := RankedFrom(x, accounts, prefix, q);
      ElderTotal(r.time, r.address, q.time, q.address);
      assert a == b;
    }
  }

  /** The search answers the same for every order in which the accounts are scanned. */
  lemma {:induction false} SearchIgnoresOrder(x: Text, a: seq<Account>, b: seq<Account>, prefix: string, limit: nat)
    requires OneEach(a) && multiset(a) == multiset(b)
    ensures Search(x, a, prefix, limit) == Search(x, b, prefix, limit)
  {
    var p, q := Collect(PrefixBy(x, prefix), a), Collect(PrefixBy(x, prefix), b);
    CollectPermutes(PrefixBy(x, prefix), a, b);
    CollectPermutes(Marking(x, prefix), p, q);
    Orders();
    SortSorted(RankLeq, Collect(Marking(x, prefix), p));
    SortSorted(RankLeq, Collect(Marking(x, prefix), q));
    RankedUntied(x, a, prefix);
    SortedUnique(RankLeq, Ranking(x, p, prefix), Ranking(x, q, prefix));
  }

  /** So does the exact lookup, whatever the accounts. */
  lemma {:induction false} LookupIgnoresOrder(x: Text, a: seq<Account>, b: seq<Account>, handle: string)
    requires multiset(a) == multiset(b)
    ensures Lookup(x, a, handle) == Lookup(x, b, handle)
  {
    var p, q := Collect(ExactBy(x, handle), a), Collect(ExactBy(x, handle), b);
    CollectPermutes(ExactBy(x, handle), a, b);
    assert |p| == |multiset(p)| == |multiset(q)| == |q|;
    if p != [] {
      Orders();
      var s, t := Sort(AgeLeq, p), Sort(AgeLeq, q);
      SortSorted(AgeLeq, p);
      SortSorted(AgeLeq, q);
      SameHead(AgeLeq, s, t);
      SameHead(AgeLeq, t, s);
      ElderTotal(s[0].time, s[0].address, t[0].time, t[0].address);
    }
  }

  /** A smaller limit only cuts the answer short. */
  lemma SmallerLimitIsPrefix(x: Text, accounts: seq<Account>, prefix: string, m: nat, n: nat)
    requires m <= n
    ensures
      var all := Search(x, accounts, prefix, n);
      Search(x, accounts, prefix, m) == all[..if |all| < m then |all| else m]
  {
  }

  /** The first of a sorted sequence is not after any of the elements. */
  lemma {:induction false} FirstLeast<T(!new)>(leq: (T, T) -> bool, s: seq<T>, y: T)
    requires TotalOrder(leq) && y in s
    ensures Sort(leq, s) != [] && leq(Sort(leq, s)[0], y)
  {
    SortSorted(leq, s);
    var t := Sort(leq, s);
    assert y in multiset(t);
    var j :| 0 <= j < |t| && t[j] == y;
    if j > 0 { assert leq(t[0], t[j]); }
  }

  /** The account's handle compares equal to the wanted one. */
  predicate Wanted(x: Text, a: Account, handle: string) {
    Field(a.localState, "Handle").Some? && Normalize(x, Field(a.localState, "Handle").value) == Normalize(x, handle)
  }

  lemma {:induction false} WantedIsFound(x: Text, accounts: seq<Account>, handle: string, b: Account)
    requires b in accounts && Wanted(x, b, handle)
    ensures Found(b.address, HandleTime(x, b)) in Collect(ExactBy(x, handle), accounts)
  {
    var k :| 0 <= k < |accounts| && accounts[k] == b;
    assert ExactBy(x, handle)(accounts[k]) == Some(Found(b.address, HandleTime(x, b)));
    CollectIn(ExactBy(x, handle), accounts, Found(b.address, HandleTime(x, b)));
  }

  /** The lookup answers an account that has the handle and is the oldest that has it, and answers
      nothing only when none has. */
  lemma {:induction false} LookupIsOldest(x: Text, accounts: seq<Account>, handle: string) returns (a: Option<Account>)
    ensures a.None? <==> Lookup(x, accounts, handle).None?
    ensures a.Some? ==> a.value in accounts && Wanted(x, a.value, handle) && Lookup(x, accounts, handle) == Some(a.value.address)
    ensures forall b | b in accounts && Wanted(x, b, handle) ::
              a.Some? && Elder(HandleTime(x, a.value), a.value.address, HandleTime(x, b), b.address)
  {
    var exacts := Collect(ExactBy(x, handle), accounts);
    forall b | b in accounts && Wanted(x, b, handle) ensures Found(b.address, HandleTime(x, b)) in exacts {
      WantedIsFound(x, accounts, handle, b);
    }
    if exacts == [] {
      return None;
    }
    var w := Sort(AgeLeq, exacts)[0];
    assert w in multiset(exacts);
    CollectIn(ExactBy(x, handle), accounts, w);
    var k :| 0 <= k < |accounts| && ExactBy(x, handle)(accounts[k]) == Some(w);
    a := Some(accounts[k]);
    Orders();
    forall b | b in accounts && Wanted(x, b, handle) ensures AgeLeq(w, Found(b.address, HandleTime(x, b))) {
      FirstLeast(AgeLeq, exacts, Found(b.address, HandleTime(x, b)));
    }
  }

  // ----- search agrees with lookup -----

  lemma {:induction false} ExactIsRanked(x: Text, accounts: seq<Account>, handle: string, f: Found) returns (r: Ranked)
    requires Normalize(x, handle) != [] && f in Collect(ExactBy(x, handle), accounts)
    ensures r in Collect(Marking(x, handle), Collect(PrefixBy(x, handle), accounts))
    ensures r.exact && r.address == f.address && r.time == f.time
  {
    CollectIn(ExactBy(x, handle), accounts, f);
    var k :| 0 <= k < |accounts| && ExactBy(x, handle)(accounts[k]) == Some(f);
    var a := accounts[k];
    var h := Field(a.localState, "Handle").value;
    var m := Match(a.address, h, HandleTime(x, a));
    assert PrefixBy(x, handle)(a) == Some(m);
    var matches := Collect(PrefixBy(x, handle), accounts);
    CollectIn(PrefixBy(x, handle), accounts, m);
    var i :| 0 <= i < |matches| && matches[i] == m;
    r := Ranked(true, a.address, h, m.time);
    assert Marking(x, handle)(matches[i]) == Some(r);
    CollectIn(Marking(x, handle), matches, r);
  }

  lemma {:induction false} RankedIsExact(x: Text, accounts: seq<Account>, handle: string, r: Ranked)
    requires r in Collect(Marking(x, handle), Collect(PrefixBy(x, handle), accounts)) && r.exact
    ensures Found(r.address, r.time) in Collect(ExactBy(x, handle), accounts)
  {
    var a := RankedFrom(x, accounts, handle, r);
    var k :| 0 <= k < |accounts| && accounts[k] == a;
    assert ExactBy(x, handle)(accounts[k]) == Some(Found(r.address, r.time));
    CollectIn(ExactBy(x, handle), accounts, Found(r.address, r.time));
  }

  /** The best ranked of the matches is the oldest exact one, if there is an exact one. */
  lemma {:induction false} BestIsOldestExact(x: Text, accounts: seq<Account>, handle: string)
    requires Normalize(x, handle) != [] && Collect(ExactBy(x, handle), accounts) != []
    ensures
      var ranked := Ranking(x, Collect(PrefixBy(x, handle), accounts), handle);
      && ranked != [] && ranked[0].exact
      && ranked[0].address == Sort(AgeLeq, Collect(ExactBy(x, handle), accounts))[0].address
      && ranked[0] in Collect(Marking(x, handle), Collect(PrefixBy(x, handle), accounts))
  {
    var exacts := Collect(ExactBy(x, handle), accounts);
    var marked := Collect(Marking(x, handle), Collect(PrefixBy(x, handle), accounts));
    Orders();
    var w := Sort(AgeLeq, exacts)[0];
    assert w in multiset(exacts);
    var r := ExactIsRanked(x, accounts, handle, w);
    FirstLeast(RankLeq, marked, r);
    var first := Sort(RankLeq, marked)[0];
    assert first in multiset(marked);
    RankedIsExact(x, accounts, handle, first);
    FirstLeast(AgeLeq, exacts, Found(first.address, first.time));
    ElderTotal(first.time, first.address, w.time, w.address);
  }

  lemma {:induction false} NoneMarked(x: Text, accounts: seq<Account>, handle: string, i: nat)
    requires Collect(ExactBy(x, handle), accounts) == []
    requires i < |Ranking(x, Collect(PrefixBy(x, handle), accounts), handle)|
    ensures !Ranking(x, Collect(PrefixBy(x, handle), accounts), handle)[i].exact
  {
    var marked := Collect(Marking(x, handle), Collect(PrefixBy(x, handle), accounts));
    var r := Sort(RankLeq, marked)[i];
    assert r in multiset(marked);
    if r.exact { RankedIsExact(x, accounts, handle, r); }
  }

  predicate Registered(a: Account, address: string, handle: string) {
    a.address == address && Field(a.localState, "Handle") == Some(handle)
  }

  lemma SearchShows(x: Text, accounts: seq<Account>, prefix: string, limit: nat)
    ensures
      var found, ranked := Search(x, accounts, prefix, limit), Ranking(x, Collect(PrefixBy(x, prefix), accounts), prefix);
      |found| == (if |ranked| < limit then |ranked| else limit) && forall i | 0 <= i < |found| :: found[i] == Shown(ranked[i])
  {
  }

  /** For a handle with something left to compare, the account the exact lookup finds is the first
      search result and is marked exact, with its handle as registered. */
  lemma {:induction false} LookupLeadsSearch(x: Text, accounts: seq<Account>, handle: string, limit: nat) returns (a: Account)
    requires Normalize(x, handle) != [] && limit > 0
    requires Lookup(x, accounts, handle).Some?
    ensures
      var found := Search(x, accounts, handle, limit);
      && found != [] && found[0].0 == Lookup(x, accounts, handle).value && found[0].2
      && a in accounts && Registered(a, found[0].0, found[0].1)
  {
    var ranked, found := Ranking(x, Collect(PrefixBy(x, handle), accounts), handle), Search(x, accounts, handle, limit);
    BestIsOldestExact(x, accounts, handle);
    a := RankedFrom(x, accounts, handle, ranked[0]);
    SearchShows(x, accounts, handle, limit);
    assert found[0] == Shown(ranked[0]);
  }

  /** And when the exact lookup finds nothing, no search result is marked exact. */
  lemma {:induction false} NoLookupNoneExact(x: Text, accounts: seq<Account>, handle: string, limit: nat, i: nat)
    requires Lookup(x, accounts, handle).None?
    requires i < |Search(x, accounts, handle, limit)|
    ensures !Search(x, accounts, handle, limit)[i].2
  {
    SearchShows(x, accounts, handle, limit);
    NoneMarked(x, accounts, handle, i);
  }

  /** A handle with nothing left to compare is never found by the search. */
  lemma EmptyPrefixFindsNothing(x: Text, accounts: seq<Account>, prefix: string, limit: nat)
    requires Normalize(x, prefix) == []
    ensures Search(x, accounts, prefix, limit) == []
  {
    var matches := Collect(PrefixBy(x, prefix), accounts);
    if matches != [] {
      CollectIn(PrefixBy(x, prefix), accounts, matches[0]);
    }
  }
}
