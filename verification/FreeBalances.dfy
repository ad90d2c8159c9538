/** Per-token balances and the set of active apps, and their plain form held in the app state. */
module FreeBalances {
  import opened OrderedMaps
  import opened Models

  type CoinTransferMap = Entries<Address, int>
  type TokenIndexedCoinTransferMap = Entries<Token, CoinTransferMap>

  datatype FreeBalance = FreeBalance(
    activeApps: seq<AppIdHash>,
    balances: Entries<Token, seq<CoinTransfer>>)

  function AsEntries(list: seq<CoinTransfer>): (s: seq<(Address, int)>)
    ensures |s| == |list| && forall i :: 0 <= i < |s| ==> s[i] == (list[i].to, list[i].amount)
  {
    seq(|list|, i requires 0 <= i < |list| => (list[i].to, list[i].amount))
  }

  function ToMap(list: seq<CoinTransfer>): (m: CoinTransferMap)
    ensures Unique(m)
  {
    FromEntries(AsEntries(list))
  }

  function ToList(m: CoinTransferMap): (s: seq<CoinTransfer>)
    ensures |s| == |m| && forall i :: 0 <= i < |m| ==> s[i] == CoinTransfer(m[i].0, m[i].1)
  {
    seq(|m|, i requires 0 <= i < |m| => CoinTransfer(m[i].0, m[i].1))
  }

  predicate UniqueRecipients(list: seq<CoinTransfer>) {
    forall i, j :: 0 <= i < j < |list| ==> list[i].to != list[j].to
  }

  /** Both conversions between lists and maps keep order, and collapse exactly the repeated recipients. */
  lemma ListMapRoundTrip(list: seq<CoinTransfer>, m: CoinTransferMap)
    ensures ToList(ToMap(list)) == list <==> UniqueRecipients(list)
    ensures Unique(m) ==> UniqueRecipients(ToList(m)) && ToMap(ToList(m)) == m
  {
    if UniqueRecipients(list) {
      FromEntriesOfUnique(AsEntries(list));
    }
    if Unique(m) {
      assert AsEntries(ToList(m)) == m;
      FromEntriesOfUnique(m);
    }
  }

  /** Base keys in order, then the new keys of the increments; missing amounts count as zero. */
  function Merge(base: CoinTransferMap, increments: CoinTransferMap): (r: CoinTransferMap)
    ensures Unique(base) ==> Unique(r)
  {
    if increments == [] then base else
      var (k, v) := increments[|increments| - 1];
      var m := Merge(base, increments[..|increments| - 1]);
      Set(m, k, GetOr(m, k, 0) + v)
  }

  function Flip(m: CoinTransferMap): (r: CoinTransferMap)
    ensures |r| == |m| && forall i :: 0 <= i < |m| ==> r[i] == (m[i].0, -m[i].1)
  {
    seq(|m|, i requires 0 <= i < |m| => (m[i].0, -m[i].1))
  }

  function FlipTokenIndexed(m: TokenIndexedCoinTransferMap): (r: TokenIndexedCoinTransferMap)
    ensures |r| == |m| && forall i :: 0 <= i < |m| ==> r[i] == (m[i].0, Flip(m[i].1))
  {
    seq(|m|, i requires 0 <= i < |m| => (m[i].0, Flip(m[i].1)))
  }

  predicate AllNonNegative(m: CoinTransferMap) {
    forall i :: 0 <= i < |m| ==> m[i].1 >= 0
  }

  function IncrementToken(fb: FreeBalance, token: Token, increments: CoinTransferMap): Result<FreeBalance> {
    var t2 := Merge(ToMap(GetOr(fb.balances, token, [])), increments);
    if AllNonNegative(t2) then Ok(fb.(balances := Set(fb.balances, token, ToList(t2)))) else Err(NegativeBalance)
  }

  function Incremented(fb: FreeBalance, increments: TokenIndexedCoinTransferMap): Result<FreeBalance> {
    if increments == [] then Ok(fb) else
      var prev :- Incremented(fb, increments[..|increments| - 1]);
      IncrementToken(prev, increments[|increments| - 1].0, increments[|increments| - 1].1)
  }

  function AddActive(active: seq<AppIdHash>, app: AppIdHash): seq<AppIdHash> {
    if app in active then active else active + [app]
  }

  function RemoveActive(active: seq<AppIdHash>, app: AppIdHash): seq<AppIdHash> {
    if active == [] then []
    else if active[0] == app then active[1..]
    else [active[0]] + RemoveActive(active[1..], app)
  }

  function DistinctKeys(s: seq<AppIdHash>): (r: seq<AppIdHash>)
    ensures Distinct(r)
  {
    if s == [] then [] else AddActive(DistinctKeys(s[..|s| - 1]), s[|s| - 1])
  }

  function Deserialize(env: Environment, json: FreeBalanceJson): Result<FreeBalance> {
    if |json.balances| < |json.tokenAddresses| then Err(FreeBalanceCorrupt)
    else Ok(FreeBalance(DistinctKeys(json.activeApps), FromEntries(TokenEntries(env, json))))
  }

  /** A token without a list of balances makes reading throw; lists without a token are ignored. */
  lemma ReadsAsManyListsAsTokens(env: Environment, json: FreeBalanceJson, extra: seq<seq<CoinTransfer>>)
    ensures Deserialize(env, json).Ok? <==> |json.tokenAddresses| <= |json.balances|
    ensures Deserialize(env, json).Ok? ==> Deserialize(env, json.(balances := json.balances + extra)) == Deserialize(env, json)
  {
    if |json.tokenAddresses| <= |json.balances| {
      assert TokenEntries(env, json.(balances := json.balances + extra)) == TokenEntries(env, json);
    }
  }

  /** Reading lists every active app once, and a list without repeats as it is. */
  lemma ReadsActiveAppsOnce(env: Environment, json: FreeBalanceJson, h: AppIdHash)
    requires Deserialize(env, json).Ok?
    ensures var active := Deserialize(env, json).value.activeApps;
            && Distinct(active) && (h in active <==> h in json.activeApps)
            && (Distinct(json.activeApps) ==> active == json.activeApps)
  {
    DistinctKeysMembers(json.activeApps, h);
    if Distinct(json.activeApps) { DistinctKeysOfDistinct(json.activeApps); }
  }

  lemma {:induction false} DistinctKeysMembers(s: seq<AppIdHash>, h: AppIdHash)
    ensures h in DistinctKeys(s) <==> h in s
  {
    if s != [] {
      DistinctKeysMembers(s[..|s| - 1], h);
      assert s == s[..|s| - 1] + [s[|s| - 1]];
    }
  }

  function TokenEntries(env: Environment, json: FreeBalanceJson): (s: seq<(Token, seq<CoinTransfer>)>)
    requires |json.tokenAddresses| <= |json.balances|
    ensures |s| == |json.tokenAddresses|
    ensures forall i :: 0 <= i < |s| ==> s[i] == (env.checksum(json.tokenAddresses[i]), json.balances[i])
  {
    seq(|json.tokenAddresses|,
        i requires 0 <= i < |json.tokenAddresses| => (env.checksum(json.tokenAddresses[i]), json.balances[i]))
  }

  function Serialize(fb: FreeBalance): FreeBalanceJson {
    FreeBalanceJson(Keys(fb.balances), Values(fb.balances), fb.activeApps)
  }

  /** What a JavaScript object can be: no key twice. */
  predicate NoRepeats(fb: FreeBalance) {
    Unique(fb.balances) && Distinct(fb.activeApps)
  }

  predicate Checksummed(env: Environment, fb: FreeBalance) {
    forall i :: 0 <= i < |fb.balances| ==> env.checksum(fb.balances[i].0) == fb.balances[i].0
  }

  predicate ListsUnique(fb: FreeBalance) {
    forall i :: 0 <= i < |fb.balances| ==> UniqueRecipients(fb.balances[i].1)
  }

  predicate NonNegative(fb: FreeBalance) {
    forall i :: 0 <= i < |fb.balances| ==> AllNonNegative(AsEntries(fb.balances[i].1))
  }

  /** The free balances that direct channels hold. */
  predicate Canonical(env: Environment, fb: FreeBalance) {
    NoRepeats(fb) && Checksummed(env, fb) && ListsUnique(fb) && NonNegative(fb)
  }

  lemma {:induction false} DistinctKeysOfDistinct(s: seq<AppIdHash>)
    requires Distinct(s)
    ensures DistinctKeys(s) == s
  {
    if s != [] {
      var p, last := s[..|s| - 1], s[|s| - 1];
      DistinctKeysOfDistinct(p);
      assert last !in p;
      assert s == p + [last];
    }
  }

  /**
   Reading back what was written gives the same active apps and the same ordered balances exactly
   when every token key is already in checksummed form.
   */
  lemma SerializationRoundTrip(env: Environment, fb: FreeBalance)
    requires NoRepeats(fb)
    ensures Deserialize(env, Serialize(fb)) == Ok(fb) <==> Checksummed(env, fb)
  {
    DistinctKeysOfDistinct(fb.activeApps);
    var s := TokenEntries(env, Serialize(fb));
    if Checksummed(env, fb) {
      assert s == fb.balances;
      FromEntriesOfUnique(s);
    } else if FromEntries(s) == fb.balances {
      forall i | 0 <= i < |s| ensures fb.balances[i].0 == env.checksum(fb.balances[i].0) {
        FromEntriesFullLength(s, i);
      }
    }
  }

  /** A map built from `s` that is as long as `s` has the keys of `s` in order. */
  lemma {:induction false} FromEntriesFullLength<K, V>(s: seq<(K, V)>, i: nat)
    requires |FromEntries(s)| == |s| && i < |s|
    ensures FromEntries(s)[i].0 == s[i].0
  {
    var p := s[..|s| - 1];
    FromEntriesLength(p);
    assert |FromEntries(p)| == |p|;
    if i < |p| {
      FromEntriesFullLength(p, i);
    }
  }

  lemma {:induction false} FromEntriesLength<K, V>(s: seq<(K, V)>)
    ensures |FromEntries(s)| <= |s|
  {
    if s != [] {
      FromEntriesLength(s[..|s| - 1]);
    }
  }

  function Balance(fb: FreeBalance, token: Token, owner: Address): int {
    GetOr(ToMap(GetOr(fb.balances, token, [])), owner, 0)
  }

  function Held(fb: FreeBalance, token: Token): int {
    Total(ToMap(GetOr(fb.balances, token, [])))
  }

  function Amount(increments: TokenIndexedCoinTransferMap, token: Token, owner: Address): int {
    GetOr(GetOr(increments, token, []), owner, 0)
  }

  function Sum(increments: TokenIndexedCoinTransferMap, token: Token): int {
    Total(GetOr(increments, token, []))
  }

  predicate UniqueIncrements(increments: TokenIndexedCoinTransferMap) {
    Unique(increments) && forall i :: 0 <= i < |increments| ==> Unique(increments[i].1)
  }

  lemma AddsLast(m: CoinTransferMap, p: CoinTransferMap, l: (Address, int), k: Address)
    requires !Has(p, l.0)
    ensures GetOr(Set(m, l.0, GetOr(m, l.0, 0) + l.1), k, 0) - GetOr(m, k, 0)
         == GetOr(Set(p, l.0, l.1), k, 0) - GetOr(p, k, 0)
  {
    GetOrSet(m, l.0, GetOr(m, l.0, 0) + l.1, k, 0);
    GetOrSet(p, l.0, l.1, k, 0);
  }

  lemma {:induction false} MergeAdds(base: CoinTransferMap, increments: CoinTransferMap, k: Address)
    requires Unique(increments)
    ensures GetOr(Merge(base, increments), k, 0) == GetOr(base, k, 0) + GetOr(increments, k, 0)
  {
    if increments == [] {
      assert !Has(increments, k);
    } else {
      var n := |increments| - 1;
      SplitLast(increments);
      MergeAdds(base, increments[..n], k);
      AddsLast(Merge(base, increments[..n]), increments[..n], increments[n], k);
    }
  }

  lemma {:induction false} MergeTotal(base: CoinTransferMap, increments: CoinTransferMap)
    ensures Total(Merge(base, increments)) == Total(base) + Total(increments)
  {
    if increments != [] {
      var n := |increments| - 1;
      var p, l := increments[..n], increments[n];
      MergeTotal(base, p);
      var m := Merge(base, p);
      TotalSet(m, l.0, GetOr(m, l.0, 0) + l.1);
      assert increments == p + [l];
      TotalAppend(p, [l]);
      assert [l][1..] == [];
    }
  }

  lemma FlipNegates(m: CoinTransferMap, k: Address)
    ensures GetOr(Flip(m), k, 0) == -GetOr(m, k, 0)
    ensures Has(Flip(m), k) <==> Has(m, k)
    ensures Unique(m) ==> Unique(Flip(m))
  {
    var i := IndexOf(m, k);
    if i < |m| {
      IndexIs(Flip(m), k, i);
    }
  }

  lemma {:induction false} FlipTotal(m: CoinTransferMap)
    ensures Total(Flip(m)) == -Total(m)
  {
    if m != [] {
      FlipTotal(m[1..]);
      assert Flip(m)[1..] == Flip(m[1..]);
    }
  }

  lemma FlipTokens(m: TokenIndexedCoinTransferMap, token: Token, owner: Address)
    ensures Amount(FlipTokenIndexed(m), token, owner) == -Amount(m, token, owner)
    ensures Sum(FlipTokenIndexed(m), token) == -Sum(m, token)
    ensures Keys(FlipTokenIndexed(m)) == Keys(m)
  {
    var f, i := FlipTokenIndexed(m), IndexOf(m, token);
    if i < |m| {
      IndexIs(f, token, i);
      FlipNegates(m[i].1, owner);
      FlipTotal(m[i].1);
    } else {
      assert !Has(f, token);
    }
  }

  lemma FlipUnique(m: TokenIndexedCoinTransferMap)
    requires UniqueIncrements(m)
    ensures UniqueIncrements(FlipTokenIndexed(m))
  {
    forall i | 0 <= i < |m| ensures Unique(Flip(m[i].1)) {
      FlipNegates(m[i].1, 0);
    }
  }

  lemma IncrementTokenEffect(fb: FreeBalance, token: Token, increments: CoinTransferMap, t: Token, owner: Address)
    requires Unique(increments)
    requires IncrementToken(fb, token, increments).Ok?
    ensures var r := IncrementToken(fb, token, increments).value;
            && Balance(r, t, owner) == Balance(fb, t, owner) + (if t == token then GetOr(increments, owner, 0) else 0)
            && Held(r, t) == Held(fb, t) + (if t == token then Total(increments) else 0)
            && (Has(r.balances, t) <==> t == token || Has(fb.balances, t))
  {
    var base := ToMap(GetOr(fb.balances, token, []));
    var t2 := Merge(base, increments);
    SetGet(fb.balances, token, ToList(t2), t);
    ListMapRoundTrip([], t2);
    MergeAdds(base, increments, owner);
    MergeTotal(base, increments);
  }

  lemma IncrementTokenKeepsCanonical(env: Environment, fb: FreeBalance, token: Token, increments: CoinTransferMap)
    requires Canonical(env, fb) && env.checksum(token) == token
    requires IncrementToken(fb, token, increments).Ok?
    ensures Canonical(env, IncrementToken(fb, token, increments).value)
    ensures IncrementToken(fb, token, increments).value.activeApps == fb.activeApps
  {
    var t2 := Merge(ToMap(GetOr(fb.balances, token, [])), increments);
    ListMapRoundTrip([], t2);
    assert AsEntries(ToList(t2)) == t2;
  }

  /** One call to `increment` adds every increment to its balance, and nothing else changes. */
  lemma {:induction false} IncrementEffect(fb: FreeBalance, increments: TokenIndexedCoinTransferMap, t: Token, owner: Address)
    requires UniqueIncrements(increments)
    requires Incremented(fb, increments).Ok?
    ensures var r := Incremented(fb, increments).value;
            && Balance(r, t, owner) == Balance(fb, t, owner) + Amount(increments, t, owner)
            && Held(r, t) == Held(fb, t) + Sum(increments, t)
            && (Has(r.balances, t) <==> Has(increments, t) || Has(fb.balances, t))
            && r.activeApps == fb.activeApps
  {
    if increments != [] {
      var n := |increments| - 1;
      var p, l := increments[..n], increments[n];
      IncrementEffect(fb, p, t, owner);
      IncrementTokenEffect(Incremented(fb, p).value, l.0, l.1, t, owner);
      SplitLast(increments);
      SetGet(p, l.0, l.1, t);
    }
  }

  predicate ChecksummedIncrements(env: Environment, increments: TokenIndexedCoinTransferMap) {
    forall i :: 0 <= i < |increments| ==> env.checksum(increments[i].0) == increments[i].0
  }

  lemma {:induction false} IncrementKeepsCanonical(env: Environment, fb: FreeBalance, increments: TokenIndexedCoinTransferMap)
    requires Canonical(env, fb) && ChecksummedIncrements(env, increments)
    requires Incremented(fb, increments).Ok?
    ensures Canonical(env, Incremented(fb, increments).value)
  {
    if increments != [] {
      var n := |increments| - 1;
      IncrementKeepsCanonical(env, fb, increments[..n]);
      IncrementTokenKeepsCanonical(env, Incremented(fb, increments[..n]).value, increments[n].0, increments[n].1);
    }
  }

  lemma BalanceNonNegative(env: Environment, fb: FreeBalance, t: Token, owner: Address)
    requires Canonical(env, fb)
    ensures Balance(fb, t, owner) >= 0
  {
    if Has(fb.balances, t) {
      var list := Get(fb.balances, t);
      ListMapRoundTrip(list, []);
      assert UniqueRecipients(list) && AllNonNegative(AsEntries(list));
      FromEntriesOfUnique(AsEntries(list));
    }
  }

  /** `increment` succeeds exactly when no account would be overdrawn. */
  ghost predicate Covers(fb: FreeBalance, increments: TokenIndexedCoinTransferMap) {
    forall t, a {:trigger Balance(fb, t, a)} :: Balance(fb, t, a) + Amount(increments, t, a) >= 0
  }

  lemma {:induction false} IncrementSucceedsIff(env: Environment, fb: FreeBalance, increments: TokenIndexedCoinTransferMap)
    requires Canonical(env, fb) && UniqueIncrements(increments) && ChecksummedIncrements(env, increments)
    ensures Incremented(fb, increments).Ok? <==> Covers(fb, increments)
  {
    if Incremented(fb, increments).Ok? {
      IncrementKeepsCanonical(env, fb, increments);
      forall t, a ensures Balance(fb, t, a) + Amount(increments, t, a) >= 0 {
        IncrementEffect(fb, increments, t, a);
        BalanceNonNegative(env, Incremented(fb, increments).value, t, a);
      }
    } else {
      FailureUncovers(env, fb, increments);
    }
  }

  lemma {:induction false} FailureUncovers(env: Environment, fb: FreeBalance, increments: TokenIndexedCoinTransferMap)
    requires Canonical(env, fb) && UniqueIncrements(increments) && ChecksummedIncrements(env, increments)
    requires Incremented(fb, increments).Err?
    ensures exists t, a :: Balance(fb, t, a) + Amount(increments, t, a) < 0
  {
    var n := |increments| - 1;
    var p, l := increments[..n], increments[n];
    SplitLast(increments);
    if Incremented(fb, p).Err? {
      FailureUncovers(env, fb, p);
      var t, a :| Balance(fb, t, a) + Amount(p, t, a) < 0;
      SetGet(p, l.0, l.1, t);
      BalanceNonNegative(env, fb, t, a);
      assert Balance(fb, t, a) + Amount(increments, t, a) < 0;
    } else {
      var prev := Incremented(fb, p).value;
      var base := ToMap(GetOr(prev.balances, l.0, []));
      var t2 := Merge(base, l.1);
      var i :| 0 <= i < |t2| && t2[i].1 < 0;
      var a := t2[i].0;
      HasAt(t2, i);
      MergeAdds(base, l.1, a);
      IncrementEffect(fb, p, l.0, a);
      SetGet(p, l.0, l.1, l.0);
      assert Balance(fb, l.0, a) + Amount(increments, l.0, a) < 0;
    }
  }

  lemma ActiveSets(active: seq<AppIdHash>, app: AppIdHash, other: AppIdHash)
    requires Distinct(active)
    ensures Distinct(AddActive(active, app))
    ensures other in AddActive(active, app) <==> other == app || other in active
    ensures Distinct(RemoveActive(active, app))
    ensures other in RemoveActive(active, app) <==> other != app && other in active
    ensures app !in active ==> RemoveActive(active, app) == active && RemoveActive(AddActive(active, app), app) == active
  {
    RemoveActiveMembers(active, app);
    if app !in active {
      RemoveActiveMembers(active + [app], app);
      RemoveLast(active, app);
    }
  }

  /** The order of the active apps, which is signed, is the order of their activation. */
  lemma {:induction false} ActiveAppsKeepTheirOrder(before: seq<AppIdHash>, app: AppIdHash, after: seq<AppIdHash>)
    requires app !in before
    ensures RemoveActive(before + [app] + after, app) == before + after
    ensures AddActive(before, app) == before + [app] && AddActive(before + [app] + after, app) == before + [app] + after
  {
    if before == [] {
      assert ([] + [app] + after)[1..] == after;
    } else {
      ActiveAppsKeepTheirOrder(before[1..], app, after);
      assert (before + [app] + after)[1..] == before[1..] + [app] + after;
    }
  }

  lemma {:induction false} RemoveActiveMembers(active: seq<AppIdHash>, app: AppIdHash)
    requires Distinct(active)
    ensures Distinct(RemoveActive(active, app))
    ensures forall h :: h in RemoveActive(active, app) <==> h != app && h in active
    ensures app !in active ==> RemoveActive(active, app) == active
  {
    if active != [] {
      RemoveActiveMembers(active[1..], app);
      var r := RemoveActive(active[1..], app);
      assert active[0] !in active[1..];
      assert active[0] !in r;
      assert forall h :: h in active <==> h == active[0] || h in active[1..];
    }
  }

  lemma {:induction false} RemoveLast(active: seq<AppIdHash>, app: AppIdHash)
    requires app !in active
    ensures RemoveActive(active + [app], app) == active
  {
    if active != [] {
      assert (active + [app])[1..] == active[1..] + [app];
      RemoveLast(active[1..], app);
    }
  }

  lemma {:induction false} IncrementFailsOnPrefix(fb: FreeBalance, increments: TokenIndexedCoinTransferMap, n: nat)
    requires n <= |increments| && Incremented(fb, increments[..n]).Err?
    ensures Incremented(fb, increments).Err?
  {
    if n < |increments| {
      var p := increments[..|increments| - 1];
      assert p[..n] == increments[..n];
      IncrementFailsOnPrefix(fb, p, n);
    } else {
      assert increments[..n] == increments;
    }
  }
  /** The amounts of one token after the `n`-th increment. */
  function Merged(now: FreeBalance, increment: (Token, CoinTransferMap)): CoinTransferMap {
    Merge(ToMap(GetOr(now.balances, increment.0, [])), increment.1)
  }

  lemma IncrementNext(fb: FreeBalance, increments: TokenIndexedCoinTransferMap, n: nat, now: FreeBalance)
    requires n < |increments| && Incremented(fb, increments[..n]) == Ok(now) && AllNonNegative(Merged(now, increments[n]))
    ensures Incremented(fb, increments[..n + 1])
         == Ok(now.(balances := Set(now.balances, increments[n].0, ToList(Merged(now, increments[n])))))
  {
    assert increments[..n + 1][..n] == increments[..n];
  }

  lemma IncrementThrows(fb: FreeBalance, increments: TokenIndexedCoinTransferMap, n: nat, now: FreeBalance)
    requires n < |increments| && Incremented(fb, increments[..n]) == Ok(now) && !AllNonNegative(Merged(now, increments[n]))
    ensures Incremented(fb, increments).Err? && IncrementToken(now, increments[n].0, increments[n].1).Err?
  {
    assert increments[..n + 1][..n] == increments[..n];
    IncrementFailsOnPrefix(fb, increments, n + 1);
  }


  /** The mutable object the engine reads a free balance into before changing it. */
  class FreeBalanceClass {
    var activeAppsMap: seq<AppIdHash>
    var balancesIndexedByToken: Entries<Token, seq<CoinTransfer>>

    ghost function Value(): FreeBalance
      reads this
    {
      FreeBalance(activeAppsMap, balancesIndexedByToken)
    }

    constructor (fb: FreeBalance)
      ensures Value() == fb
    {
      activeAppsMap, balancesIndexedByToken := fb.activeApps, fb.balances;
    }

    /** The loop that looks for an amount below zero. */
    static method HasNegative(m: CoinTransferMap) returns (found: bool)
      ensures found <==> !AllNonNegative(m)
    {
      for i := 0 to |m|
        invariant AllNonNegative(m[..i])
      {
        if m[i].1 < 0 {
          return true;
        }
      }
      assert m[..|m|] == m;
      return false;
    }

    /**
     Writes token by token. When a balance would go negative it stops there: the tokens before the
     failing one stay written in this object.
     */
    method Increment(increments: TokenIndexedCoinTransferMap) returns (thrown: bool)
      modifies this
      ensures !thrown ==> Incremented(old(Value()), increments) == Ok(Value())
      ensures thrown ==>
                && Incremented(old(Value()), increments).Err?
                && exists n :: 0 <= n < |increments|
                     && Incremented(old(Value()), increments[..n]) == Ok(Value())
                     && IncrementToken(Value(), increments[n].0, increments[n].1).Err?
    {
      ghost var start := Value();
      for i := 0 to |increments|
        invariant Incremented(start, increments[..i]) == Ok(Value())
      {
        ghost var now := Value();
        var token := increments[i].0;
        var t2 := Merge(ToMap(GetOr(balancesIndexedByToken, token, [])), increments[i].1);
        assert t2 == Merged(now, increments[i]);
        var negative := HasNegative(t2);
        if negative {
          IncrementThrows(start, increments, i, now);
          return true;
        }
        IncrementNext(start, increments, i, now);
        balancesIndexedByToken := Set(balancesIndexedByToken, token, ToList(t2));
      }
      assert increments[..|increments|] == increments;
      return false;
    }

    method AddActiveApp(activeApp: AppIdHash)
      modifies this`activeAppsMap
      ensures activeAppsMap == AddActive(old(activeAppsMap), activeApp)
    {
      if activeApp !in activeAppsMap {
        activeAppsMap := activeAppsMap + [activeApp];
      }
    }

    method RemoveActiveApp(activeApp: AppIdHash)
      modifies this`activeAppsMap
      ensures activeAppsMap == RemoveActive(old(activeAppsMap), activeApp)
    {
      activeAppsMap := RemoveActive(activeAppsMap, activeApp);
    }

    method ToAppInstance(oldAppInstance: AppInstance) returns (r: Result<AppInstance>)
      ensures r == oldAppInstance.SetState(FreeBalanceState(Serialize(Value())))
    {
      r := oldAppInstance.SetState(
        FreeBalanceState(Serialize(FreeBalance(activeAppsMap, balancesIndexedByToken))));
    }
  }
}
