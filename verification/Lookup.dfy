/**
 Orders that must not matter: of extended keys when addresses are derived, of signatures when a
 transaction is assembled, and of the owners when a channel is looked up in the store.
 */
module Lookup {
  import opened OrderedMaps
  import Sorting
  import opened Models
  import opened FreeBalances
  import opened StateChannels
  import opened Protocols

  // ---- Derived addresses ----------------------------------------------------------------------

  lemma KthOfInsert(env: Environment, u: seq<Xpub>, x: Xpub, v: seq<Xpub>, k: nat)
    ensures multiset(env.KthAddresses(u + [x] + v, k)) == multiset(env.KthAddresses(u + v, k)) + multiset{env.kth(x, k)}
  {
    assert env.KthAddresses(u + v, k) == env.KthAddresses(u, k) + env.KthAddresses(v, k);
    assert env.KthAddresses(u + [x] + v, k) == env.KthAddresses(u, k) + [env.kth(x, k)] + env.KthAddresses(v, k);
  }

  lemma Without(u: seq<Xpub>, x: Xpub, v: seq<Xpub>)
    ensures multiset(u + v) == multiset(u + [x] + v) - multiset{x}
  {
  }

  lemma RemoveFromBoth(a: seq<Xpub>, b: seq<Xpub>) returns (u: seq<Xpub>, v: seq<Xpub>)
    requires a != [] && multiset(a) == multiset(b)
    ensures b == u + [a[0]] + v && multiset(a[1..]) == multiset(u + v)
  {
    assert a[0] in multiset(b);
    var i :| 0 <= i < |b| && b[i] == a[0];
    u, v := b[..i], b[i + 1..];
    assert b == u + [b[i]] + v;
    Sorting.TailMultiset(a);
    Without(u, b[i], v);
  }

  lemma {:induction false} KthOfPermutation(env: Environment, a: seq<Xpub>, b: seq<Xpub>, k: nat)
    requires multiset(a) == multiset(b)
    ensures multiset(env.KthAddresses(a, k)) == multiset(env.KthAddresses(b, k))
  {
    assert |a| == |multiset(a)| == |multiset(b)| == |b|;
    if a != [] {
      var u, v := RemoveFromBoth(a, b);
      KthOfPermutation(env, a[1..], u + v, k);
      KthOfInsert(env, u, a[0], v, k);
      KthOfInsert(env, [], a[0], a[1..], k);
      assert [] + [a[0]] + a[1..] == a && [] + a[1..] == a[1..];
    }
  }

  /** The signing keys for a number are the addresses derived for it, one for each extended key, in ascending order. */
  lemma SigningKeysAre(env: Environment, xpubs: seq<Xpub>, k: nat, a: Address)
    ensures var keys := env.SortedKthAddresses(xpubs, k);
            && |keys| == |xpubs| && Sorting.Sorted(env.rank, keys)
            && (a in keys <==> exists x :: x in xpubs && env.kth(x, k) == a)
  {
    var derived, keys := env.KthAddresses(xpubs, k), env.SortedKthAddresses(xpubs, k);
    Sorting.SortSorts(env.rank, derived);
    assert a in keys <==> a in multiset(keys);
    assert a in derived <==> a in multiset(derived);
    if a in derived {
      var i :| 0 <= i < |derived| && derived[i] == a;
      assert xpubs[i] in xpubs;
    }
    if x :| x in xpubs && env.kth(x, k) == a {
      var i :| 0 <= i < |xpubs| && xpubs[i] == x;
      assert derived[i] == a;
    }
  }

  /** Owners, signing keys and so participants and identity hashes do not depend on the order of the keys. */
  lemma SigningKeysIgnoreOrder(env: Environment, a: seq<Xpub>, b: seq<Xpub>, k: nat)
    requires multiset(a) == multiset(b) && Sorting.Separates(env.rank, env.KthAddresses(a, k))
    ensures env.SortedKthAddresses(a, k) == env.SortedKthAddresses(b, k)
  {
    KthOfPermutation(env, a, b, k);
    Sorting.SeparatedIsOrderIndependent(env.rank, env.KthAddresses(a, k), env.KthAddresses(b, k));
  }

  /** For two parties: exactly when their addresses are equal or parse to different numbers. */
  lemma TwoPartyKeysIgnoreOrderIff(env: Environment, x: Xpub, y: Xpub, k: nat)
    ensures env.SortedKthAddresses([x, y], k) == env.SortedKthAddresses([y, x], k)
            <==> env.kth(x, k) == env.kth(y, k) || env.rank(env.kth(x, k)) != env.rank(env.kth(y, k))
  {
    var a, b := env.kth(x, k), env.kth(y, k);
    assert env.KthAddresses([x, y], k) == [a, b] && env.KthAddresses([y, x], k) == [b, a];
    SortedPair(env.rank, a, b);
    SortedPair(env.rank, b, a);
  }

  lemma SortedPair<T>(key: T -> int, a: T, b: T)
    ensures Sorting.SortBy(key, [a, b]) == if key(a) <= key(b) then [a, b] else [b, a]
  {
    assert [a, b][1..] == [b] && [b][1..] == [];
    assert Sorting.SortBy(key, [b]) == Sorting.Insert(key, b, []) == [b];
    assert Sorting.SortBy(key, [a, b]) == Sorting.Insert(key, a, [b]);
    assert Sorting.Insert(key, a, []) == [a];
  }

  /** Everything a channel derives from its keys is the same for a channel whose keys are listed otherwise. */
  lemma ChannelIgnoresKeyOrder(env: Environment, c: StateChannel, xpubs: seq<Xpub>, k: nat)
    requires env.Valid() && multiset(xpubs) == multiset(c.xpubs)
    ensures var d := c.(xpubs := xpubs);
            && d.SigningKeysFor(env, k) == c.SigningKeysFor(env, k) && d.MultisigOwners(env) == c.MultisigOwners(env)
            && d.NextSigningKeys(env) == c.NextSigningKeys(env)
            && AppIdHash(k, d.SigningKeysFor(env, k)) == AppIdHash(k, c.SigningKeysFor(env, k))
  {
    SigningKeysIgnoreOrder(env, c.xpubs, xpubs, k);
    SigningKeysIgnoreOrder(env, c.xpubs, xpubs, 0);
    SigningKeysIgnoreOrder(env, c.xpubs, xpubs, c.numProposedApps);
  }

  /** The same channel, except that its extended keys may be listed in another order. */
  predicate Alike(c: StateChannel, d: StateChannel) {
    multiset(c.xpubs) == multiset(d.xpubs) && d == c.(xpubs := d.xpubs)
  }

  /** Nothing a channel does to its free balance reads its list of keys. */
  lemma SetFreeBalanceIgnoresKeys(env: Environment, c: StateChannel, keys: seq<Xpub>, fb: FreeBalance)
    ensures c.(xpubs := keys).GetFreeBalance(env) == c.GetFreeBalance(env)
    ensures c.(xpubs := keys).SetFreeBalance(fb) == Rekeyed(c.SetFreeBalance(fb), keys)
  {
  }

  function Rekeyed(r: Result<StateChannel>, keys: seq<Xpub>): Result<StateChannel> {
    match r case Ok(c) => Ok(c.(xpubs := keys)) case Err(e) => Err(e)
  }

  lemma AddActiveIgnoresKeys(env: Environment, c: StateChannel, keys: seq<Xpub>, h: AppIdHash, increments: TokenIndexedCoinTransferMap)
    ensures c.(xpubs := keys).AddActiveAppAndIncrement(env, h, increments) == Rekeyed(c.AddActiveAppAndIncrement(env, h, increments), keys)
  {
    SetFreeBalanceIgnoresKeys(env, c, keys, FreeBalance([], []));
    if c.IncrementFreeBalance(env, increments).Ok? {
      SetFreeBalanceIgnoresKeys(env, c, keys, Incremented(c.GetFreeBalance(env).value, increments).value);
    }
  }

  lemma RemoveActiveIgnoresKeys(env: Environment, c: StateChannel, keys: seq<Xpub>, h: AppIdHash, increments: TokenIndexedCoinTransferMap)
    ensures c.(xpubs := keys).RemoveActiveAppAndIncrement(env, h, increments) == Rekeyed(c.RemoveActiveAppAndIncrement(env, h, increments), keys)
  {
    SetFreeBalanceIgnoresKeys(env, c, keys, FreeBalance([], []));
  }

  lemma InstallAppIgnoresKeys(env: Environment, c: StateChannel, keys: seq<Xpub>, app: AppInstance, decrements: TokenIndexedCoinTransferMap)
    requires env.Valid() && multiset(keys) == multiset(c.xpubs)
    ensures c.(xpubs := keys).InstallApp(env, app, decrements) == Rekeyed(c.InstallApp(env, app, decrements), keys)
  {
    var h := app.IdentityHash();
    var proposals := if Has(c.proposals, h) then c.RemoveProposal(h).proposals else c.proposals;
    SigningKeysIgnoreOrder(env, c.xpubs, keys, app.appSeqNo);
    AddActiveIgnoresKeys(env, c.(apps := Set(c.apps, h, app), proposals := proposals), keys, h, FlipTokenIndexed(decrements));
  }

  lemma UninstallAppIgnoresKeys(env: Environment, c: StateChannel, keys: seq<Xpub>, h: AppIdHash, increments: TokenIndexedCoinTransferMap)
    ensures c.(xpubs := keys).UninstallApp(env, h, increments) == Rekeyed(c.UninstallApp(env, h, increments), keys)
  {
    RemoveActiveIgnoresKeys(env, c.(apps := Delete(c.apps, h)), keys, h, increments);
  }

  // ---- Signed transactions --------------------------------------------------------------------

  /** Recovering the signer of a signature on another digest gives an unrelated address. */
  function Recover(digest: Digest, s: Signature, elsewhere: (Digest, Signature) -> Address): Address {
    if s.digest == digest then s.signer else elsewhere(digest, s)
  }

  datatype SignedTransaction = SignedTransaction(commitment: Digest, signatures: seq<Signature>)

  function GetSignedTransaction(digest: Digest, signatures: seq<Signature>, elsewhere: (Digest, Signature) -> Address): SignedTransaction {
    SignedTransaction(digest, Sorting.SortBy((s: Signature) => Recover(digest, s, elsewhere), signatures))
  }

  ghost predicate OneSignatureEach(digest: Digest, signatures: seq<Signature>) {
    && (forall s :: s in signatures ==> s.digest == digest)
    && (forall s, t :: s in signatures && t in signatures && s.signer == t.signer ==> s == t)
  }

  /** However the signatures were collected, the signed transaction is the same. */
  lemma SignedTransactionIgnoresOrder(digest: Digest, a: seq<Signature>, b: seq<Signature>, elsewhere: (Digest, Signature) -> Address)
    requires OneSignatureEach(digest, a) && multiset(a) == multiset(b)
    ensures GetSignedTransaction(digest, a, elsewhere) == GetSignedTransaction(digest, b, elsewhere)
  {
    Sorting.SeparatedIsOrderIndependent((s: Signature) => Recover(digest, s, elsewhere), a, b);
  }

  /** It carries exactly the signatures that were collected, in ascending order of who signed. */
  lemma SignedTransactionCarriesAll(digest: Digest, signatures: seq<Signature>, elsewhere: (Digest, Signature) -> Address)
    requires OneSignatureEach(digest, signatures)
    ensures var t := GetSignedTransaction(digest, signatures, elsewhere);
            && t.commitment == digest && multiset(t.signatures) == multiset(signatures)
            && forall i, j :: 0 <= i < j < |t.signatures| ==> t.signatures[i].signer <= t.signatures[j].signer
  {
    var key := (s: Signature) => Recover(digest, s, elsewhere);
    var sorted := Sorting.SortBy(key, signatures);
    Sorting.SortSorts(key, signatures);
    forall i, j | 0 <= i < j < |sorted| ensures sorted[i].signer <= sorted[j].signer {
      assert sorted[i] in multiset(signatures) && sorted[j] in multiset(signatures);
      Ordered(key, sorted, i, j);
    }
  }

  lemma {:induction false} Ordered<T>(key: T -> int, s: seq<T>, i: nat, j: nat)
    requires Sorting.Sorted(key, s) && i < j < |s|
    ensures key(s[i]) <= key(s[j])
  {
    if i > 0 {
      Ordered(key, s[1..], i - 1, j - 1);
    } else {
      Sorting.HeadIsLeast(key, s, s[j]);
    }
  }

  /** Initiator and responder list the two signatures in opposite orders and store the same transaction. */
  lemma BothPartiesStoreTheSame(digest: Digest, x: Address, y: Address, elsewhere: (Digest, Signature) -> Address)
    ensures GetSignedTransaction(digest, [Signature(x, digest), Signature(y, digest)], elsewhere)
         == GetSignedTransaction(digest, [Signature(y, digest), Signature(x, digest)], elsewhere)
         == SignedTransaction(digest, if x <= y then [Signature(x, digest), Signature(y, digest)] else [Signature(y, digest), Signature(x, digest)])
  {
    SortedPair((s: Signature) => Recover(digest, s, elsewhere), Signature(x, digest), Signature(y, digest));
    var a, b := Signature(x, digest), Signature(y, digest);
    assert multiset([a, b]) == multiset([b, a]);
    SignedTransactionIgnoresOrder(digest, [a, b], [b, a], elsewhere);
  }

  // ---- The store ------------------------------------------------------------------------------

  function Itself(x: Xpub): int { x }

  /** Sorted key lists are equal exactly when they are permutations of each other. */
  lemma SortedEqualIff(a: seq<Xpub>, b: seq<Xpub>)
    ensures Sorting.SortBy(Itself, a) == Sorting.SortBy(Itself, b) <==> multiset(a) == multiset(b)
  {
    Sorting.SortSorts(Itself, a);
    Sorting.SortSorts(Itself, b);
    if multiset(a) == multiset(b) {
      Sorting.SeparatedIsOrderIndependent(Itself, a, b);
    }
  }

  /** A stored channel, as far as lookup sees it. The array of keys is sorted in place. */
  class ChannelRecord {
    const multisigAddress: Address
    const userNeuteredExtendedKeys: array<Xpub>

    constructor (multisig: Address, keys: array<Xpub>)
      ensures multisigAddress == multisig && userNeuteredExtendedKeys == keys
    {
      multisigAddress, userNeuteredExtendedKeys := multisig, keys;
    }
  }

  /** `Array.prototype.sort()` */
  method Sort(a: array<Xpub>)
    modifies a
    ensures a[..] == Sorting.SortBy(Itself, old(a[..])) && multiset(a[..]) == multiset(old(a[..]))
  {
    var sorted := Sorting.SortBy(Itself, a[..]);
    Sorting.SortSorts(Itself, a[..]);
    forall i | 0 <= i < a.Length {
      a[i] := sorted[i];
    }
    assert a[..] == sorted;
  }

  /** Who owns each stored channel, as a bag of keys. */
  ghost function Owners(channels: seq<ChannelRecord>): (s: seq<multiset<Xpub>>)
    reads set c | c in channels :: c.userNeuteredExtendedKeys
    ensures |s| == |channels| && forall i :: 0 <= i < |s| ==> s[i] == multiset(channels[i].userNeuteredExtendedKeys[..])
  {
    seq(|channels|, i requires 0 <= i < |channels| reads set c | c in channels :: c.userNeuteredExtendedKeys
                    => multiset(channels[i].userNeuteredExtendedKeys[..]))
  }

  /** The position of the first channel that has these owners. */
  ghost function FirstOwned(bags: seq<multiset<Xpub>>, owners: multiset<Xpub>): (n: nat)
    ensures n <= |bags| && (n < |bags| ==> bags[n] == owners)
    ensures forall i :: 0 <= i < n ==> bags[i] != owners
  {
    if bags == [] then 0 else if bags[0] == owners then 0 else 1 + FirstOwned(bags[1..], owners)
  }

  /** Generated multisig addresses, cached by the list of keys as it was passed. */
  class MultisigCache {
    var cache: map<seq<Xpub>, Address>

    ghost predicate Valid(env: Environment)
      reads this
    {
      forall k :: k in cache ==> cache[k] == env.generatedMultisig(env.SortedKthAddresses(k, 0))
    }

    method GetCreate2MultisigAddress(env: Environment, owners: seq<Xpub>) returns (r: Address)
      requires Valid(env)
      modifies this
      ensures Valid(env) && r == env.generatedMultisig(env.SortedKthAddresses(owners, 0))
    {
      if owners !in cache {
        cache := cache[owners := env.generatedMultisig(env.SortedKthAddresses(owners, 0))];
      }
      r := cache[owners];
    }
  }

  /** The search: it sorts the owners and the keys of every channel it visits, in place. */
  method FindOwned(channels: seq<ChannelRecord>, owners: array<Xpub>) returns (n: nat)
    modifies owners, set c | c in channels :: c.userNeuteredExtendedKeys
    ensures n == FirstOwned(old(Owners(channels)), old(multiset(owners[..])))
    ensures multiset(owners[..]) == old(multiset(owners[..])) && Owners(channels) == old(Owners(channels))
  {
    ghost var bags, mine := Owners(channels), multiset(owners[..]);
    n := 0;
    while n < |channels|
      invariant n <= |channels| && multiset(owners[..]) == mine && Owners(channels) == bags
      invariant forall i :: 0 <= i < n ==> bags[i] != mine
    {
      var same := SameOwners(channels, owners, n);
      if same {
        return;
      }
      n := n + 1;
    }
  }

  /**
   Returns the first channel with these owners, whatever order the owners or the channels' keys are in,
   and leaves every key array a permutation of what it was.
   */
  method GetMultisigAddressWithCounterparty(
      env: Environment, channels: seq<ChannelRecord>, owners: array<Xpub>, acceptGeneratedMultisig: bool, cache: MultisigCache)
    returns (r: Result<Address>)
    requires cache.Valid(env)
    modifies owners, cache, set c | c in channels :: c.userNeuteredExtendedKeys
    ensures var n := FirstOwned(old(Owners(channels)), old(multiset(owners[..])));
            r == if n < |channels| then Ok(channels[n].multisigAddress)
                 else if acceptGeneratedMultisig then Ok(env.generatedMultisig(env.SortedKthAddresses(owners[..], 0)))
                 else Err(ChannelMissing)
    ensures multiset(owners[..]) == old(multiset(owners[..])) && Owners(channels) == old(Owners(channels))
  {
    var n := FindOwned(channels, owners);
    if n < |channels| {
      return Ok(channels[n].multisigAddress);
    }
    if acceptGeneratedMultisig {
      var address := cache.GetCreate2MultisigAddress(env, owners[..]);
      return Ok(address);
    }
    return Err(ChannelMissing);
  }

  /** Both lists are sorted in place and compared; it does not matter whether they are the same array. */
  method SameOwners(channels: seq<ChannelRecord>, owners: array<Xpub>, n: nat) returns (same: bool)
    requires n < |channels|
    modifies owners, channels[n].userNeuteredExtendedKeys
    ensures same <==> old(multiset(channels[n].userNeuteredExtendedKeys[..]) == multiset(owners[..]))
    ensures multiset(owners[..]) == old(multiset(owners[..])) && Owners(channels) == old(Owners(channels))
  {
    var keys := channels[n].userNeuteredExtendedKeys;
    Sort(keys);
    Sort(owners);
    SortedEqualIff(old(keys[..]), old(owners[..]));
    same := keys[..] == owners[..];
  }
}
