/** What a virtual app costs each of the three parties. */
module VirtualMoney {
  import opened OrderedMaps
  import opened Models
  import opened FreeBalances
  import opened StateChannels
  import opened DirectTransitions
  import opened VirtualApps

  lemma AddAgreementBalances(env: Environment, c: StateChannel, h: AppIdHash, agreement: Agreement, decrements: CoinTransferMap, token: Token, t: Token, a: Address)
    requires Direct(env, c) && env.checksum(token) == token && Unique(decrements)
    requires c.AddAgreement(env, h, agreement, decrements, token).Ok?
    ensures var c' := c.AddAgreement(env, h, agreement, decrements, token).value;
            && Direct(env, c') && Version(c') == Version(c) + 2
            && BalanceOf(env, c', t, a) == BalanceOf(env, c, t, a) - if t == token then GetOr(decrements, a, 0) else 0
  {
    var fb, incs := Fb(env, c), [(token, Flip(decrements))];
    var c1 := c.(agreements := Set(c.agreements, h, agreement));
    AddActiveEffect(env, c1, fb, h, incs);
    HoldsIsDirect(env, c.AddAgreement(env, h, agreement, decrements, token).value,
                  Incremented(fb, incs).value.(activeApps := AddActive(fb.activeApps, h)));
    FlipNegates(decrements, a);
    SingleAmount(token, Flip(decrements), t, a);
    IncrementEffect(fb, incs, t, a);
  }

  lemma SingleAmount(token: Token, m: CoinTransferMap, t: Token, a: Address)
    ensures Amount([(token, m)], t, a) == if t == token then GetOr(m, a, 0) else 0
    ensures Unique(m) ==> UniqueIncrements([(token, m)])
  {
    if t == token { IndexIs([(token, m)], t, 0); }
  }

  lemma RemoveAgreementBalances(env: Environment, c: StateChannel, h: AppIdHash, increments: CoinTransferMap, token: Token, t: Token, a: Address)
    requires Direct(env, c) && env.checksum(token) == token && Unique(increments)
    requires c.RemoveAgreement(env, h, increments, token).Ok?
    ensures var c' := c.RemoveAgreement(env, h, increments, token).value;
            && Direct(env, c') && Version(c') == Version(c) + 2
            && BalanceOf(env, c', t, a) == BalanceOf(env, c, t, a) + if t == token then GetOr(increments, a, 0) else 0
  {
    var fb, incs := Fb(env, c), [(token, increments)];
    var fb1 := fb.(activeApps := RemoveActive(fb.activeApps, h));
    RemoveActiveEffect(env, c.(agreements := Delete(c.agreements, h)), fb, h, incs);
    HoldsIsDirect(env, c.RemoveAgreement(env, h, increments, token).value, Incremented(fb1, incs).value);
    SingleAmount(token, increments, t, a);
    IncrementEffect(fb1, incs, t, a);
  }

  /** A literal with two different keys. */
  lemma LiteralLookup(x: Address, m: int, y: Address, n: int)
    requires x != y
    ensures GetOr(FromEntries([(x, m), (y, n)]), x, 0) == m && GetOr(FromEntries([(x, m), (y, n)]), y, 0) == n
  {
    var both := [(x, m), (y, n)];
    FromEntriesOfUnique(both);
    IndexIs(both, x, 0);
    IndexIs(both, y, 1);
  }

  /** What the outcome pays `owner`, read as the intermediary reads it. */
  function Paid(env: Environment, passThrough: AppInstance, outcome: Outcome, token: Token, owner: Address): int {
    match FreeBalanceIncrements(env, passThrough, Some(outcome))
    case Ok(increments) => Amount(increments, token, owner)
    case Err(_) => 0
  }

  /** Installing takes the two deposits from the users, and the opposite deposits from the intermediary. */
  lemma InstallTakes(env: Environment, store: Store, p: VirtualParams, h: AppIdHash, outcome: Outcome, left: StateChannel, right: StateChannel)
    requires env.Valid() && ThreePeople(p.initiatorXpub, p.intermediaryXpub, p.responderXpub)
    requires env.checksum(p.token) == p.token && Direct(env, left) && Direct(env, right)
    requires Find(store, p.LeftPair()) == Ok(left) && Find(store, p.RightPair()) == Ok(right)
    requires InstallForIntermediary(env, store, p, h, outcome).Ok?
    ensures var m := InstallForIntermediary(env, store, p, h, outcome).value;
            var i, hub, r := env.kth(p.initiatorXpub, 0), env.kth(p.intermediaryXpub, 0), env.kth(p.responderXpub, 0);
            && Direct(env, m.left) && Direct(env, m.right)
            && BalanceOf(env, m.left, p.token, i) == BalanceOf(env, left, p.token, i) - p.initiatorDecrement
            && BalanceOf(env, m.left, p.token, hub) == BalanceOf(env, left, p.token, hub) - p.responderDecrement
            && BalanceOf(env, m.right, p.token, hub) == BalanceOf(env, right, p.token, hub) - p.initiatorDecrement
            && BalanceOf(env, m.right, p.token, r) == BalanceOf(env, right, p.token, r) - p.responderDecrement
  {
    var pass := InstallForIntermediary(env, store, p, h, outcome).value.passThrough.IdentityHash();
    MediatedChannels(env, store, p, h, outcome);
    LeftTakes(env, left, p, h, pass);
    RightTakes(env, right, p, h, pass);
  }

  lemma LeftTakes(env: Environment, left: StateChannel, p: VirtualParams, h: AppIdHash, pass: AppIdHash)
    requires env.Valid() && p.initiatorXpub != p.intermediaryXpub && env.checksum(p.token) == p.token && Direct(env, left)
    requires left.AddAgreement(env, h, LeftAgreementOf(env, p, pass), LeftDecrements(env, p), p.token).Ok?
    ensures var c := left.AddAgreement(env, h, LeftAgreementOf(env, p, pass), LeftDecrements(env, p), p.token).value;
            var i, hub := env.kth(p.initiatorXpub, 0), env.kth(p.intermediaryXpub, 0);
            && Direct(env, c)
            && BalanceOf(env, c, p.token, i) == BalanceOf(env, left, p.token, i) - p.initiatorDecrement
            && BalanceOf(env, c, p.token, hub) == BalanceOf(env, left, p.token, hub) - p.responderDecrement
  {
    var i, hub := env.kth(p.initiatorXpub, 0), env.kth(p.intermediaryXpub, 0);
    AddAgreementBalances(env, left, h, LeftAgreementOf(env, p, pass), LeftDecrements(env, p), p.token, p.token, i);
    AddAgreementBalances(env, left, h, LeftAgreementOf(env, p, pass), LeftDecrements(env, p), p.token, p.token, hub);
    LiteralLookup(i, p.initiatorDecrement, hub, p.responderDecrement);
  }

  lemma RightTakes(env: Environment, right: StateChannel, p: VirtualParams, h: AppIdHash, pass: AppIdHash)
    requires env.Valid() && p.responderXpub != p.intermediaryXpub && env.checksum(p.token) == p.token && Direct(env, right)
    requires right.AddAgreement(env, h, RightAgreementOf(env, p, pass), RightDecrements(env, p), p.token).Ok?
    ensures var c := right.AddAgreement(env, h, RightAgreementOf(env, p, pass), RightDecrements(env, p), p.token).value;
            var hub, r := env.kth(p.intermediaryXpub, 0), env.kth(p.responderXpub, 0);
            && Direct(env, c)
            && BalanceOf(env, c, p.token, hub) == BalanceOf(env, right, p.token, hub) - p.initiatorDecrement
            && BalanceOf(env, c, p.token, r) == BalanceOf(env, right, p.token, r) - p.responderDecrement
  {
    var hub, r := env.kth(p.intermediaryXpub, 0), env.kth(p.responderXpub, 0);
    AddAgreementBalances(env, right, h, RightAgreementOf(env, p, pass), RightDecrements(env, p), p.token, p.token, hub);
    AddAgreementBalances(env, right, h, RightAgreementOf(env, p, pass), RightDecrements(env, p), p.token, p.token, r);
    LiteralLookup(hub, p.initiatorDecrement, r, p.responderDecrement);
  }

  /** The intermediary's channels with the two users, and the pass-through its store names for the target. */
  predicate Mediates(store: Store, p: UninstallParams, left: StateChannel, right: StateChannel, pass: AppInstance, token: Token) {
    && Find(store, p.LeftPair()) == Ok(left) && Find(store, p.RightPair()) == Ok(right)
    && left.GetAgreement(p.target).Ok? && left.GetAgreement(p.target).value.token == token
    && Find(store, p.All()).Ok?
    && PassThroughOf(Find(store, p.All()).value, left.GetAgreement(p.target).value.timeLockedPassThroughIdentityHash) == Ok(pass)
    && pass.latestState.PassThroughState?
  }

  /** The outcome that counts: the proposed one, and the pass-through's default from the block at which that switches. */
  function Final(p: UninstallParams, pass: AppInstance, block: int): Outcome
    requires pass.latestState.PassThroughState?
  {
    if block < pass.latestState.switchesOutcomeAt then p.targetOutcome else pass.latestState.defaultOutcome
  }

  function LeftPayout(env: Environment, p: UninstallParams, pass: AppInstance, outcome: Outcome, token: Token): CoinTransferMap {
    var i, hub, r := env.kth(p.initiatorXpub, 0), env.kth(p.intermediaryXpub, 0), env.kth(p.responderXpub, 0);
    FromEntries([(hub, Paid(env, pass, outcome, token, r)), (i, Paid(env, pass, outcome, token, i))])
  }

  function RightPayout(env: Environment, p: UninstallParams, pass: AppInstance, outcome: Outcome, token: Token): CoinTransferMap {
    var i, hub, r := env.kth(p.initiatorXpub, 0), env.kth(p.intermediaryXpub, 0), env.kth(p.responderXpub, 0);
    FromEntries([(hub, Paid(env, pass, outcome, token, i)), (r, Paid(env, pass, outcome, token, r))])
  }

  lemma PaidIs(env: Environment, pass: AppInstance, outcome: Outcome, token: Token, owner: Address)
    requires FreeBalanceIncrements(env, pass, Some(outcome)).Ok?
    requires IncrementsFor(FreeBalanceIncrements(env, pass, Some(outcome)).value, token).Ok?
    ensures GetOr(IncrementsFor(FreeBalanceIncrements(env, pass, Some(outcome)).value, token).value, owner, 0)
         == Paid(env, pass, outcome, token, owner)
  {
  }

  lemma MediatesMeansRepays(env: Environment, store: Store, p: UninstallParams, block: int,
                            left: StateChannel, right: StateChannel, pass: AppInstance, token: Token)
    requires Mediates(store, p, left, right, pass, token)
    ensures UninstallForIntermediary(env, store, p, block)
         == HubRepays(env, p, Find(store, p.All()).value, left, right, pass, token, Final(p, pass, block))
  {
    PairsAreUnordered(p.intermediaryXpub, p.responderXpub);
  }

  lemma Repays(env: Environment, p: UninstallParams, three: StateChannel, left: StateChannel, right: StateChannel,
               pass: AppInstance, outcome: Outcome, token: Token)
    requires pass.latestState.PassThroughState? && HubRepays(env, p, three, left, right, pass, token, outcome).Ok?
    ensures var m, target := HubRepays(env, p, three, left, right, pass, token, outcome).value, pass.latestState.targetAppIdentityHash;
            && left.RemoveAgreement(env, target, LeftPayout(env, p, pass, outcome, token), token) == Ok(m.left)
            && right.RemoveAgreement(env, target, RightPayout(env, p, pass, outcome, token), token) == Ok(m.right)
  {
    var paid := PaidOut(env, pass, Some(outcome), token).value;
    HubRepaysIs(env, p, three, left, right, pass, token, outcome, paid);
    PaysOut(env, p, pass, outcome, token, paid);
  }

  lemma PaysOut(env: Environment, p: UninstallParams, pass: AppInstance, outcome: Outcome, token: Token, paid: CoinTransferMap)
    requires PaidOut(env, pass, Some(outcome), token) == Ok(paid)
    ensures LeftPay(env, p, paid) == LeftPayout(env, p, pass, outcome, token) && RightPay(env, p, paid) == RightPayout(env, p, pass, outcome, token)
  {
    PaidIs(env, pass, outcome, token, env.kth(p.initiatorXpub, 0));
    PaidIs(env, pass, outcome, token, env.kth(p.responderXpub, 0));
  }

  lemma UninstalledChannels(env: Environment, store: Store, p: UninstallParams, block: int,
                            left: StateChannel, right: StateChannel, pass: AppInstance, token: Token)
    requires Mediates(store, p, left, right, pass, token) && UninstallForIntermediary(env, store, p, block).Ok?
    ensures var m, target := UninstallForIntermediary(env, store, p, block).value, pass.latestState.targetAppIdentityHash;
            && left.RemoveAgreement(env, target, LeftPayout(env, p, pass, Final(p, pass, block), token), token) == Ok(m.left)
            && right.RemoveAgreement(env, target, RightPayout(env, p, pass, Final(p, pass, block), token), token) == Ok(m.right)
  {
    MediatesMeansRepays(env, store, p, block, left, right, pass, token);
    Repays(env, p, Find(store, p.All()).value, left, right, pass, Final(p, pass, block), token);
  }

  /** Uninstalling pays each user what the outcome says, and the intermediary the opposite user's part. */
  lemma UninstallPays(env: Environment, store: Store, p: UninstallParams, block: int,
                      left: StateChannel, right: StateChannel, pass: AppInstance, token: Token)
    requires env.Valid() && ThreePeople(p.initiatorXpub, p.intermediaryXpub, p.responderXpub)
    requires env.checksum(token) == token && Direct(env, left) && Direct(env, right)
    requires Mediates(store, p, left, right, pass, token) && UninstallForIntermediary(env, store, p, block).Ok?
    ensures var m := UninstallForIntermediary(env, store, p, block).value;
            var i, hub, r := env.kth(p.initiatorXpub, 0), env.kth(p.intermediaryXpub, 0), env.kth(p.responderXpub, 0);
            var toI, toR := Paid(env, pass, Final(p, pass, block), token, i), Paid(env, pass, Final(p, pass, block), token, r);
            && BalanceOf(env, m.left, token, i) == BalanceOf(env, left, token, i) + toI
            && BalanceOf(env, m.left, token, hub) == BalanceOf(env, left, token, hub) + toR
            && BalanceOf(env, m.right, token, hub) == BalanceOf(env, right, token, hub) + toI
            && BalanceOf(env, m.right, token, r) == BalanceOf(env, right, token, r) + toR
  {
    UninstalledChannels(env, store, p, block, left, right, pass, token);
    LeftPays(env, left, p, pass, Final(p, pass, block), token);
    RightPays(env, right, p, pass, Final(p, pass, block), token);
  }

  lemma LeftPays(env: Environment, left: StateChannel, p: UninstallParams, pass: AppInstance, outcome: Outcome, token: Token)
    requires env.Valid() && p.initiatorXpub != p.intermediaryXpub && env.checksum(token) == token && Direct(env, left)
    requires pass.latestState.PassThroughState?
    requires left.RemoveAgreement(env, pass.latestState.targetAppIdentityHash, LeftPayout(env, p, pass, outcome, token), token).Ok?
    ensures var c := left.RemoveAgreement(env, pass.latestState.targetAppIdentityHash, LeftPayout(env, p, pass, outcome, token), token).value;
            var i, hub, r := env.kth(p.initiatorXpub, 0), env.kth(p.intermediaryXpub, 0), env.kth(p.responderXpub, 0);
            && BalanceOf(env, c, token, i) == BalanceOf(env, left, token, i) + Paid(env, pass, outcome, token, i)
            && BalanceOf(env, c, token, hub) == BalanceOf(env, left, token, hub) + Paid(env, pass, outcome, token, r)
  {
    var h, i, hub, r := pass.latestState.targetAppIdentityHash, env.kth(p.initiatorXpub, 0), env.kth(p.intermediaryXpub, 0), env.kth(p.responderXpub, 0);
    RemoveAgreementBalances(env, left, h, LeftPayout(env, p, pass, outcome, token), token, token, i);
    RemoveAgreementBalances(env, left, h, LeftPayout(env, p, pass, outcome, token), token, token, hub);
    LiteralLookup(hub, Paid(env, pass, outcome, token, r), i, Paid(env, pass, outcome, token, i));
  }

  lemma RightPays(env: Environment, right: StateChannel, p: UninstallParams, pass: AppInstance, outcome: Outcome, token: Token)
    requires env.Valid() && p.responderXpub != p.intermediaryXpub && env.checksum(token) == token && Direct(env, right)
    requires pass.latestState.PassThroughState?
    requires right.RemoveAgreement(env, pass.latestState.targetAppIdentityHash, RightPayout(env, p, pass, outcome, token), token).Ok?
    ensures var c := right.RemoveAgreement(env, pass.latestState.targetAppIdentityHash, RightPayout(env, p, pass, outcome, token), token).value;
            var i, hub, r := env.kth(p.initiatorXpub, 0), env.kth(p.intermediaryXpub, 0), env.kth(p.responderXpub, 0);
            && BalanceOf(env, c, token, hub) == BalanceOf(env, right, token, hub) + Paid(env, pass, outcome, token, i)
            && BalanceOf(env, c, token, r) == BalanceOf(env, right, token, r) + Paid(env, pass, outcome, token, r)
  {
    var h, i, hub, r := pass.latestState.targetAppIdentityHash, env.kth(p.initiatorXpub, 0), env.kth(p.intermediaryXpub, 0), env.kth(p.responderXpub, 0);
    RemoveAgreementBalances(env, right, h, RightPayout(env, p, pass, outcome, token), token, token, hub);
    RemoveAgreementBalances(env, right, h, RightPayout(env, p, pass, outcome, token), token, token, r);
    LiteralLookup(hub, Paid(env, pass, outcome, token, i), r, Paid(env, pass, outcome, token, r));
  }

  // ---- When a virtual install succeeds --------------------------------------------------------

  lemma PairAmounts(token: Token, x: Address, m: int, y: Address, n: int, t: Token, a: Address)
    requires x != y
    ensures var d := [(token, Flip(FromEntries([(x, m), (y, n)])))];
            && UniqueIncrements(d)
            && Amount(d, t, a) == if t == token then (if a == x then -m else if a == y then -n else 0) else 0
  {
    var both := [(x, m), (y, n)];
    FromEntriesOfUnique(both);
    FlipNegates(both, a);
    PairLookup(x, m, y, n, a);
    SingleAmount(token, Flip(both), t, a);
  }

  /** An agreement can be added exactly when both sides can afford what it takes from them. */
  lemma AddAgreementSucceedsIff(env: Environment, c: StateChannel, h: AppIdHash, agreement: Agreement, token: Token, x: Address, m: int, y: Address, n: int)
    requires Direct(env, c) && env.checksum(token) == token && x != y
    ensures c.AddAgreement(env, h, agreement, FromEntries([(x, m), (y, n)]), token).Ok?
            <==> BalanceOf(env, c, token, x) >= m && BalanceOf(env, c, token, y) >= n
  {
    var fb, d := Fb(env, c), [(token, Flip(FromEntries([(x, m), (y, n)])))];
    AddActiveEffect(env, c.(agreements := Set(c.agreements, h, agreement)), fb, h, d);
    PairAmounts(token, x, m, y, n, token, x);
    IncrementSucceedsIff(env, fb, d);
    CoversIff(env, fb, token, x, m, y, n);
  }

  lemma CoversIff(env: Environment, fb: FreeBalance, token: Token, x: Address, m: int, y: Address, n: int)
    requires Canonical(env, fb) && x != y
    ensures Covers(fb, [(token, Flip(FromEntries([(x, m), (y, n)])))]) <==> Balance(fb, token, x) >= m && Balance(fb, token, y) >= n
  {
    var d := [(token, Flip(FromEntries([(x, m), (y, n)])))];
    PairAmounts(token, x, m, y, n, token, x);
    PairAmounts(token, x, m, y, n, token, y);
    if Covers(fb, d) {
      assert Balance(fb, token, x) + Amount(d, token, x) >= 0;
      assert Balance(fb, token, y) + Amount(d, token, y) >= 0;
    } else {
      var t, a :| Balance(fb, t, a) + Amount(d, t, a) < 0;
      PairAmounts(token, x, m, y, n, t, a);
      BalanceNonNegative(env, fb, t, a);
    }
  }

  /**
   The intermediary can compute a virtual install exactly when the outcome type is supported and, in
   each of her channels, the user can afford the user's deposit and she the other user's.
   */
  lemma VirtualInstallSucceedsIff(env: Environment, store: Store, p: VirtualParams, h: AppIdHash, outcome: Outcome, left: StateChannel, right: StateChannel)
    requires env.Valid() && ThreePeople(p.initiatorXpub, p.intermediaryXpub, p.responderXpub)
    requires env.checksum(p.token) == p.token && Direct(env, left) && Direct(env, right)
    requires Find(store, p.LeftPair()) == Ok(left) && Find(store, p.RightPair()) == Ok(right)
    ensures var i, hub, r := env.kth(p.initiatorXpub, 0), env.kth(p.intermediaryXpub, 0), env.kth(p.responderXpub, 0);
            InstallForIntermediary(env, store, p, h, outcome).Ok? <==>
              && p.outcomeType != MultiAssetMultiPartyCoinTransfer
              && BalanceOf(env, left, p.token, i) >= p.initiatorDecrement && BalanceOf(env, left, p.token, hub) >= p.responderDecrement
              && BalanceOf(env, right, p.token, hub) >= p.initiatorDecrement && BalanceOf(env, right, p.token, r) >= p.responderDecrement
  {
    var i, hub, r := env.kth(p.initiatorXpub, 0), env.kth(p.intermediaryXpub, 0), env.kth(p.responderXpub, 0);
    var pass := ConstructPassThrough(env, GetOrCreate(env, store, p.All()), h, outcome, p);
    assert pass.Ok? <==> p.outcomeType != MultiAssetMultiPartyCoinTransfer;
    if pass.Ok? {
      var id := pass.value.IdentityHash();
      AddAgreementSucceedsIff(env, left, h, LeftAgreementOf(env, p, id), p.token, i, p.initiatorDecrement, hub, p.responderDecrement);
      AddAgreementSucceedsIff(env, right, h, RightAgreementOf(env, p, id), p.token, hub, p.initiatorDecrement, r, p.responderDecrement);
      BothHubsInstall(env, store, p, h, outcome, left, right, id);
    }
  }

  lemma InstallNeedsBothHubs(env: Environment, store: Store, p: VirtualParams, h: AppIdHash, outcome: Outcome)
    requires InstallForIntermediary(env, store, p, h, outcome).Ok?
    ensures var pass := ConstructPassThrough(env, GetOrCreate(env, store, p.All()), h, outcome, p);
            && pass.Ok? && Find(store, p.LeftPair()).Ok? && Find(store, p.RightPair()).Ok?
            && Find(store, p.LeftPair()).value.AddAgreement(env, h, LeftAgreementOf(env, p, pass.value.IdentityHash()), LeftDecrements(env, p), p.token).Ok?
            && Find(store, p.RightPair()).value.AddAgreement(env, h, RightAgreementOf(env, p, pass.value.IdentityHash()), RightDecrements(env, p), p.token).Ok?
  {
    MediatedPassThrough(env, store, p, h, outcome);
    MediatedChannels(env, store, p, h, outcome);
  }

  lemma HubsSufficeToInstall(env: Environment, store: Store, p: VirtualParams, h: AppIdHash, outcome: Outcome,
                             left: StateChannel, right: StateChannel, left': StateChannel, right': StateChannel, id: AppIdHash)
    requires Find(store, p.LeftPair()) == Ok(left) && Find(store, p.RightPair()) == Ok(right)
    requires var pass := ConstructPassThrough(env, GetOrCreate(env, store, p.All()), h, outcome, p); pass.Ok? && id == pass.value.IdentityHash()
    requires left.AddAgreement(env, h, LeftAgreementOf(env, p, id), LeftDecrements(env, p), p.token) == Ok(left')
    requires right.AddAgreement(env, h, RightAgreementOf(env, p, id), RightDecrements(env, p), p.token) == Ok(right')
    ensures InstallForIntermediary(env, store, p, h, outcome).Ok?
  {
  }

  lemma BothHubsInstall(env: Environment, store: Store, p: VirtualParams, h: AppIdHash, outcome: Outcome, left: StateChannel, right: StateChannel, id: AppIdHash)
    requires Find(store, p.LeftPair()) == Ok(left) && Find(store, p.RightPair()) == Ok(right)
    requires var pass := ConstructPassThrough(env, GetOrCreate(env, store, p.All()), h, outcome, p); pass.Ok? && id == pass.value.IdentityHash()
    ensures InstallForIntermediary(env, store, p, h, outcome).Ok? <==>
              && left.AddAgreement(env, h, LeftAgreementOf(env, p, id), LeftDecrements(env, p), p.token).Ok?
              && right.AddAgreement(env, h, RightAgreementOf(env, p, id), RightDecrements(env, p), p.token).Ok?
  {
    var l := left.AddAgreement(env, h, LeftAgreementOf(env, p, id), LeftDecrements(env, p), p.token);
    var r := right.AddAgreement(env, h, RightAgreementOf(env, p, id), RightDecrements(env, p), p.token);
    if l.Ok? && r.Ok? {
      HubsSufficeToInstall(env, store, p, h, outcome, left, right, l.value, r.value, id);
    }
    if InstallForIntermediary(env, store, p, h, outcome).Ok? {
      InstallNeedsBothHubs(env, store, p, h, outcome);
    }
  }

  /** An agreement can always be removed when what it pays back is not negative. */
  lemma RemoveAgreementSucceeds(env: Environment, c: StateChannel, h: AppIdHash, token: Token, x: Address, m: int, y: Address, n: int)
    requires Direct(env, c) && env.checksum(token) == token && x != y && m >= 0 && n >= 0 && Has(c.agreements, h)
    ensures c.RemoveAgreement(env, h, FromEntries([(x, m), (y, n)]), token).Ok?
  {
    var fb, d := Fb(env, c), [(token, FromEntries([(x, m), (y, n)]))];
    RemoveActiveEffect(env, c.(agreements := Delete(c.agreements, h)), fb, h, d);
    ActiveKeepsCanonical(env, fb, h);
    PayingWorks(env, fb.(activeApps := RemoveActive(fb.activeApps, h)), token, x, m, y, n);
  }

  lemma PayingWorks(env: Environment, fb: FreeBalance, token: Token, x: Address, m: int, y: Address, n: int)
    requires Canonical(env, fb) && env.checksum(token) == token && x != y && m >= 0 && n >= 0
    ensures Incremented(fb, [(token, FromEntries([(x, m), (y, n)]))]).Ok?
  {
    var both := [(x, m), (y, n)];
    FromEntriesOfUnique(both);
    forall t, a ensures Balance(fb, t, a) + Amount([(token, both)], t, a) >= 0 {
      SingleAmount(token, both, t, a);
      PairLookup(x, m, y, n, a);
      BalanceNonNegative(env, fb, t, a);
    }
    IncrementSucceedsIff(env, fb, [(token, both)]);
  }

  /** Once installed, a virtual app can be uninstalled with any outcome that decodes and pays nothing negative. */
  lemma VirtualUninstallSucceeds(env: Environment, store: Store, p: UninstallParams, block: int,
                                 left: StateChannel, right: StateChannel, pass: AppInstance, token: Token)
    requires env.Valid() && ThreePeople(p.initiatorXpub, p.intermediaryXpub, p.responderXpub)
    requires env.checksum(token) == token && Direct(env, left) && Direct(env, right)
    requires Mediates(store, p, left, right, pass, token) && right.GetAgreement(p.target).Ok?
    requires Names(Find(store, p.All()).value, left, p, pass, token)
    requires PaidOut(env, pass, Some(Final(p, pass, block)), token).Ok?
    requires Paid(env, pass, Final(p, pass, block), token, env.kth(p.initiatorXpub, 0)) >= 0
    requires Paid(env, pass, Final(p, pass, block), token, env.kth(p.responderXpub, 0)) >= 0
    ensures UninstallForIntermediary(env, store, p, block).Ok?
  {
    var i, hub, r := env.kth(p.initiatorXpub, 0), env.kth(p.intermediaryXpub, 0), env.kth(p.responderXpub, 0);
    PaidIs(env, pass, Final(p, pass, block), token, i);
    PaidIs(env, pass, Final(p, pass, block), token, r);
    var toI, toR := Paid(env, pass, Final(p, pass, block), token, i), Paid(env, pass, Final(p, pass, block), token, r);
    RemoveAgreementSucceeds(env, left, p.target, token, hub, toR, i, toI);
    RemoveAgreementSucceeds(env, right, p.target, token, hub, toI, r, toR);
    IntermediaryUninstalls(env, store, p, block, Find(store, p.All()).value, left, right, pass, token);
  }

  // ---- Neutrality -----------------------------------------------------------------------------

  /** The intermediary's store between an install it has persisted and the uninstall. */
  function HubInstalled(store: Store, p: VirtualParams, m: HubUpdate): Store {
    HubStore(store, p.All(), p.LeftPair(), p.RightPair(), m)
  }

  lemma InstalledIsMediated(env: Environment, store: Store, p: VirtualParams, h: AppIdHash, outcome: Outcome, final: Outcome, block: int)
    requires ThreePeople(p.initiatorXpub, p.intermediaryXpub, p.responderXpub) && block < MAX_UINT256
    requires InstallForIntermediary(env, store, p, h, outcome).Ok?
    ensures var m := InstallForIntermediary(env, store, p, h, outcome).value;
            var q := UninstallParams(p.initiatorXpub, p.intermediaryXpub, p.responderXpub, h, final);
            Mediates(HubInstalled(store, p, m), q, m.left, m.right, m.passThrough, p.token) && Final(q, m.passThrough, block) == final
  {
    InstallAgreements(env, store, p, h, outcome);
    InstalledForAll(env, store, p, h, outcome);
    FourChannels(p.initiatorXpub, p.intermediaryXpub, p.responderXpub);
  }

  /**
   After a virtual install and uninstall the intermediary's total over her two channels has changed by
   what the outcome pays the users less the capital provided: she ends where she began exactly when
   the two sums are equal, and exactly then the initiator loses what the responder gains.
   */
  lemma IntermediaryIsNeutralIff(env: Environment, store: Store, p: VirtualParams, h: AppIdHash, outcome: Outcome, final: Outcome,
                                 block: int, left: StateChannel, right: StateChannel, m1: HubUpdate, m2: HubUpdate)
    requires env.Valid() && ThreePeople(p.initiatorXpub, p.intermediaryXpub, p.responderXpub) && block < MAX_UINT256
    requires env.checksum(p.token) == p.token && Direct(env, left) && Direct(env, right)
    requires Find(store, p.LeftPair()) == Ok(left) && Find(store, p.RightPair()) == Ok(right)
    requires InstallForIntermediary(env, store, p, h, outcome) == Ok(m1)
    requires UninstallForIntermediary(env, HubInstalled(store, p, m1), UninstallParams(p.initiatorXpub, p.intermediaryXpub, p.responderXpub, h, final), block) == Ok(m2)
    ensures var i, hub, r, t := env.kth(p.initiatorXpub, 0), env.kth(p.intermediaryXpub, 0), env.kth(p.responderXpub, 0), p.token;
            var paid := Paid(env, m1.passThrough, final, t, i) + Paid(env, m1.passThrough, final, t, r);
            var hubChange := BalanceOf(env, m2.left, t, hub) + BalanceOf(env, m2.right, t, hub) - BalanceOf(env, left, t, hub) - BalanceOf(env, right, t, hub);
            var lost, gained := BalanceOf(env, left, t, i) - BalanceOf(env, m2.left, t, i), BalanceOf(env, m2.right, t, r) - BalanceOf(env, right, t, r);
            && hubChange == paid - (p.initiatorDecrement + p.responderDecrement)
            && (hubChange == 0 <==> paid == p.initiatorDecrement + p.responderDecrement)
            && (lost == gained <==> paid == p.initiatorDecrement + p.responderDecrement)
  {
    var q := UninstallParams(p.initiatorXpub, p.intermediaryXpub, p.responderXpub, h, final);
    InstallTakes(env, store, p, h, outcome, left, right);
    InstalledIsMediated(env, store, p, h, outcome, final, block);
    UninstallPays(env, HubInstalled(store, p, m1), q, block, m1.left, m1.right, m1.passThrough, p.token);
  }

  /** A coin-transfer outcome to the two users, in either order, pays them its two amounts. */
  lemma CoinTransferPays(env: Environment, pass: AppInstance, token: Token, limit: int, a: CoinTransfer, b: CoinTransfer)
    requires pass.outcomeType == SingleAssetTwoPartyCoinTransfer && pass.params == SingleAssetParams(limit, token)
    requires !pass.latestState.RefundState? && a.to != b.to
    ensures Paid(env, pass, SingleAssetOutcome(a, b), token, a.to) == a.amount
    ensures Paid(env, pass, SingleAssetOutcome(a, b), token, b.to) == b.amount
  {
    LiteralLookup(a.to, a.amount, b.to, b.amount);
    SingleAmount(token, FromEntries([(a.to, a.amount), (b.to, b.amount)]), token, a.to);
    SingleAmount(token, FromEntries([(a.to, a.amount), (b.to, b.amount)]), token, b.to);
  }

  lemma {:induction false} AbsentKey(s: seq<(Address, int)>, k: Address)
    requires forall i :: 0 <= i < |s| ==> s[i].0 != k
    ensures !Has(FromEntries(s), k)
  {
    if s != [] {
      AbsentKey(s[..|s| - 1], k);
      SetGet(FromEntries(s[..|s| - 1]), s[|s| - 1].0, s[|s| - 1].1, k);
    }
  }

  /**
   A two-party fixed outcome of a virtual app pays nobody: it is keyed by the addresses derived for the
   pass-through's sequence number, and looked up under the addresses derived for zero.
   */
  lemma FixedOutcomePaysNobody(env: Environment, three: StateChannel, h: AppIdHash, default: Outcome, p: VirtualParams, outcome: Outcome, x: Xpub)
    requires env.Valid() && p.outcomeType == TwoPartyFixedOutcome && three.numProposedApps > 0
    ensures ConstructPassThrough(env, three, h, default, p).Ok?
    ensures Paid(env, ConstructPassThrough(env, three, h, default, p).value, outcome, p.token, env.kth(x, 0)) == 0
  {
    var pass := ConstructPassThrough(env, three, h, default, p).value;
    if FreeBalanceIncrements(env, pass, Some(outcome)).Ok? {
      var owner, m := env.kth(x, 0), FreeBalanceIncrements(env, pass, Some(outcome)).value[0].1;
      var one, two, amount := pass.params.playerOne, pass.params.playerTwo, pass.params.amount;
      AbsentKey([(one, Half(amount)), (two, amount - Half(amount))], owner);
      SingleAmount(p.token, m, p.token, owner);
    }
  }
}
