/** Reachable channels on which a transition does not do what it is meant to do. */
module Witnesses {
  import opened OrderedMaps
  import Sorting
  import opened Models
  import opened FreeBalances
  import opened StateChannels
  import opened DirectTransitions
  import opened Withdrawals
  import opened ChannelRuns
  import opened Conservation

  // ---- An environment -------------------------------------------------------------------------

  function Triangle(n: nat): nat {
    if n == 0 then 0 else Triangle(n - 1) + n
  }

  /** Every pair of an extended key and an index has its own address. */
  function Pair(x: Xpub, k: nat): Address {
    Triangle(x + k) + k
  }

  lemma {:induction false} TriangleGrows(m: nat, n: nat)
    requires m < n
    ensures Triangle(m) + m < Triangle(n)
  {
    if m + 1 < n {
      TriangleGrows(m, n - 1);
    }
  }

  lemma PairIsInjective(x: Xpub, k: nat, x': Xpub, k': nat)
    requires Pair(x, k) == Pair(x', k')
    ensures x == x' && k == k'
  {
    if x + k < x' + k' {
      TriangleGrows(x + k, x' + k');
    } else if x' + k' < x + k {
      TriangleGrows(x' + k', x + k);
    }
  }

  /** The token 5 has the checksummed form 6; every other token is its own. */
  const ENV: Environment := Environment(
    (x: Xpub, k: nat) => Pair(x, k),
    (a: Address) => a as int,
    (t: Token) => if t == 5 then 6 else t,
    (a: Address, s: AppState) => FixedOutcome(0),
    (a: Address, s: AppState, action: Action) => None,
    (owners: seq<Address>) => 0)

  lemma EnvIsValid()
    ensures ENV.Valid()
  {
    forall x, k, x', k' | ENV.kth(x, k) == ENV.kth(x', k') ensures x == x' && k == k' {
      PairIsInjective(x, k, x', k');
    }
  }

  // ---- Two people, and what they do -----------------------------------------------------------

  const ALICE: Xpub := 1
  const BOB: Xpub := 2
  const WALLET: Address := 3

  function Addr(x: Xpub): Address {
    Pair(x, 0)
  }

  function Hash(n: nat): AppIdHash {
    AppIdHash(n, ENV.SortedKthAddresses([ALICE, BOB], n))
  }

  /** Alice proposes an app with her deposit, in ether; Bob installs it. */
  function Offer(deposit: int): ProposeParams {
    ProposeParams(ALICE, BOB, 7, CustomEncoding(0), deposit, None, 0, None, 10, CustomState(0, 0), TwoPartyFixedOutcome)
  }

  function Proposing(deposit: int): Op {
    Propose(Offer(deposit), false)
  }

  /** An uninstall that pays Alice, as the one of a deposit does. */
  function Paying(n: nat, amount: int): Op {
    Uninstall(Hash(n), [(ETH_TOKEN, [(Addr(ALICE), amount)])])
  }

  function Withdrawing(amount: int): Op {
    Withdraw(WithdrawParams(ALICE, BOB, WALLET, 8, amount, ETH_TOKEN, 9))
  }

  ghost predicate Ready(c: StateChannel) {
    && ChannelOk(ENV, c) && c.xpubs == [ALICE, BOB]
    && c.FreeBalanceAddrOf(ENV, ALICE) == Ok(Addr(ALICE)) && c.FreeBalanceAddrOf(ENV, BOB) == Ok(Addr(BOB))
  }

  ghost predicate Offered(c: StateChannel, h: AppIdHash, deposit: int) {
    Has(c.proposals, h)
    && var p := Get(c.proposals, h);
       && p.initiatorDeposit == 0 && p.responderDeposit == deposit && p.initiatorDepositToken == ETH_TOKEN && p.responderDepositToken == ETH_TOKEN
       && p.outcomeType == TwoPartyFixedOutcome && p.proposedBy == ALICE && p.proposedTo == BOB
  }

  function Fresh(): StateChannel {
    SetupChannel(ENV, 4, WALLET, [ALICE, BOB])
  }

  lemma FreshIsReady()
    ensures Ready(Fresh()) && Fresh().numProposedApps == 1 && Fresh().apps == [] && Fresh().proposals == []
  {
    EnvIsValid();
    SetupIsOk(ENV, 4, WALLET, [ALICE, BOB]);
    var keys := ENV.KthAddresses([ALICE, BOB], 0);
    var sorted := Sorting.SortBy(ENV.rank, keys);
    Sorting.SortSorts(ENV.rank, keys);
    assert keys == [Addr(ALICE), Addr(BOB)];
    BothPresent(keys, sorted);
  }

  lemma BothPresent(s: seq<Address>, t: seq<Address>)
    requires |s| == |t| == 2 && multiset(s) == multiset(t)
    ensures (t[0] == s[0] || t[1] == s[0]) && (t[0] == s[1] || t[1] == s[1])
  {
    assert s[0] in multiset(t) && s[1] in multiset(t);
  }

  lemma ProposingAdds(c: StateChannel, deposit: int)
    ensures After(ENV, c, Proposing(deposit)) == c.AddProposal(ResponderProposal(ENV, c, Offer(deposit)))
  {
  }

  lemma OfferHash(c: StateChannel, deposit: int)
    requires c.xpubs == [ALICE, BOB]
    ensures ResponderProposal(ENV, c, Offer(deposit)).identityHash == Hash(c.numProposedApps + 1)
  {
  }

  lemma OfferIs(c: StateChannel, deposit: int)
    requires Ready(c)
    ensures var q, h := ResponderProposal(ENV, c, Offer(deposit)), Hash(c.numProposedApps + 1);
            && q.appSeqNo == c.numProposedApps + 1
            && Offered(c.AddProposal(q), h, deposit) && Get(c.AddProposal(q).proposals, h) == q
            && c.AddProposal(q).proposals == Set(c.proposals, h, q)
  {
    var q, h := ResponderProposal(ENV, c, Offer(deposit)), Hash(c.numProposedApps + 1);
    OfferHash(c, deposit);
    SetGet(c.proposals, h, q, h);
  }

  lemma ProposingWorks(c: StateChannel, deposit: int)
    requires Ready(c)
    ensures var c', h := After(ENV, c, Proposing(deposit)), Hash(c.numProposedApps + 1);
            && Ready(c') && Legal(ENV, c, Proposing(deposit))
            && Offered(c', h, deposit) && Get(c'.proposals, h).appSeqNo == c.numProposedApps + 1
            && c' == c.AddProposal(ResponderProposal(ENV, c, Offer(deposit)))
            && c'.freeBalanceApp == c.freeBalanceApp && Fb(ENV, c') == Fb(ENV, c)
  {
    ProposeKeeps(ENV, c, Offer(deposit), false);
    ProposingAdds(c, deposit);
    OfferIs(c, deposit);
  }

  lemma ProposingKeepsOthers(c: StateChannel, deposit: int, k: AppIdHash)
    requires Ready(c) && k != Hash(c.numProposedApps + 1) && Has(c.proposals, k)
    ensures Has(After(ENV, c, Proposing(deposit)).proposals, k)
    ensures Get(After(ENV, c, Proposing(deposit)).proposals, k) == Get(c.proposals, k)
  {
    ProposingAdds(c, deposit);
    OfferIs(c, deposit);
    SetGet(c.proposals, Hash(c.numProposedApps + 1), ResponderProposal(ENV, c, Offer(deposit)), k);
  }

  lemma AddressesDiffer()
    ensures Addr(ALICE) != Addr(BOB) && ENV.Valid()
  {
    EnvIsValid();
  }

  lemma OfferWorks(c: StateChannel, h: AppIdHash, deposit: int)
    requires Ready(c) && Offered(c, h, deposit) && BalanceOf(ENV, c, ETH_TOKEN, Addr(ALICE)) >= deposit
    ensures Legal(ENV, c, Install(h)) && InstallTransition(ENV, c, InstallParamsOf(ENV, c, Get(c.proposals, h))).Ok?
    ensures Installs(ENV, c, InstallParamsOf(ENV, c, Get(c.proposals, h)), Addr(BOB), Addr(ALICE))
  {
    AddressesDiffer();
    BalanceNonNegative(ENV, Fb(ENV, c), ETH_TOKEN, Addr(BOB));
    InstallSucceedsIff(ENV, c, InstallParamsOf(ENV, c, Get(c.proposals, h)), Addr(BOB), Addr(ALICE));
  }

  lemma OfferTakes(c: StateChannel, h: AppIdHash, deposit: int)
    requires Ready(c) && Offered(c, h, deposit) && BalanceOf(ENV, c, ETH_TOKEN, Addr(ALICE)) >= deposit
    ensures Legal(ENV, c, Install(h)) && Apply(ENV, c, Install(h)).Ok?
    ensures Sum(InstallDecrements(ENV, c, h), ETH_TOKEN) == deposit
    ensures BalanceOf(ENV, Apply(ENV, c, Install(h)).value, ETH_TOKEN, Addr(ALICE)) == BalanceOf(ENV, c, ETH_TOKEN, Addr(ALICE)) - deposit
  {
    var p := InstallParamsOf(ENV, c, Get(c.proposals, h));
    OfferWorks(c, h, deposit);
    InstallMovesDeposits(ENV, c, p, Addr(BOB), Addr(ALICE), ETH_TOKEN, Addr(ALICE));
    DecrementAmounts(p, Addr(BOB), Addr(ALICE), ETH_TOKEN, Addr(ALICE));
  }

  lemma InstallKeepsReady(c: StateChannel, h: AppIdHash)
    requires Ready(c) && Has(c.proposals, h) && Legal(ENV, c, Install(h)) && Apply(ENV, c, Install(h)).Ok?
    ensures Ready(Apply(ENV, c, Install(h)).value)
  {
    InstallFb(ENV, c, h);
    InstallKeeps(ENV, c, h);
    InstallKeepsOwners(c, h);
  }

  lemma InstallingWorks(c: StateChannel, h: AppIdHash, deposit: int)
    requires Ready(c) && Offered(c, h, deposit) && BalanceOf(ENV, c, ETH_TOKEN, Addr(ALICE)) >= deposit
    ensures Legal(ENV, c, Install(h)) && Apply(ENV, c, Install(h)).Ok?
    ensures var c' := Apply(ENV, c, Install(h)).value;
            && Ready(c') && c'.numProposedApps == c.numProposedApps && Has(c'.apps, h) && Get(c'.apps, h).IdentityHash() == h
            && c'.proposals == Delete(c.proposals, h)
            && BalanceOf(ENV, c', ETH_TOKEN, Addr(ALICE)) == BalanceOf(ENV, c, ETH_TOKEN, Addr(ALICE)) - deposit
  {
    OfferTakes(c, h, deposit);
    InstallKeepsReady(c, h);
    InstallFb(ENV, c, h);
    SetGet(c.apps, h, InstalledApp(ENV, c, h).value, h);
  }

  lemma InstallKeepsOwners(c: StateChannel, h: AppIdHash)
    requires Ready(c) && Has(c.proposals, h) && Legal(ENV, c, Install(h)) && Apply(ENV, c, Install(h)).Ok?
    ensures Apply(ENV, c, Install(h)).value.freeBalanceApp.Some?
    ensures Apply(ENV, c, Install(h)).value.freeBalanceApp.value.participants == c.freeBalanceApp.value.participants
  {
    InstallIs(ENV, c, h);
    InstallAppEffect(ENV, c, Fb(ENV, c), InstalledApp(ENV, c, h).value, InstallDecrements(ENV, c, h));
  }

  lemma PayingWorks(c: StateChannel, n: nat, amount: int)
    requires Ready(c) && Has(c.apps, Hash(n)) && amount >= 0
    ensures Legal(ENV, c, Paying(n, amount)) && Apply(ENV, c, Paying(n, amount)).Ok?
    ensures var c' := Apply(ENV, c, Paying(n, amount)).value;
            && Ready(c') && c'.numProposedApps == c.numProposedApps && c'.proposals == c.proposals && c'.apps == Delete(c.apps, Hash(n))
            && BalanceOf(ENV, c', ETH_TOKEN, Addr(ALICE)) == BalanceOf(ENV, c, ETH_TOKEN, Addr(ALICE)) + amount
  {
    var fb, h, m := Fb(ENV, c), Hash(n), [(Addr(ALICE), amount)];
    var fb1, payout := fb.(activeApps := RemoveActive(fb.activeApps, h)), [(ETH_TOKEN, m)];
    var i := IndexOf(c.apps, h);
    assert AppOk(ENV, c, c.apps[i].0, c.apps[i].1);
    SingleTokenSum(ETH_TOKEN, m, ETH_TOKEN);
    ActiveKeepsCanonical(ENV, fb, h);
    IncrementSucceedsIff(ENV, fb1, payout);
    forall t, a ensures Balance(fb1, t, a) + Amount(payout, t, a) >= 0 {
      PayingAmount(t, a, amount);
      BalanceNonNegative(ENV, fb1, t, a);
    }
    UninstallAppEffect(ENV, c, fb, h, payout);
    UninstallKeeps(ENV, c, h, payout);
    PayingAmount(ETH_TOKEN, Addr(ALICE), amount);
    IncrementEffect(fb1, payout, ETH_TOKEN, Addr(ALICE));
    HoldsIsDirect(ENV, Apply(ENV, c, Paying(n, amount)).value, Incremented(fb1, payout).value);
  }

  lemma PayingAmount(t: Token, a: Address, amount: int)
    ensures Amount([(ETH_TOKEN, [(Addr(ALICE), amount)])], t, a) == if t == ETH_TOKEN && a == Addr(ALICE) then amount else 0
  {
    var m := [(Addr(ALICE), amount)];
    if t == ETH_TOKEN { IndexIs([(ETH_TOKEN, m)], t, 0); }
    if a == Addr(ALICE) { IndexIs(m, a, 0); }
  }

  lemma WithdrawingWorks(c: StateChannel, amount: int)
    requires Ready(c) && BalanceOf(ENV, c, ETH_TOKEN, Addr(ALICE)) >= amount
    ensures Legal(ENV, c, Withdrawing(amount)) && Apply(ENV, c, Withdrawing(amount)).Ok?
    ensures var c' := Apply(ENV, c, Withdrawing(amount)).value;
            && c'.apps == Delete(c.apps, Hash(c.numProposedApps)) && c'.proposals == Delete(c.proposals, Hash(c.numProposedApps))
  {
    WithdrawEffect(ENV, c, Withdrawing(amount).withdrawal, Addr(ALICE), ETH_TOKEN, Addr(ALICE));
  }

  // ---- Runs -----------------------------------------------------------------------------------

  /** The channel can be reached from setup by legal transitions. */
  ghost predicate Reached(c: StateChannel, ops: seq<Op>) {
    AllLegal(ENV, Fresh(), ops) && Run(ENV, Fresh(), ops) == c
  }

  lemma ReachedMore(c: StateChannel, ops: seq<Op>, op: Op)
    requires Reached(c, ops) && Legal(ENV, c, op)
    ensures Reached(After(ENV, c, op), ops + [op])
  {
    assert (ops + [op])[..|ops|] == ops;
  }

  lemma Proposed(c: StateChannel, ops: seq<Op>, deposit: int) returns (c': StateChannel)
    requires Reached(c, ops) && Ready(c)
    ensures c' == After(ENV, c, Proposing(deposit)) && Reached(c', ops + [Proposing(deposit)]) && Ready(c')
    ensures c'.numProposedApps == c.numProposedApps + 1 && Offered(c', Hash(c'.numProposedApps), deposit)
    ensures Get(c'.proposals, Hash(c'.numProposedApps)).appSeqNo == c'.numProposedApps
    ensures BalanceOf(ENV, c', ETH_TOKEN, Addr(ALICE)) == BalanceOf(ENV, c, ETH_TOKEN, Addr(ALICE))
  {
    ProposingWorks(c, deposit);
    ReachedMore(c, ops, Proposing(deposit));
    c' := After(ENV, c, Proposing(deposit));
  }

  lemma Installed(c: StateChannel, ops: seq<Op>, h: AppIdHash, deposit: int) returns (c': StateChannel)
    requires Reached(c, ops) && Ready(c) && Offered(c, h, deposit) && BalanceOf(ENV, c, ETH_TOKEN, Addr(ALICE)) >= deposit
    ensures Apply(ENV, c, Install(h)) == Ok(c') && Legal(ENV, c, Install(h)) && Reached(c', ops + [Install(h)]) && Ready(c')
    ensures c'.numProposedApps == c.numProposedApps && Has(c'.apps, h) && Get(c'.apps, h).IdentityHash() == h
    ensures c'.proposals == Delete(c.proposals, h)
    ensures BalanceOf(ENV, c', ETH_TOKEN, Addr(ALICE)) == BalanceOf(ENV, c, ETH_TOKEN, Addr(ALICE)) - deposit
  {
    InstallingWorks(c, h, deposit);
    ReachedMore(c, ops, Install(h));
    c' := Apply(ENV, c, Install(h)).value;
  }

  /** Alice's deposit of ten has been installed as an app and paid out to her. */
  const FUNDING: seq<Op> := [] + [Proposing(0)] + [Install(Hash(2))] + [Paying(2, 10)]

  lemma Funded() returns (c: StateChannel)
    ensures Reached(c, FUNDING) && Ready(c) && c.numProposedApps == 2
    ensures BalanceOf(ENV, c, ETH_TOKEN, Addr(ALICE)) >= 10
  {
    FreshIsReady();
    BalanceNonNegative(ENV, Fb(ENV, Fresh()), ETH_TOKEN, Addr(ALICE));
    var c1 := Proposed(Fresh(), [], 0);
    var c2 := Installed(c1, [] + [Proposing(0)], Hash(2), 0);
    PayingWorks(c2, 2, 10);
    ReachedMore(c2, [] + [Proposing(0)] + [Install(Hash(2))], Paying(2, 10));
    c := After(ENV, c2, Paying(2, 10));
  }

  // ---- A withdrawal drops the latest proposal -------------------------------------------------

  /** Setup, a deposit, a proposal, and a withdrawal of one: the proposal is gone. */
  lemma WithdrawalDropsAProposal() returns (c: StateChannel)
    ensures Reached(c, FUNDING + [Proposing(4)]) && Has(c.proposals, Hash(3))
    ensures Apply(ENV, c, Withdrawing(1)).Ok? && !Has(Apply(ENV, c, Withdrawing(1)).value.proposals, Hash(3))
  {
    var c0 := Funded();
    c := Proposed(c0, FUNDING, 4);
    WithdrawingWorks(c, 1);
    DeleteGet(c.proposals, Hash(3), Hash(3));
  }

  // ---- A withdrawal loses the deposits of the latest app ---------------------------------------

  /** The ledger of a channel reached from setup, with nothing locked at the start. */
  ghost function BooksOf(ops: seq<Op>): Ledger {
    Books(ENV, Fresh(), ops, ETH_TOKEN, Ledger([], 0))
  }

  /**
   Setup, a deposit, a proposal, its install with four of the deposit, and a withdrawal of one: the app
   and its four are gone, and the channel accounts for four less.
   */
  lemma WithdrawalLosesFunds() returns (c: StateChannel)
    ensures Reached(c, FUNDING + [Proposing(4)] + [Install(Hash(3))]) && Has(c.apps, Hash(3))
    ensures var l := BooksOf(FUNDING + [Proposing(4)] + [Install(Hash(3))]);
            var c', l' := After(ENV, c, Withdrawing(1)), Booked(ENV, c, l, Withdrawing(1), ETH_TOKEN);
            && Apply(ENV, c, Withdrawing(1)).Ok? && !Has(c'.apps, Hash(3))
            && Accounted(ENV, c', l', ETH_TOKEN) == Accounted(ENV, c, l, ETH_TOKEN) - 4
  {
    var c0 := Funded();
    var ops := FUNDING + [Proposing(4)];
    var c1 := Proposed(c0, FUNDING, 4);
    c := Installed(c1, ops, Hash(3), 4);
    LedgerOf(c1, ops);
    WithdrawingWorks(c, 1);
    OfferTakes(c1, Hash(3), 4);
    assert (ops + [Install(Hash(3))])[..|ops|] == ops;
    EnvIsValid();
    InstallAccounts(ENV, c1, BooksOf(ops), Hash(3), ETH_TOKEN);
    WithdrawAfterInstallLoses(ENV, c1, BooksOf(ops), Hash(3), Withdrawing(1).withdrawal, ETH_TOKEN);
  }

  lemma LedgerOf(c: StateChannel, ops: seq<Op>)
    requires Reached(c, ops)
    ensures LedgerFits(c, BooksOf(ops))
  {
    EnvIsValid();
    FreshIsReady();
    FundsAreAccountedFor(ENV, Fresh(), ops, ETH_TOKEN, Ledger([], 0));
  }

  // ---- An install signs for another app -------------------------------------------------------

  /** Setup, two proposals, the second installed and then the first: what is signed is for the second. */
  lemma InstallSignsForAnotherApp() returns (c: StateChannel)
    ensures Reached(c, [] + [Proposing(0)] + [Proposing(0)] + [Install(Hash(3))])
    ensures Apply(ENV, c, Install(Hash(2))).Ok?
    ensures var signed := ConditionalTransaction(ENV, Apply(ENV, c, Install(Hash(2))).value);
            signed.ConditionalTransactionDigest? && signed.app != Hash(2)
  {
    FreshIsReady();
    BalanceNonNegative(ENV, Fb(ENV, Fresh()), ETH_TOKEN, Addr(ALICE));
    var c1 := Proposed(Fresh(), [], 0);
    var c2 := Proposed(c1, [] + [Proposing(0)], 0);
    ProposingKeepsOthers(c1, 0, Hash(2));
    c := Installed(c2, [] + [Proposing(0)] + [Proposing(0)], Hash(3), 0);
    DeleteGet(c2.proposals, Hash(3), Hash(2));
    InstallingWorks(c, Hash(2), 0);
    InstallSignsForItsAppIff(ENV, c, Hash(2));
    HigherInstalled(c);
  }

  lemma HigherInstalled(c: StateChannel)
    requires Ready(c) && Has(c.apps, Hash(3))
    ensures exists i :: 0 <= i < |c.apps| && c.apps[i].1.appSeqNo == 3
  {
    var i := IndexOf(c.apps, Hash(3));
    assert AppOk(ENV, c, c.apps[i].0, c.apps[i].1);
  }

  // ---- A token key that is not checksummed ----------------------------------------------------

  lemma NewTokenIsAppended(fb: FreeBalance, token: Token, a: Address, amount: int)
    requires !Has(fb.balances, token) && amount >= 0
    ensures IncrementToken(fb, token, [(a, amount)]) == Ok(fb.(balances := fb.balances + [(token, [CoinTransfer(a, amount)])]))
  {
    assert AsEntries([]) == [] && ToMap([]) == [];
    var m := [(a, amount)];
    assert m[..0] == [] && Merge([], []) == [];
    assert Merge([], m) == [(a, amount)];
    assert ToList(m) == [CoinTransfer(a, amount)];
  }

  lemma TwoTokens(fb: FreeBalance, a: Address)
    requires !Has(fb.balances, 6) && !Has(fb.balances, 5)
    ensures Incremented(fb, [(6, [(a, 1)]), (5, [(a, 9)])])
         == Ok(fb.(balances := fb.balances + [(6, [CoinTransfer(a, 1)])] + [(5, [CoinTransfer(a, 9)])]))
  {
    var incs, one := [(6, [(a, 1)]), (5, [(a, 9)])], [(6, [(a, 1)])];
    assert incs[..1] == one && one[..0] == [];
    NewTokenIsAppended(fb, 6, a, 1);
    var fb1 := fb.(balances := fb.balances + [(6, [CoinTransfer(a, 1)])]);
    assert Incremented(fb, one) == Ok(fb1);
    assert !Has(fb1.balances, 5);
    NewTokenIsAppended(fb1, 5, a, 9);
  }

  lemma OverwritesLast(b: Entries<Token, seq<CoinTransfer>>, before: seq<CoinTransfer>, l: seq<CoinTransfer>)
    requires Unique(b) && !Has(b, 6)
    ensures FromEntries(b + [(6, before)] + [(6, l)]) == b + [(6, l)]
  {
    var both := b + [(6, before)];
    FromEntriesOfUnique(both);
    assert (both + [(6, l)])[..|both|] == both;
    IndexIs(both, 6, |b|);
    assert Set(both, 6, l) == b + [(6, l)];
  }

  lemma RenamedTokenOverwrites(fb: FreeBalance, a: Address)
    requires NoRepeats(fb) && Checksummed(ENV, fb) && !Has(fb.balances, 6)
    ensures var r := fb.(balances := fb.balances + [(6, [CoinTransfer(a, 1)])] + [(5, [CoinTransfer(a, 9)])]);
            Deserialize(ENV, Serialize(r)) == Ok(fb.(balances := fb.balances + [(6, [CoinTransfer(a, 9)])]))
  {
    var r := fb.(balances := fb.balances + [(6, [CoinTransfer(a, 1)])] + [(5, [CoinTransfer(a, 9)])]);
    var s, n := TokenEntries(ENV, Serialize(r)), |fb.balances|;
    assert s == fb.balances + [(6, [CoinTransfer(a, 1)])] + [(6, [CoinTransfer(a, 9)])];
    OverwritesLast(fb.balances, [CoinTransfer(a, 1)], [CoinTransfer(a, 9)]);
    DistinctKeysOfDistinct(fb.activeApps);
  }

  /**
   A channel fresh from setup, credited with one of token 6 and nine of token 5: the transition succeeds,
   and the next read finds nothing of token 5 and nine of token 6, so that one is lost.
   */
  lemma RenamedTokenLoses()
    ensures var a, c := Addr(ALICE), Fresh();
            var r := c.IncrementFreeBalance(ENV, [(6, [(a, 1)]), (5, [(a, 9)])]);
            && c.GetFreeBalance(ENV).Ok? && r.Ok? && r.value.GetFreeBalance(ENV).Ok?
            && Incremented(c.GetFreeBalance(ENV).value, [(6, [(a, 1)]), (5, [(a, 9)])]).Ok?
            && r.value.GetFreeBalance(ENV).value != Incremented(c.GetFreeBalance(ENV).value, [(6, [(a, 1)]), (5, [(a, 9)])]).value
            && r.value.GetFreeBalance(ENV).value.balances == c.GetFreeBalance(ENV).value.balances + [(6, [CoinTransfer(a, 9)])]
  {
    var a, c := Addr(ALICE), Fresh();
    FreshIsReady();
    var fb := Fb(ENV, c);
    ReadsWhatItHolds(ENV, c, fb);
    FreshHasOnlyEther();
    TwoTokens(fb, a);
    RenamedTokenOverwrites(fb, a);
    var written := Incremented(fb, [(6, [(a, 1)]), (5, [(a, 9)])]).value;
    assert |written.balances| == |fb.balances| + 2;
  }

  lemma FreshHasOnlyEther()
    requires Ready(Fresh())
    ensures !Has(Fb(ENV, Fresh()).balances, 6) && !Has(Fb(ENV, Fresh()).balances, 5)
  {
    var json := Fresh().freeBalanceApp.value.latestState.json;
    assert Fb(ENV, Fresh()).balances == FromEntries(TokenEntries(ENV, json));
    var s := TokenEntries(ENV, json);
    assert |s| == 1 && s[0].0 == ETH_TOKEN && s[..0] == [];
  }

  // ---- An outcome that names one recipient twice ----------------------------------------------

  /** Five and seven to Alice, out of twelve that were locked: seven are paid. */
  lemma RepeatedRecipientLoses()
    ensures var r := OutcomeIncrements(SingleAssetTwoPartyCoinTransfer, SingleAssetParams(12, ETH_TOKEN),
                                       SingleAssetOutcome(CoinTransfer(Addr(ALICE), 5), CoinTransfer(Addr(ALICE), 7)));
            r.Ok? && Sum(r.value, ETH_TOKEN) == 7
  {
    var a := Addr(ALICE);
    var both, m := [(a, 5), (a, 7)], FromEntries([(a, 5), (a, 7)]);
    assert both[..1] == [(a, 5)] && [(a, 5)][..0] == [];
    assert FromEntries([(a, 5)]) == [(a, 5)];
    IndexIs([(a, 5)], a, 0);
    assert m == [(a, 7)];
    SingleTotal(a, 7);
    IndexIs([(ETH_TOKEN, m)], ETH_TOKEN, 0);
  }
}
