/** Numbering of proposals and apps in a direct channel, and what a withdrawal does to it. */
module Withdrawals {
  import opened OrderedMaps
  import opened Models
  import opened FreeBalances
  import opened StateChannels
  import opened DirectTransitions

  /** The identity an app with this sequence number has in the channel. */
  function HashFor(env: Environment, c: StateChannel, seqNo: nat): AppIdHash {
    AppIdHash(seqNo, c.SigningKeysFor(env, seqNo))
  }

  ghost predicate AppOk(env: Environment, c: StateChannel, h: AppIdHash, app: AppInstance) {
    h == app.IdentityHash() == HashFor(env, c, app.appSeqNo) && app.appSeqNo <= c.numProposedApps && !app.isVirtualApp
  }

  ghost predicate ProposalOk(env: Environment, c: StateChannel, h: AppIdHash, p: Proposal) {
    h == p.identityHash == HashFor(env, c, p.appSeqNo) && p.appSeqNo <= c.numProposedApps
  }

  /**
   Sequence numbers never exceed the counter, every app and proposal is stored under its own
   identity hash, and no hash is both proposed and installed.
   */
  ghost predicate Numbered(env: Environment, c: StateChannel) {
    && Unique(c.apps) && Unique(c.proposals)
    && (forall i :: 0 <= i < |c.apps| ==> AppOk(env, c, c.apps[i].0, c.apps[i].1))
    && (forall i :: 0 <= i < |c.proposals| ==> ProposalOk(env, c, c.proposals[i].0, c.proposals[i].1))
    && (forall h :: !(Has(c.apps, h) && Has(c.proposals, h)))
  }

  lemma {:induction false} MostRecentIsMax(apps: Entries<AppIdHash, AppInstance>)
    requires apps != []
    ensures forall i :: 0 <= i < |apps| ==> apps[i].1.appSeqNo <= MostRecentApp(apps).appSeqNo
    ensures exists i :: 0 <= i < |apps| && apps[i].1 == MostRecentApp(apps)
  {
    if |apps| == 1 {
      assert apps[0].1 == MostRecentApp(apps);
    } else {
      var p, last := apps[..|apps| - 1], apps[|apps| - 1].1;
      MostRecentIsMax(p);
      forall i | 0 <= i < |apps| ensures apps[i].1.appSeqNo <= MostRecentApp(apps).appSeqNo {
        if i < |p| { assert p[i].1.appSeqNo <= MostRecentApp(p).appSeqNo; }
      }
      var i :| 0 <= i < |p| && p[i].1 == MostRecentApp(p);
      var k := if last.appSeqNo > p[i].1.appSeqNo then |p| else i;
      assert apps[k].1 == MostRecentApp(apps);
    }
  }

  lemma {:induction false} MostRecentProposalIsMax(proposals: Entries<AppIdHash, Proposal>, k: nat)
    requires k < |proposals|
    requires forall i :: 0 <= i < |proposals| && i != k ==> proposals[i].1.appSeqNo < proposals[k].1.appSeqNo
    ensures MostRecentProposal(proposals) == proposals[k].1
  {
    if |proposals| > 1 {
      var p := proposals[..|proposals| - 1];
      if k < |p| {
        MostRecentProposalIsMax(p, k);
      } else {
        MostRecentProposalOf(p);
      }
    }
  }

  lemma {:induction false} MostRecentProposalOf(proposals: Entries<AppIdHash, Proposal>)
    requires proposals != []
    ensures exists i :: 0 <= i < |proposals| && proposals[i].1 == MostRecentProposal(proposals)
  {
    if |proposals| == 1 {
      assert proposals[0].1 == MostRecentProposal(proposals);
    } else {
      var p := proposals[..|proposals| - 1];
      MostRecentProposalOf(p);
      var i :| 0 <= i < |p| && p[i].1 == MostRecentProposal(p);
      assert proposals[if proposals[|p|].1.appSeqNo > p[i].1.appSeqNo then |p| else i].1 == MostRecentProposal(proposals);
    }
  }

  /** The refund app's hash: the one the latest proposal had. */
  function RefundHash(env: Environment, c: StateChannel): AppIdHash {
    HashFor(env, c, c.numProposedApps)
  }

  lemma OnlyMaxIsMostRecent(apps: Entries<AppIdHash, AppInstance>, k: nat)
    requires k < |apps|
    requires forall i :: 0 <= i < |apps| && i != k ==> apps[i].1.appSeqNo < apps[k].1.appSeqNo
    ensures MostRecentApp(apps) == apps[k].1
  {
    MostRecentIsMax(apps);
    var i :| 0 <= i < |apps| && apps[i].1 == MostRecentApp(apps);
  }

  /** Of the apps with the refund app among them, it is the one with the largest number. */
  lemma RefundAppIsMax(env: Environment, c: StateChannel, refund: AppInstance)
    requires Numbered(env, c) && refund.appSeqNo == c.numProposedApps && refund.IdentityHash() == RefundHash(env, c)
    ensures var apps := Set(c.apps, RefundHash(env, c), refund); apps != [] && MostRecentApp(apps) == refund
  {
    var h := RefundHash(env, c);
    var k, apps := IndexOf(c.apps, h), Set(c.apps, h, refund);
    forall i | 0 <= i < |apps| && i != k ensures apps[i].1.appSeqNo < c.numProposedApps {
      assert AppOk(env, c, c.apps[i].0, c.apps[i].1);
      assert c.apps[i].0 != h;
    }
    OnlyMaxIsMostRecent(apps, k);
  }

  lemma RefundAppIsMostRecent(env: Environment, c: StateChannel, p: WithdrawParams)
    requires Numbered(env, c) && AddRefundApp(env, c, p).Ok?
    ensures var c1 := AddRefundApp(env, c, p).value;
            && c1.apps != [] && c1.MostRecentlyInstalled() == RefundApp(env, c, p)
            && RefundApp(env, c, p).IdentityHash() == RefundHash(env, c)
  {
    AddRefundAppInstalls(env, c, p);
    RefundAppIsMax(env, c, RefundApp(env, c, p));
  }

  lemma RefundAppKeepsOwners(env: Environment, c: StateChannel, p: WithdrawParams)
    requires AddRefundApp(env, c, p).Ok?
    ensures var c1 := AddRefundApp(env, c, p).value;
            c1.freeBalanceApp.Some? && c1.multisigAddress == c.multisigAddress && c1.xpubs == c.xpubs
  {
    var h := RefundApp(env, c, p).IdentityHash();
    var proposals := if Has(c.proposals, h) then c.RemoveProposal(h).proposals else c.proposals;
    ActivatingChangesOnlyFreeBalance(env, c.(apps := Set(c.apps, h, RefundApp(env, c, p)), proposals := proposals), h,
      FlipTokenIndexed([(p.token, [(c.FreeBalanceAddrOf(env, p.initiatorXpub).value, p.amount)])]));
  }

  lemma SignedForMostRecent(env: Environment, c: StateChannel, d: StateChannel, app: AppInstance)
    requires d.apps != [] && d.freeBalanceApp.Some? && d.MostRecentlyInstalled() == app
    requires d.multisigAddress == c.multisigAddress && d.xpubs == c.xpubs
    ensures var signed := ConditionalTransaction(env, d);
            && signed.ConditionalTransactionDigest? && signed.app == app.IdentityHash() && signed.params == app.params
            && signed.multisig == c.multisigAddress && signed.owners == c.MultisigOwners(env)
  {
  }

  /**
   The refund app whose conditional transaction is signed guards exactly the withdrawal that is signed:
   the same recipient, wallet, amount and token.
   */
  lemma RefundGuardsTheWithdrawal(env: Environment, c: StateChannel, p: WithdrawParams)
    requires Numbered(env, c) && AddRefundApp(env, c, p).Ok? && c.freeBalanceApp.Some? && p.multisigAddress == c.multisigAddress
    ensures var c1, w := AddRefundApp(env, c, p).value, WithdrawalCommitment(env, c, p);
            var signed := ConditionalTransaction(env, c1);
            && signed.ConditionalTransactionDigest? && w.WithdrawalDigest?
            && signed.app == RefundHash(env, c) && signed.multisig == w.multisig && signed.owners == w.owners
            && Has(c1.apps, signed.app) && Get(c1.apps, signed.app).latestState == RefundState(w.recipient, w.multisig, w.amount)
            && signed.params == SingleAssetParams(MAX_UINT256, w.token)
  {
    RefundAppIsMostRecent(env, c, p);
    RefundAppKeepsOwners(env, c, p);
    SignedForMostRecent(env, c, AddRefundApp(env, c, p).value, RefundApp(env, c, p));
    AddRefundAppInstalls(env, c, p);
    SetGet(c.apps, RefundHash(env, c), RefundApp(env, c, p), RefundHash(env, c));
  }

  /** The app that a withdrawal installs on the way: between the keys of the latest number, refunding what the wallet then lacks. */
  lemma RefundAppIs(env: Environment, c: StateChannel, p: WithdrawParams)
    requires Numbered(env, c) && AddRefundApp(env, c, p).Ok?
    ensures var c1, h := AddRefundApp(env, c, p).value, RefundHash(env, c);
            && Has(c1.apps, h)
            && var app := Get(c1.apps, h);
               && app.participants == c.SigningKeysFor(env, c.numProposedApps) && app.appSeqNo == c.numProposedApps && !app.isVirtualApp
               && app.appInterface == AppInterface(p.coinBalanceRefundApp, RefundEncoding)
               && app.latestVersionNumber == 0 && app.defaultTimeout == app.latestTimeout == 1008
               && app.outcomeType == SingleAssetTwoPartyCoinTransfer
  {
    AddRefundAppInstalls(env, c, p);
    SetGet(c.apps, RefundHash(env, c), RefundApp(env, c, p), RefundHash(env, c));
  }

  lemma DeleteSet<K, V>(m: Entries<K, V>, k: K, v: V)
    ensures Delete(Set(m, k, v), k) == Delete(m, k)
  {
    var i := IndexOf(m, k);
    IndexIs(Set(m, k, v), k, i);
  }

  /**
   A completed withdrawal lowers the initiator's balance by the amount in the withdrawal commitment
   and no other balance, moves the free balance four versions ahead, and removes whatever app and
   proposal are stored under the refund app's hash.
   */
  lemma WithdrawEffect(env: Environment, c: StateChannel, p: WithdrawParams, addr: Address, t: Token, a: Address)
    requires Direct(env, c) && Numbered(env, c) && env.checksum(p.token) == p.token
    requires c.FreeBalanceAddrOf(env, p.initiatorXpub) == Ok(addr)
    ensures var r := WithdrawTransition(env, c, p);
            && (r.Ok? <==> BalanceOf(env, c, p.token, addr) >= p.amount)
            && (r.Ok? ==>
                  && Direct(env, r.value) && Version(r.value) == Version(c) + 4
                  && BalanceOf(env, r.value, t, a) == BalanceOf(env, c, t, a)
                       - (if t == p.token && a == addr then WithdrawalCommitment(env, c, p).amount else 0)
                  && HeldBy(env, r.value, t) == HeldBy(env, c, t) - (if t == p.token then p.amount else 0)
                  && r.value == c.(freeBalanceApp := r.value.freeBalanceApp,
                                   apps := Delete(c.apps, RefundHash(env, c)),
                                   proposals := Delete(c.proposals, RefundHash(env, c)))
                  && r.value.freeBalanceApp.value.IdentityHash() == c.freeBalanceApp.value.IdentityHash()
                  && Fb(env, r.value).activeApps == RemoveActive(Fb(env, c).activeApps, RefundHash(env, c)))
  {
    var fb, refund, d := Fb(env, c), RefundApp(env, c, p), [(p.token, [(addr, p.amount)])];
    var h := refund.IdentityHash();
    InstallAppEffect(env, c, fb, refund, d);
    RefundAffordable(env, fb, p.token, addr, p.amount);
    if Incremented(fb, FlipTokenIndexed(d)).Ok? {
      RefundAppIsMostRecent(env, c, p);
      RefundAmounts(fb, p.token, addr, p.amount, t, a);
      var fb1 := Incremented(fb, FlipTokenIndexed(d)).value.(activeApps := AddActive(fb.activeApps, h));
      var c1 := AddRefundApp(env, c, p).value;
      SetGet(c.apps, h, refund, h);
      UninstallAppEffect(env, c1, fb1, h, []);
      DeleteSet(c.apps, h, refund);
      AddThenRemove(fb.activeApps, h);
      HoldsIsDirect(env, WithdrawTransition(env, c, p).value, fb1.(activeApps := RemoveActive(fb1.activeApps, h)));
    }
  }

  lemma {:induction false} AddThenRemove(active: seq<AppIdHash>, h: AppIdHash)
    ensures RemoveActive(AddActive(active, h), h) == RemoveActive(active, h)
  {
    if h !in active {
      RemoveLast(active, h);
      RemoveAbsent(active, h);
    }
  }

  lemma {:induction false} RemoveAbsent(active: seq<AppIdHash>, h: AppIdHash)
    requires h !in active
    ensures RemoveActive(active, h) == active
  {
    if active != [] {
      RemoveAbsent(active[1..], h);
    }
  }

  lemma SingleDecrement(token: Token, addr: Address, amount: int, t: Token, a: Address)
    ensures var d := FlipTokenIndexed([(token, [(addr, amount)])]);
            && UniqueIncrements(d)
            && Amount(d, t, a) == (if t == token && a == addr then -amount else 0)
            && Sum(d, t) == (if t == token then -amount else 0)
  {
    var m := [(addr, amount)];
    var d := [(token, m)];
    FlipTokens(d, t, a);
    FlipUnique(d);
    SingleTotal(addr, amount);
    if a == addr { IndexIs(m, a, 0); }
    if t == token { IndexIs(d, t, 0); }
  }

  lemma RefundAffordable(env: Environment, fb: FreeBalance, token: Token, addr: Address, amount: int)
    requires Canonical(env, fb) && env.checksum(token) == token
    ensures Incremented(fb, FlipTokenIndexed([(token, [(addr, amount)])])).Ok? <==> Balance(fb, token, addr) >= amount
  {
    var d := FlipTokenIndexed([(token, [(addr, amount)])]);
    SingleDecrement(token, addr, amount, token, addr);
    IncrementSucceedsIff(env, fb, d);
    forall t, a ensures Balance(fb, t, a) + Amount(d, t, a) == Balance(fb, t, a) - (if t == token && a == addr then amount else 0)
      ensures Balance(fb, t, a) >= 0
    {
      SingleDecrement(token, addr, amount, t, a);
      BalanceNonNegative(env, fb, t, a);
    }
    assert Balance(fb, token, addr) + Amount(d, token, addr) == Balance(fb, token, addr) - amount;
  }

  lemma RefundAmounts(fb: FreeBalance, token: Token, addr: Address, amount: int, t: Token, a: Address)
    requires Incremented(fb, FlipTokenIndexed([(token, [(addr, amount)])])).Ok?
    ensures var r := Incremented(fb, FlipTokenIndexed([(token, [(addr, amount)])])).value;
            && Balance(r, t, a) == Balance(fb, t, a) - (if t == token && a == addr then amount else 0)
            && Held(r, t) == Held(fb, t) - (if t == token then amount else 0)
  {
    SingleDecrement(token, addr, amount, t, a);
    IncrementEffect(fb, FlipTokenIndexed([(token, [(addr, amount)])]), t, a);
  }

  /** The latest proposal is neither pending nor installed. */
  ghost predicate LatestIsGone(c: StateChannel) {
    && (forall i :: 0 <= i < |c.apps| ==> c.apps[i].1.appSeqNo != c.numProposedApps)
    && (forall i :: 0 <= i < |c.proposals| ==> c.proposals[i].1.appSeqNo != c.numProposedApps)
  }

  lemma RefundHashTaken(env: Environment, c: StateChannel)
    requires Numbered(env, c)
    ensures Has(c.apps, RefundHash(env, c)) || Has(c.proposals, RefundHash(env, c)) <==> !LatestIsGone(c)
  {
    var h := RefundHash(env, c);
    if Has(c.apps, h) {
      var i := IndexOf(c.apps, h);
      assert AppOk(env, c, c.apps[i].0, c.apps[i].1);
    }
    if Has(c.proposals, h) {
      var i := IndexOf(c.proposals, h);
      assert ProposalOk(env, c, c.proposals[i].0, c.proposals[i].1);
    }
    forall i | 0 <= i < |c.apps| && c.apps[i].1.appSeqNo == c.numProposedApps ensures Has(c.apps, h) {
      assert AppOk(env, c, c.apps[i].0, c.apps[i].1);
      HasAt(c.apps, i);
    }
    forall i | 0 <= i < |c.proposals| && c.proposals[i].1.appSeqNo == c.numProposedApps ensures Has(c.proposals, h) {
      assert ProposalOk(env, c, c.proposals[i].0, c.proposals[i].1);
      HasAt(c.proposals, i);
    }
  }

  /**
   A withdrawal leaves installed apps and proposals alone exactly when the latest proposal is neither
   pending nor installed. Otherwise that app or proposal is dropped: the refund app reuses its
   sequence number and signing keys, and an app's hash covers nothing else.
   */
  lemma WithdrawKeepsAppsIff(env: Environment, c: StateChannel, p: WithdrawParams)
    requires Direct(env, c) && Numbered(env, c) && env.checksum(p.token) == p.token
    requires WithdrawTransition(env, c, p).Ok?
    ensures var r := WithdrawTransition(env, c, p).value;
            r.apps == c.apps && r.proposals == c.proposals <==> LatestIsGone(c)
  {
    WithdrawEffect(env, c, p, c.FreeBalanceAddrOf(env, p.initiatorXpub).value, 0, 0);
    RefundHashTaken(env, c);
  }

  // ---- Propose --------------------------------------------------------------------------------

  datatype ProposeParams = ProposeParams(
    initiatorXpub: Xpub,
    responderXpub: Xpub,
    appDefinition: Address,
    stateEncoding: StateEncoding,
    initiatorDeposit: int,
    initiatorToken: Option<Token>,
    responderDeposit: int,
    responderToken: Option<Token>,
    timeout: nat,
    initialState: AppState,
    outcomeType: OutcomeType)

  function TokenOr(t: Option<Token>): Token {
    if t.Some? then t.value else ETH_TOKEN
  }

  /** The proposal as the initiator stores it. */
  function InitiatorProposal(env: Environment, c: StateChannel, p: ProposeParams): Proposal {
    Proposal(HashFor(env, c, c.numProposedApps + 1), p.appDefinition, p.stateEncoding,
             p.initiatorDeposit, TokenOr(p.initiatorToken), p.responderDeposit, TokenOr(p.responderToken),
             p.timeout, p.initialState, c.numProposedApps + 1, p.initiatorXpub, p.responderXpub, p.outcomeType)
  }

  /** The responder stores the two deposits mirrored. */
  function ResponderProposal(env: Environment, c: StateChannel, p: ProposeParams): Proposal {
    Proposal(HashFor(env, c, c.numProposedApps + 1), p.appDefinition, p.stateEncoding,
             p.responderDeposit, TokenOr(p.responderToken), p.initiatorDeposit, TokenOr(p.initiatorToken),
             p.timeout, p.initialState, c.numProposedApps + 1, p.initiatorXpub, p.responderXpub, p.outcomeType)
  }

  /** The app that installing a proposal installs, as the party who was proposed to starts it. */
  function InstallParamsOf(env: Environment, c: StateChannel, p: Proposal): InstallParams {
    InstallParams(p.proposedTo, p.proposedBy, c.SigningKeysFor(env, p.appSeqNo), p.initialState,
                  AppInterface(p.appDefinition, p.stateEncoding), p.timeout, p.appSeqNo, p.outcomeType,
                  p.initiatorDeposit, p.responderDeposit, p.initiatorDepositToken, p.responderDepositToken, false)
  }

  /**
   Proposed and then installed from the mirrored copy: each side pays the deposit that the proposal
   named for it, in the token named for it.
   */
  lemma ProposedDepositsAreTaken(env: Environment, c0: StateChannel, c: StateChannel, p: ProposeParams, i: Address, r: Address, t: Token, a: Address)
    requires var q := InstallParamsOf(env, c, ResponderProposal(env, c0, p));
             Direct(env, c) && InstallTransition(env, c, q).Ok?
    requires i != r && c.FreeBalanceAddrOf(env, p.initiatorXpub) == Ok(i) && c.FreeBalanceAddrOf(env, p.responderXpub) == Ok(r)
    requires env.checksum(TokenOr(p.initiatorToken)) == TokenOr(p.initiatorToken)
    requires env.checksum(TokenOr(p.responderToken)) == TokenOr(p.responderToken)
    ensures var c' := InstallTransition(env, c, InstallParamsOf(env, c, ResponderProposal(env, c0, p))).value;
            && Direct(env, c')
            && BalanceOf(env, c', t, a) == BalanceOf(env, c, t, a)
                 - (if t == TokenOr(p.initiatorToken) && a == i then p.initiatorDeposit else 0)
                 - (if t == TokenOr(p.responderToken) && a == r then p.responderDeposit else 0)
  {
    InstallMovesDeposits(env, c, InstallParamsOf(env, c, ResponderProposal(env, c0, p)), r, i, t, a);
  }
}
