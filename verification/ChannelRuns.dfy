/** Whole runs of a direct channel: what every sequence of transitions keeps. */
module ChannelRuns {
  import opened OrderedMaps
  import Sorting
  import opened Models
  import opened FreeBalances
  import opened StateChannels
  import opened DirectTransitions
  import opened Withdrawals

  datatype Op =
    | Propose(proposal: ProposeParams, initiating: bool)
    | Reject(h: AppIdHash)
    | Install(h: AppIdHash)
    | Uninstall(h: AppIdHash, payout: TokenIndexedCoinTransferMap)
    | UpdateState(h: AppIdHash, state: AppState)
    | AddAgreement(users: (Xpub, Xpub), seqNo: nat, agreement: Agreement, decrements: CoinTransferMap, token: Token)
    | RemoveAgreement(h: AppIdHash, increments: CoinTransferMap, token: Token)
    | Withdraw(withdrawal: WithdrawParams)

  /** The identity of an app between two users, as an agreement refers to it. */
  function VirtualHash(env: Environment, users: (Xpub, Xpub), seqNo: nat): AppIdHash {
    AppIdHash(seqNo, env.SortedKthAddresses([users.0, users.1], seqNo))
  }

  function ProposalOf(env: Environment, c: StateChannel, p: ProposeParams, initiating: bool): Proposal {
    if initiating then InitiatorProposal(env, c, p) else ResponderProposal(env, c, p)
  }

  /** A transition either fails, leaving the channel as it is, or gives the next channel. */
  function Apply(env: Environment, c: StateChannel, op: Op): Result<StateChannel> {
    match op
    case Propose(p, initiating) => Ok(c.AddProposal(ProposalOf(env, c, p, initiating)))
    case Reject(h) => Ok(c.RemoveProposal(h))
    case Install(h) =>
      if Has(c.proposals, h) then InstallTransition(env, c, InstallParamsOf(env, c, Get(c.proposals, h)))
      else Err(AppDoesNotExist)
    case Uninstall(h, payout) => c.UninstallApp(env, h, payout)
    case UpdateState(h, state) => c.SetState(h, state)
    case AddAgreement(users, seqNo, agreement, decrements, token) =>
      c.AddAgreement(env, VirtualHash(env, users, seqNo), agreement, decrements, token)
    case RemoveAgreement(h, increments, token) => c.RemoveAgreement(env, h, increments, token)
    case Withdraw(p) => WithdrawTransition(env, c, p)
  }

  function After(env: Environment, c: StateChannel, op: Op): StateChannel {
    match Apply(env, c, op) case Ok(c') => c' case Err(_) => c
  }

  function Run(env: Environment, c: StateChannel, ops: seq<Op>): StateChannel {
    if ops == [] then c else After(env, Run(env, c, ops[..|ops| - 1]), ops[|ops| - 1])
  }

  /** Token keys are checksummed, no key repeats, and agreements are for apps with a user outside the channel. */
  ghost predicate Legal(env: Environment, c: StateChannel, op: Op) {
    match op
    case Install(h) =>
      Has(c.proposals, h) ==>
        var p := Get(c.proposals, h);
        && env.checksum(p.initiatorDepositToken) == p.initiatorDepositToken
        && env.checksum(p.responderDepositToken) == p.responderDepositToken
    case Uninstall(_, payout) => ChecksummedIncrements(env, payout) && UniqueIncrements(payout)
    case AddAgreement(users, _, _, decrements, token) =>
      && env.checksum(token) == token && Unique(decrements)
      && users.0 != users.1 && !(users.0 in c.xpubs && users.1 in c.xpubs)
    case RemoveAgreement(_, increments, token) => env.checksum(token) == token && Unique(increments)
    case Withdraw(p) => env.checksum(p.token) == p.token
    case _ => true
  }

  ghost predicate AllLegal(env: Environment, c: StateChannel, ops: seq<Op>) {
    ops == [] || (AllLegal(env, c, ops[..|ops| - 1]) && Legal(env, Run(env, c, ops[..|ops| - 1]), ops[|ops| - 1]))
  }

  /** The hash does not belong to an app between this channel's own users. */
  predicate Foreign(env: Environment, c: StateChannel, h: AppIdHash) {
    h != HashFor(env, c, h.channelNonce)
  }

  ghost predicate AgreementsForeign(env: Environment, c: StateChannel) {
    Unique(c.agreements) && forall h :: Has(c.agreements, h) ==> Foreign(env, c, h)
  }

  /** The free balance's active apps are the installed apps and the agreements' targets. */
  ghost predicate IndexAgrees(env: Environment, c: StateChannel) {
    forall h :: h in Fb(env, c).activeApps <==> Has(c.apps, h) || Has(c.agreements, h)
  }

  ghost predicate ChannelOk(env: Environment, c: StateChannel) {
    Direct(env, c) && Numbered(env, c) && AgreementsForeign(env, c) && IndexAgrees(env, c)
  }

  lemma OwnAppsAreNotForeign(env: Environment, c: StateChannel, h: AppIdHash)
    requires Numbered(env, c) && (Has(c.apps, h) || Has(c.proposals, h))
    ensures !Foreign(env, c, h)
  {
    if Has(c.apps, h) {
      var i := IndexOf(c.apps, h);
      assert AppOk(env, c, c.apps[i].0, c.apps[i].1);
    } else {
      var i := IndexOf(c.proposals, h);
      assert ProposalOk(env, c, c.proposals[i].0, c.proposals[i].1);
    }
  }

  lemma VirtualIsForeign(env: Environment, c: StateChannel, users: (Xpub, Xpub), seqNo: nat)
    requires env.Valid() && !(users.0 in c.xpubs && users.1 in c.xpubs)
    ensures Foreign(env, c, VirtualHash(env, users, seqNo))
  {
    var theirs, ours := env.KthAddresses([users.0, users.1], seqNo), env.KthAddresses(c.xpubs, seqNo);
    Sorting.SortSorts(env.rank, theirs);
    Sorting.SortSorts(env.rank, ours);
    var u := if users.0 in c.xpubs then users.1 else users.0;
    assert theirs[if users.0 in c.xpubs then 1 else 0] == env.kth(u, seqNo);
    assert env.kth(u, seqNo) in multiset(theirs) && env.kth(u, seqNo) !in ours;
    assert env.kth(u, seqNo) !in multiset(ours);
  }

  // ---- Numbering ------------------------------------------------------------------------------

  lemma NumberedFrame(env: Environment, c: StateChannel, c': StateChannel)
    requires Numbered(env, c) && c'.apps == c.apps && c'.proposals == c.proposals
    requires c'.xpubs == c.xpubs && c'.numProposedApps >= c.numProposedApps
    ensures Numbered(env, c')
  {
    forall i | 0 <= i < |c'.apps| ensures AppOk(env, c', c'.apps[i].0, c'.apps[i].1) {
      assert AppOk(env, c, c.apps[i].0, c.apps[i].1);
    }
    forall i | 0 <= i < |c'.proposals| ensures ProposalOk(env, c', c'.proposals[i].0, c'.proposals[i].1) {
      assert ProposalOk(env, c, c.proposals[i].0, c.proposals[i].1);
    }
  }

  lemma NumberedDelete(env: Environment, c: StateChannel, h: AppIdHash, k: AppIdHash)
    requires Numbered(env, c)
    ensures Numbered(env, c.(apps := Delete(c.apps, h), proposals := Delete(c.proposals, k)))
  {
    var c' := c.(apps := Delete(c.apps, h), proposals := Delete(c.proposals, k));
    var n, m := IndexOf(c.apps, h), IndexOf(c.proposals, k);
    forall i | 0 <= i < |c'.apps| ensures AppOk(env, c', c'.apps[i].0, c'.apps[i].1) {
      var j := if i < n then i else i + 1;
      assert AppOk(env, c, c.apps[if |c'.apps| == |c.apps| then i else j].0, c.apps[if |c'.apps| == |c.apps| then i else j].1);
    }
    forall i | 0 <= i < |c'.proposals| ensures ProposalOk(env, c', c'.proposals[i].0, c'.proposals[i].1) {
      var j := if |c'.proposals| == |c.proposals| || i < m then i else i + 1;
      assert ProposalOk(env, c, c.proposals[j].0, c.proposals[j].1);
    }
    forall x ensures !(Has(c'.apps, x) && Has(c'.proposals, x)) {
      DeleteGet(c.apps, h, x);
      DeleteGet(c.proposals, k, x);
    }
  }

  lemma NumberedInstall(env: Environment, c: StateChannel, h: AppIdHash, app: AppInstance)
    requires Numbered(env, c) && AppOk(env, c, h, app) && (Has(c.apps, h) || Has(c.proposals, h))
    ensures Numbered(env, c.(apps := Set(c.apps, h, app), proposals := Delete(c.proposals, h)))
  {
    var c1 := c.(proposals := Delete(c.proposals, h));
    var c' := c1.(apps := Set(c.apps, h, app));
    NumberedDelete(env, c.(apps := []), h, h);
    forall i | 0 <= i < |c'.apps| ensures AppOk(env, c', c'.apps[i].0, c'.apps[i].1) {
      if i < |c.apps| { assert AppOk(env, c, c.apps[i].0, c.apps[i].1); }
    }
    forall i | 0 <= i < |c'.proposals| ensures ProposalOk(env, c', c'.proposals[i].0, c'.proposals[i].1) {
      assert ProposalOk(env, c1.(apps := []), c'.proposals[i].0, c'.proposals[i].1);
    }
    forall x ensures !(Has(c'.apps, x) && Has(c'.proposals, x)) {
      SetGet(c.apps, h, app, x);
      DeleteGet(c.proposals, h, x);
    }
  }

  lemma NumberedPropose(env: Environment, c: StateChannel, p: Proposal)
    requires Numbered(env, c) && p.appSeqNo == c.numProposedApps + 1 && p.identityHash == HashFor(env, c, p.appSeqNo)
    ensures Numbered(env, c.AddProposal(p))
    ensures !Has(c.apps, p.identityHash) && !Has(c.proposals, p.identityHash)
    ensures c.AddProposal(p).MostRecentlyProposed() == p
  {
    var c1, c' := c.(numProposedApps := c.numProposedApps + 1), c.AddProposal(p);
    NumberedFrame(env, c, c1);
    var h := p.identityHash;
    forall i | 0 <= i < |c.apps| ensures c.apps[i].0 != h {
      assert AppOk(env, c, c.apps[i].0, c.apps[i].1);
    }
    forall i | 0 <= i < |c.proposals| ensures c.proposals[i].0 != h && c.proposals[i].1.appSeqNo < p.appSeqNo {
      assert ProposalOk(env, c, c.proposals[i].0, c.proposals[i].1);
    }
    assert c'.proposals == c.proposals + [(h, p)];
    forall i | 0 <= i < |c'.apps| ensures AppOk(env, c', c'.apps[i].0, c'.apps[i].1) {
      assert AppOk(env, c1, c1.apps[i].0, c1.apps[i].1);
    }
    forall i | 0 <= i < |c'.proposals| ensures ProposalOk(env, c', c'.proposals[i].0, c'.proposals[i].1) {
      if i < |c.proposals| { assert ProposalOk(env, c1, c.proposals[i].0, c.proposals[i].1); }
    }
    forall x ensures !(Has(c'.apps, x) && Has(c'.proposals, x)) {
      SetGet(c.proposals, h, p, x);
    }
    MostRecentProposalIsMax(c'.proposals, |c.proposals|);
  }

  /**
   A new proposal takes a number above every other, under a hash that is in use nowhere, and is from
   then on the most recently proposed.
   */
  lemma ProposalIsFresh(env: Environment, c: StateChannel, p: ProposeParams, initiating: bool)
    requires Numbered(env, c)
    ensures var q, c' := ProposalOf(env, c, p, initiating), Apply(env, c, Propose(p, initiating)).value;
            && Numbered(env, c') && !Has(c.apps, q.identityHash) && !Has(c.proposals, q.identityHash)
            && (forall i :: 0 <= i < |c.proposals| ==> c.proposals[i].1.appSeqNo < q.appSeqNo)
            && c'.MostRecentlyProposed() == q
  {
    NumberedPropose(env, c, ProposalOf(env, c, p, initiating));
    forall i | 0 <= i < |c.proposals| ensures c.proposals[i].1.appSeqNo <= c.numProposedApps {
      assert ProposalOk(env, c, c.proposals[i].0, c.proposals[i].1);
    }
  }

  /** Pending proposals have pairwise different numbers. */
  lemma ProposalNumbersDiffer(env: Environment, c: StateChannel, i: nat, j: nat)
    requires Numbered(env, c) && i < j < |c.proposals|
    ensures c.proposals[i].1.appSeqNo != c.proposals[j].1.appSeqNo
  {
    assert ProposalOk(env, c, c.proposals[i].0, c.proposals[i].1);
    assert ProposalOk(env, c, c.proposals[j].0, c.proposals[j].1);
  }

  // ---- Each transition keeps the invariant ----------------------------------------------------

  lemma KeepsWithoutFreeBalance(env: Environment, c: StateChannel, c': StateChannel)
    requires ChannelOk(env, c) && Numbered(env, c')
    requires c' == c.(apps := c'.apps, proposals := c'.proposals, numProposedApps := c'.numProposedApps)
    requires forall h :: Has(c'.apps, h) <==> Has(c.apps, h)
    ensures ChannelOk(env, c')
  {
    assert Fb(env, c') == Fb(env, c);
    forall h | Has(c'.agreements, h) ensures Foreign(env, c', h) { assert Foreign(env, c, h); }
  }

  lemma UpdateKeeps(env: Environment, c: StateChannel, h: AppIdHash, state: AppState)
    requires ChannelOk(env, c) && c.SetState(h, state).Ok?
    ensures ChannelOk(env, c.SetState(h, state).value)
    ensures forall k :: Has(c.SetState(h, state).value.apps, k) ==> Get(c.SetState(h, state).value.apps, k).IdentityHash() == k
  {
    var c', n := c.SetState(h, state).value, IndexOf(c.apps, h);
    var app' := Get(c.apps, h).SetState(state).value;
    assert AppOk(env, c, c.apps[n].0, c.apps[n].1);
    forall i | 0 <= i < |c'.apps| ensures AppOk(env, c', c'.apps[i].0, c'.apps[i].1) {
      assert AppOk(env, c, c.apps[i].0, c.apps[i].1);
    }
    forall i | 0 <= i < |c'.proposals| ensures ProposalOk(env, c', c'.proposals[i].0, c'.proposals[i].1) {
      assert ProposalOk(env, c, c.proposals[i].0, c.proposals[i].1);
    }
    forall k ensures Has(c'.apps, k) <==> Has(c.apps, k) { SetGet(c.apps, h, app', k); }
    KeepsWithoutFreeBalance(env, c, c');
    forall k | Has(c'.apps, k) ensures Get(c'.apps, k).IdentityHash() == k {
      assert AppOk(env, c', k, Get(c'.apps, k));
    }
  }

  lemma RejectKeeps(env: Environment, c: StateChannel, h: AppIdHash)
    requires ChannelOk(env, c)
    ensures ChannelOk(env, c.RemoveProposal(h))
  {
    var c' := c.RemoveProposal(h);
    if Has(c.proposals, h) { NumberedDelete(env, c, h, h); }
    KeepsWithoutFreeBalance(env, c, c');
  }

  lemma ProposeKeeps(env: Environment, c: StateChannel, p: ProposeParams, initiating: bool)
    requires ChannelOk(env, c)
    ensures ChannelOk(env, After(env, c, Propose(p, initiating)))
  {
    NumberedPropose(env, c, ProposalOf(env, c, p, initiating));
    KeepsWithoutFreeBalance(env, c, After(env, c, Propose(p, initiating)));
  }

  /** A deposit is in ether unless a token is named. */
  predicate InToken(named: Option<Token>, t: Token) {
    match named case Some(token) => t == token case None => t == ETH_TOKEN
  }

  /** Either side stores the new proposal under the next number's hash, each with its own view of the two deposits. */
  lemma ProposeStores(env: Environment, c: StateChannel, p: ProposeParams, initiating: bool, k: AppIdHash)
    ensures var c', h := After(env, c, Propose(p, initiating)), HashFor(env, c, c.numProposedApps + 1);
            && c' == c.(proposals := c'.proposals, numProposedApps := c.numProposedApps + 1) && Has(c'.proposals, h)
            && (k != h ==> (Has(c'.proposals, k) <==> Has(c.proposals, k)) && (Has(c.proposals, k) ==> Get(c'.proposals, k) == Get(c.proposals, k)))
            && var q := Get(c'.proposals, h);
               && (q.initiatorDeposit, q.responderDeposit)
               == (if initiating then (p.initiatorDeposit, p.responderDeposit) else (p.responderDeposit, p.initiatorDeposit))
               && InToken(if initiating then p.initiatorToken else p.responderToken, q.initiatorDepositToken)
               && InToken(if initiating then p.responderToken else p.initiatorToken, q.responderDepositToken)
               && q.proposedBy == p.initiatorXpub && q.proposedTo == p.responderXpub
  {
    var h := HashFor(env, c, c.numProposedApps + 1);
    SetGet(c.proposals, h, ProposalOf(env, c, p, initiating), h);
    SetGet(c.proposals, h, ProposalOf(env, c, p, initiating), k);
  }

  /** A rejection removes exactly that proposal. */
  lemma RejectRemoves(env: Environment, c: StateChannel, h: AppIdHash, k: AppIdHash)
    requires Unique(c.proposals)
    ensures var c' := After(env, c, Reject(h));
            && c' == c.(proposals := c'.proposals)
            && (Has(c'.proposals, k) <==> k != h && Has(c.proposals, k))
            && (Has(c'.proposals, k) ==> Get(c'.proposals, k) == Get(c.proposals, k))
  {
    DeleteGet(c.proposals, h, k);
  }

  /** The app a pending proposal turns into. */
  function InstalledApp(env: Environment, c: StateChannel, h: AppIdHash): Result<AppInstance>
    requires Has(c.proposals, h)
  {
    var p := InstallParamsOf(env, c, Get(c.proposals, h));
    var i :- c.FreeBalanceAddrOf(env, p.initiatorXpub);
    var r :- c.FreeBalanceAddrOf(env, p.responderXpub);
    var params :- InterpreterParameters(p, i, r);
    Ok(AppToInstall(p, params))
  }

  lemma InstallDecrementsChecksummed(env: Environment, c: StateChannel, h: AppIdHash)
    requires Has(c.proposals, h) && Legal(env, c, Install(h))
    ensures ChecksummedIncrements(env, InstallDecrements(env, c, h))
  {
  }

  lemma InstallIs(env: Environment, c: StateChannel, h: AppIdHash)
    requires Direct(env, c) && Has(c.proposals, h) && Legal(env, c, Install(h)) && Apply(env, c, Install(h)).Ok?
    ensures InstalledApp(env, c, h).Ok? && ChecksummedIncrements(env, InstallDecrements(env, c, h))
    ensures Apply(env, c, Install(h)) == c.InstallApp(env, InstalledApp(env, c, h).value, InstallDecrements(env, c, h))
  {
    InstallDecrementsChecksummed(env, c, h);
    var p := InstallParamsOf(env, c, Get(c.proposals, h));
    var i, r := c.FreeBalanceAddrOf(env, p.initiatorXpub), c.FreeBalanceAddrOf(env, p.responderXpub);
    assert i.Ok? && r.Ok? && InterpreterParameters(p, i.value, r.value).Ok?;
    assert InstallDecrements(env, c, h) == Decrements(p, i.value, r.value);
  }

  function InstallDecrements(env: Environment, c: StateChannel, h: AppIdHash): TokenIndexedCoinTransferMap
    requires Has(c.proposals, h)
  {
    var p := InstallParamsOf(env, c, Get(c.proposals, h));
    match (c.FreeBalanceAddrOf(env, p.initiatorXpub), c.FreeBalanceAddrOf(env, p.responderXpub))
    case (Ok(i), Ok(r)) => Decrements(p, i, r)
    case _ => []
  }

  /** The free balance that holds after installing `h`. */
  lemma InstallFb(env: Environment, c: StateChannel, h: AppIdHash)
    requires ChannelOk(env, c) && Has(c.proposals, h) && Legal(env, c, Install(h)) && Apply(env, c, Install(h)).Ok?
    ensures var c' := Apply(env, c, Install(h)).value;
            var i := Incremented(Fb(env, c), FlipTokenIndexed(InstallDecrements(env, c, h)));
            && InstalledApp(env, c, h).Ok? && i.Ok? && Direct(env, c')
            && Fb(env, c') == i.value.(activeApps := AddActive(Fb(env, c).activeApps, h))
            && c' == c.(freeBalanceApp := c'.freeBalanceApp, apps := Set(c.apps, h, InstalledApp(env, c, h).value),
                        proposals := Delete(c.proposals, h))
            && Version(c') == Version(c) + 2
            && AppOk(env, c, h, InstalledApp(env, c, h).value)
  {
    InstallIs(env, c, h);
    var app, d := InstalledApp(env, c, h).value, InstallDecrements(env, c, h);
    var n := IndexOf(c.proposals, h);
    assert ProposalOk(env, c, c.proposals[n].0, c.proposals[n].1);
    InstallAppEffect(env, c, Fb(env, c), app, d);
    HoldsIsDirect(env, Apply(env, c, Install(h)).value,
                  Incremented(Fb(env, c), FlipTokenIndexed(d)).value.(activeApps := AddActive(Fb(env, c).activeApps, h)));
  }

  /**
   The conditional transaction both parties sign in an install is for the app being installed exactly
   when no installed app carries a higher number; otherwise they sign for that other app.
   */
  lemma InstallSignsForItsAppIff(env: Environment, c: StateChannel, h: AppIdHash)
    requires ChannelOk(env, c) && Has(c.proposals, h) && Legal(env, c, Install(h)) && Apply(env, c, Install(h)).Ok?
    ensures var signed := ConditionalTransaction(env, Apply(env, c, Install(h)).value);
            && signed.ConditionalTransactionDigest?
            && (signed.app == h <==> forall i :: 0 <= i < |c.apps| ==> c.apps[i].1.appSeqNo <= Get(c.proposals, h).appSeqNo)
  {
    InstallFb(env, c, h);
    var app := InstalledApp(env, c, h).value;
    assert !Has(c.apps, h);
    LastIsMostRecentIff(env, c, h, app);
  }

  lemma LastIsMostRecentIff(env: Environment, c: StateChannel, h: AppIdHash, app: AppInstance)
    requires Numbered(env, c) && AppOk(env, c, h, app) && !Has(c.apps, h)
    ensures MostRecentApp(c.apps + [(h, app)]).IdentityHash() == h
            <==> forall i :: 0 <= i < |c.apps| ==> c.apps[i].1.appSeqNo <= app.appSeqNo
  {
    var m := c.apps + [(h, app)];
    assert m[..|m| - 1] == c.apps;
    forall i | 0 <= i < |c.apps| ensures c.apps[i].1.appSeqNo != app.appSeqNo && c.apps[i].1.IdentityHash() != h {
      assert AppOk(env, c, c.apps[i].0, c.apps[i].1);
    }
    if c.apps != [] {
      MostRecentIsMax(c.apps);
    }
  }

  /**
   When it is for the app being installed, the signed transaction pays from this wallet and free balance, by the
   interpreter of the proposed outcome type, and in every token at most what the install takes.
   */
  lemma InstallSignsForWhatItLocks(env: Environment, c: StateChannel, h: AppIdHash, t: Token)
    requires ChannelOk(env, c) && Has(c.proposals, h) && Legal(env, c, Install(h)) && Apply(env, c, Install(h)).Ok?
    requires ConditionalTransaction(env, Apply(env, c, Install(h)).value).ConditionalTransactionDigest?
    requires ConditionalTransaction(env, Apply(env, c, Install(h)).value).app == h
    requires env.Valid() && Get(c.proposals, h).proposedBy != Get(c.proposals, h).proposedTo
    ensures var signed := ConditionalTransaction(env, Apply(env, c, Install(h)).value);
            && signed.multisig == c.multisigAddress && signed.owners == c.MultisigOwners(env)
            && signed.freeBalance == c.freeBalanceApp.value.IdentityHash()
            && signed.interpreter == Get(c.proposals, h).outcomeType
            && Limit(signed.params, t) == Sum(InstallDecrements(env, c, h), t)
  {
    var c', app := Apply(env, c, Install(h)).value, InstalledApp(env, c, h).value;
    InstallFb(env, c, h);
    InstallKeeps(env, c, h);
    InstalledIsFound(env, c', h);
    SetGet(c.apps, h, app, h);
    LimitOfInstalled(env, c, h, t);
    InstallKeepsFreeBalanceApp(env, c, h);
  }

  lemma InstalledIsFound(env: Environment, c: StateChannel, h: AppIdHash)
    requires c.apps != [] && MostRecentApp(c.apps).IdentityHash() == h && Numbered(env, c)
    ensures Has(c.apps, h) && MostRecentApp(c.apps) == Get(c.apps, h)
  {
    MostRecentIsMax(c.apps);
    var i :| 0 <= i < |c.apps| && c.apps[i].1 == MostRecentApp(c.apps);
    assert AppOk(env, c, c.apps[i].0, c.apps[i].1);
    HasAt(c.apps, i);
  }

  lemma LimitOfInstalled(env: Environment, c: StateChannel, h: AppIdHash, t: Token)
    requires env.Valid() && Has(c.proposals, h) && Get(c.proposals, h).proposedBy != Get(c.proposals, h).proposedTo
    requires InstalledApp(env, c, h).Ok?
    ensures InstalledApp(env, c, h).value.outcomeType == Get(c.proposals, h).outcomeType
    ensures Limit(InstalledApp(env, c, h).value.params, t) == Sum(InstallDecrements(env, c, h), t)
  {
    var p := InstallParamsOf(env, c, Get(c.proposals, h));
    InstallLocksItsLimit(p, c.FreeBalanceAddrOf(env, p.initiatorXpub).value, c.FreeBalanceAddrOf(env, p.responderXpub).value, t);
  }

  lemma InstallKeepsFreeBalanceApp(env: Environment, c: StateChannel, h: AppIdHash)
    requires Direct(env, c) && Has(c.proposals, h) && Legal(env, c, Install(h)) && Apply(env, c, Install(h)).Ok?
    ensures Apply(env, c, Install(h)).value.freeBalanceApp.Some?
    ensures Apply(env, c, Install(h)).value.freeBalanceApp.value.IdentityHash() == c.freeBalanceApp.value.IdentityHash()
  {
    InstallIs(env, c, h);
    InstallAppEffect(env, c, Fb(env, c), InstalledApp(env, c, h).value, InstallDecrements(env, c, h));
  }

  lemma AgreementsFrame(env: Environment, c: StateChannel, c': StateChannel)
    requires AgreementsForeign(env, c) && c'.agreements == c.agreements && c'.xpubs == c.xpubs
    ensures AgreementsForeign(env, c')
  {
    forall k | Has(c'.agreements, k) ensures Foreign(env, c', k) { assert Foreign(env, c, k); }
  }

  lemma InstallKeeps(env: Environment, c: StateChannel, h: AppIdHash)
    requires ChannelOk(env, c) && Has(c.proposals, h) && Legal(env, c, Install(h)) && Apply(env, c, Install(h)).Ok?
    ensures ChannelOk(env, Apply(env, c, Install(h)).value)
  {
    var c' := Apply(env, c, Install(h)).value;
    InstallFb(env, c, h);
    var app := InstalledApp(env, c, h).value;
    NumberedInstall(env, c, h, app);
    NumberedFrame(env, c.(apps := Set(c.apps, h, app), proposals := Delete(c.proposals, h)), c');
    AgreementsFrame(env, c, c');
    forall k ensures k in Fb(env, c').activeApps <==> Has(c'.apps, k) || Has(c'.agreements, k) {
      ActiveSets(Fb(env, c).activeApps, h, k);
      SetGet(c.apps, h, app, k);
    }
  }

  lemma UninstallKeeps(env: Environment, c: StateChannel, h: AppIdHash, payout: TokenIndexedCoinTransferMap)
    requires ChannelOk(env, c) && Legal(env, c, Uninstall(h, payout)) && c.UninstallApp(env, h, payout).Ok?
    ensures ChannelOk(env, c.UninstallApp(env, h, payout).value)
    ensures Version(c.UninstallApp(env, h, payout).value) == Version(c) + 2
  {
    var c', fb := c.UninstallApp(env, h, payout).value, Fb(env, c);
    var fb1 := fb.(activeApps := RemoveActive(fb.activeApps, h));
    UninstallAppEffect(env, c, fb, h, payout);
    IncrementKeepsActive(fb1, payout);
    HoldsIsDirect(env, c', Incremented(fb1, payout).value);
    NumberedDelete(env, c, h, h);
    NumberedFrame(env, c.(apps := Delete(c.apps, h)), c');
    AgreementsFrame(env, c, c');
    OwnAppsAreNotForeign(env, c, h);
    forall k ensures k in Fb(env, c').activeApps <==> Has(c'.apps, k) || Has(c'.agreements, k) {
      ActiveSets(fb.activeApps, h, k);
      DeleteGet(c.apps, h, k);
    }
  }

  lemma AddAgreementKeeps(env: Environment, c: StateChannel, op: Op)
    requires env.Valid() && ChannelOk(env, c) && op.AddAgreement? && Legal(env, c, op) && Apply(env, c, op).Ok?
    ensures ChannelOk(env, Apply(env, c, op).value) && Version(Apply(env, c, op).value) == Version(c) + 2
  {
    var c', fb, h := Apply(env, c, op).value, Fb(env, c), VirtualHash(env, op.users, op.seqNo);
    var c1, incs := c.(agreements := Set(c.agreements, h, op.agreement)), [(op.token, Flip(op.decrements))];
    AddActiveEffect(env, c1, fb, h, incs);
    HoldsIsDirect(env, c', Incremented(fb, incs).value.(activeApps := AddActive(fb.activeApps, h)));
    NumberedFrame(env, c, c');
    VirtualIsForeign(env, c, op.users, op.seqNo);
    forall k ensures Has(c'.agreements, k) <==> k == h || Has(c.agreements, k) { SetGet(c.agreements, h, op.agreement, k); }
    forall k | Has(c'.agreements, k) ensures Foreign(env, c', k) {
      if k != h { assert Foreign(env, c, k); }
    }
    forall k ensures k in Fb(env, c').activeApps <==> Has(c'.apps, k) || Has(c'.agreements, k) {
      ActiveSets(fb.activeApps, h, k);
    }
  }

  lemma RemoveAgreementKeeps(env: Environment, c: StateChannel, op: Op)
    requires ChannelOk(env, c) && op.RemoveAgreement? && Legal(env, c, op) && Apply(env, c, op).Ok?
    ensures ChannelOk(env, Apply(env, c, op).value) && Version(Apply(env, c, op).value) == Version(c) + 2
  {
    var c', fb, h := Apply(env, c, op).value, Fb(env, c), op.h;
    var c1, incs := c.(agreements := Delete(c.agreements, h)), [(op.token, op.increments)];
    var fb1 := fb.(activeApps := RemoveActive(fb.activeApps, h));
    RemoveActiveEffect(env, c1, fb, h, incs);
    IncrementKeepsActive(fb1, incs);
    HoldsIsDirect(env, c', Incremented(fb1, incs).value);
    NumberedFrame(env, c, c');
    forall k ensures Has(c'.agreements, k) <==> k != h && Has(c.agreements, k) { DeleteGet(c.agreements, h, k); }
    forall k | Has(c'.agreements, k) ensures Foreign(env, c', k) { assert Foreign(env, c, k); }
    forall k ensures k in Fb(env, c').activeApps <==> Has(c'.apps, k) || Has(c'.agreements, k) {
      ActiveSets(fb.activeApps, h, k);
      if Has(c.apps, h) { OwnAppsAreNotForeign(env, c, h); }
    }
  }

  lemma WithdrawKeeps(env: Environment, c: StateChannel, p: WithdrawParams)
    requires ChannelOk(env, c) && env.checksum(p.token) == p.token && WithdrawTransition(env, c, p).Ok?
    ensures ChannelOk(env, WithdrawTransition(env, c, p).value)
    ensures Version(WithdrawTransition(env, c, p).value) == Version(c) + 4
  {
    var c', h := WithdrawTransition(env, c, p).value, RefundHash(env, c);
    WithdrawEffect(env, c, p, c.FreeBalanceAddrOf(env, p.initiatorXpub).value, 0, 0);
    NumberedDelete(env, c, h, h);
    NumberedFrame(env, c.(apps := Delete(c.apps, h), proposals := Delete(c.proposals, h)), c');
    AgreementsFrame(env, c, c');
    forall k ensures k in Fb(env, c').activeApps <==> Has(c'.apps, k) || Has(c'.agreements, k) {
      ActiveSets(Fb(env, c).activeApps, h, k);
      DeleteGet(c.apps, h, k);
      if Has(c.agreements, h) { assert Foreign(env, c, h); }
    }
  }

  // ---- Runs -----------------------------------------------------------------------------------

  lemma StepKeeps(env: Environment, c: StateChannel, op: Op)
    requires env.Valid() && ChannelOk(env, c) && Legal(env, c, op)
    ensures ChannelOk(env, After(env, c, op))
    ensures Version(After(env, c, op)) == Version(c) + 2 * FreeBalanceUpdates(env, c, op)
    ensures FreeBalanceUpdates(env, c, op) == 0 ==> After(env, c, op).freeBalanceApp == c.freeBalanceApp
  {
    if Apply(env, c, op).Ok? {
      CountsUpdates(env, c, op);
      if op.Propose? || op.Reject? || op.UpdateState? { QuietStepKeeps(env, c, op); } else { UpdatingStepKeeps(env, c, op); }
    } else {
      FailureChangesNothing(env, c, op);
    }
  }

  lemma CountsUpdates(env: Environment, c: StateChannel, op: Op)
    requires Apply(env, c, op).Ok?
    ensures FreeBalanceUpdates(env, c, op) == if op.Propose? || op.Reject? || op.UpdateState? then 0 else if op.Withdraw? then 2 else 1
  {
  }

  lemma FailureChangesNothing(env: Environment, c: StateChannel, op: Op)
    requires Apply(env, c, op).Err?
    ensures After(env, c, op) == c && FreeBalanceUpdates(env, c, op) == 0
  {
  }

  lemma QuietStepKeeps(env: Environment, c: StateChannel, op: Op)
    requires ChannelOk(env, c) && Apply(env, c, op).Ok? && (op.Propose? || op.Reject? || op.UpdateState?)
    ensures ChannelOk(env, After(env, c, op)) && After(env, c, op).freeBalanceApp == c.freeBalanceApp
  {
    match op
    case Propose(p, initiating) => ProposeKeeps(env, c, p, initiating);
    case Reject(h) => RejectKeeps(env, c, h);
    case UpdateState(h, state) => UpdateKeeps(env, c, h, state);
  }

  lemma UpdatingStepKeeps(env: Environment, c: StateChannel, op: Op)
    requires env.Valid() && ChannelOk(env, c) && Legal(env, c, op) && Apply(env, c, op).Ok?
    requires !op.Propose? && !op.Reject? && !op.UpdateState?
    ensures ChannelOk(env, After(env, c, op))
    ensures Version(After(env, c, op)) == Version(c) + if op.Withdraw? then 4 else 2
  {
    match op
    case Install(h) => InstallKeeps(env, c, h); InstallFb(env, c, h);
    case Uninstall(h, payout) => UninstallKeeps(env, c, h, payout);
    case AddAgreement(_, _, _, _, _) => AddAgreementKeeps(env, c, op);
    case RemoveAgreement(_, _, _) => RemoveAgreementKeeps(env, c, op);
    case Withdraw(p) => WithdrawKeeps(env, c, p);
  }

  /** How many times a transition commits to a new free balance: a withdrawal installs and uninstalls. */
  function FreeBalanceUpdates(env: Environment, c: StateChannel, op: Op): nat {
    if Apply(env, c, op).Err? then 0 else
      match op
      case Install(_) => 1
      case Uninstall(_, _) => 1
      case AddAgreement(_, _, _, _, _) => 1
      case RemoveAgreement(_, _, _) => 1
      case Withdraw(_) => 2
      case _ => 0
  }

  function TotalUpdates(env: Environment, c: StateChannel, ops: seq<Op>): nat {
    if ops == [] then 0 else
      var p := ops[..|ops| - 1];
      TotalUpdates(env, c, p) + FreeBalanceUpdates(env, Run(env, c, p), ops[|ops| - 1])
  }

  /**
   In every reachable channel: the active apps are exactly the installed apps and the agreements'
   targets; each app is stored under its own identity hash; numbers stay below the counter, no hash is
   both proposed and installed; no balance is negative; and the version counts the free-balance updates.
   */
  lemma {:induction false} EveryRunKeeps(env: Environment, c: StateChannel, ops: seq<Op>)
    requires env.Valid() && ChannelOk(env, c) && AllLegal(env, c, ops)
    ensures ChannelOk(env, Run(env, c, ops))
    ensures Version(Run(env, c, ops)) == Version(c) + 2 * TotalUpdates(env, c, ops)
  {
    if ops != [] {
      var p := ops[..|ops| - 1];
      EveryRunKeeps(env, c, p);
      StepKeeps(env, Run(env, c, p), ops[|ops| - 1]);
    }
  }

  /** No account of any token is negative in any reachable channel. */
  lemma NoBalanceIsEverNegative(env: Environment, c: StateChannel, ops: seq<Op>, t: Token, a: Address)
    requires env.Valid() && ChannelOk(env, c) && AllLegal(env, c, ops)
    ensures BalanceOf(env, Run(env, c, ops), t, a) >= 0
  {
    EveryRunKeeps(env, c, ops);
    BalanceNonNegative(env, Fb(env, Run(env, c, ops)), t, a);
  }

  /** Along a run, two channels with the same free-balance version hold the same free balance. */
  lemma {:induction false} VersionIdentifiesFreeBalance(env: Environment, c: StateChannel, ops: seq<Op>, n: nat)
    requires env.Valid() && ChannelOk(env, c) && AllLegal(env, c, ops) && n <= |ops|
    ensures var early, late := Run(env, c, ops[..n]), Run(env, c, ops);
            && early.freeBalanceApp.Some? && late.freeBalanceApp.Some? && Version(early) <= Version(late)
            && (Version(early) == Version(late) ==> early.freeBalanceApp == late.freeBalanceApp)
  {
    EveryRunKeeps(env, c, ops);
    if n == |ops| {
      assert ops[..n] == ops;
    } else {
      var p := ops[..|ops| - 1];
      assert p[..n] == ops[..n];
      VersionIdentifiesFreeBalance(env, c, p, n);
      EveryRunKeeps(env, c, p);
      StepKeeps(env, Run(env, c, p), ops[|ops| - 1]);
    }
  }

  /** A channel fresh from setup satisfies the invariant, with version zero. */
  lemma SetupIsOk(env: Environment, coinBucket: Address, multisig: Address, xpubs: seq<Xpub>)
    requires env.Valid() && |xpubs| == 2 && xpubs[0] != xpubs[1] && env.checksum(ETH_TOKEN) == ETH_TOKEN
    ensures var c := SetupChannel(env, coinBucket, multisig, xpubs);
            ChannelOk(env, c) && Version(c) == 0
  {
    var keys := env.KthAddresses(xpubs, 0);
    var sorted := Sorting.SortBy(env.rank, keys);
    Sorting.SortSorts(env.rank, keys);
    TwoDistinct(keys, sorted);
    var fb := FreeBalance([], [(ETH_TOKEN, [CoinTransfer(sorted[0], 0), CoinTransfer(sorted[1], 0)])]);
    HoldsIsDirect(env, SetupChannel(env, coinBucket, multisig, xpubs), fb);
  }

  lemma TwoDistinct(s: seq<Address>, t: seq<Address>)
    requires |s| == |t| == 2 && multiset(s) == multiset(t) && s[0] != s[1]
    ensures t[0] != t[1]
  {
    assert s == [s[0], s[1]] && t == [t[0], t[1]];
    assert multiset(s)[s[0]] == 1 && multiset(t)[t[0]] >= 1;
    assert t[0] in multiset(s);
  }
}
