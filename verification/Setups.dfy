/** The channel that two people set up: what it starts from, and who signs for it. */
module Setups {
  import opened OrderedMaps
  import Sorting
  import opened Models
  import opened FreeBalances
  import opened StateChannels
  import opened ChannelRuns
  import opened Protocols
  import opened Scripts
  import opened ProtocolRuns
  import opened StaticChecks
  import opened Countersigning
  import Lookup

  datatype SetupParams = SetupParams(initiatorXpub: Xpub, responderXpub: Xpub, multisigAddress: Address, identityApp: Address)
  {
    function Channel(env: Environment): StateChannel {
      SetupChannel(env, identityApp, multisigAddress, [initiatorXpub, responderXpub])
    }
  }

  /** The transaction that lets the free balance be paid out. */
  function SetupCommitment(env: Environment, c: StateChannel): Digest {
    if c.freeBalanceApp.None? then OtherDigest(0)
    else SetupDigest(c.multisigAddress, c.MultisigOwners(env), c.freeBalanceApp.value.IdentityHash())
  }

  function RunFrom(env: Environment, p: SetupParams): Run {
    Run(SetupProtocol(),
        (v: Var) => env.kth(if v.signer == Initiator then p.initiatorXpub else p.responderXpub, 0),
        (role, doc) => if doc == Setup then SetupCommitment(env, p.Channel(env)) else OtherDigest(0),
        role => true)
  }

  /** The two people's first addresses, in either order. */
  lemma OwnersAre(env: Environment, x: Xpub, y: Xpub)
    ensures var owners := env.SortedKthAddresses([x, y], 0);
            owners == [env.kth(x, 0), env.kth(y, 0)] || owners == [env.kth(y, 0), env.kth(x, 0)]
  {
    assert env.KthAddresses([x, y], 0) == [env.kth(x, 0), env.kth(y, 0)];
    Lookup.SortedPair(env.rank, env.kth(x, 0), env.kth(y, 0));
  }

  lemma OpeningLists(a: Address, b: Address, x: Address)
    ensures var list := [CoinTransfer(a, 0), CoinTransfer(b, 0)];
            GetOr(ToMap(list), x, 0) == 0 && Total(ToMap(list)) == 0
  {
    var s := [(a, 0), (b, 0)];
    assert AsEntries([CoinTransfer(a, 0), CoinTransfer(b, 0)]) == s;
    var none: CoinTransferMap, one: CoinTransferMap := [], [(a, 0)];
    assert s[..1] == one && one[..0] == none;
    assert FromEntries(one) == Set(none, a, 0);
    assert FromEntries(s) == Set(Set(none, a, 0), b, 0);
    GetOrSet(none, a, 0, x, 0);
    GetOrSet(Set(none, a, 0), b, 0, x, 0);
    TotalSet(none, a, 0);
    TotalSet(Set(none, a, 0), b, 0);
  }

  /** A new channel owes nobody anything, in any token; nothing is installed, proposed or agreed. */
  lemma SetupStartsEmpty(env: Environment, p: SetupParams, t: Token, a: Address)
    requires env.Valid() && p.initiatorXpub != p.responderXpub && env.checksum(ETH_TOKEN) == ETH_TOKEN
    ensures var c := p.Channel(env);
            && Direct(env, c) && BalanceOf(env, c, t, a) == 0 && HeldBy(env, c, t) == 0 && Fb(env, c).activeApps == []
            && c.apps == [] && c.proposals == [] && c.agreements == [] && c.numProposedApps == 1
            && c.multisigAddress == p.multisigAddress && multiset(c.xpubs) == multiset{p.initiatorXpub, p.responderXpub}
  {
    var c := p.Channel(env);
    SetupIsOk(env, p.identityApp, p.multisigAddress, [p.initiatorXpub, p.responderXpub]);
    var owners := env.SortedKthAddresses([p.initiatorXpub, p.responderXpub], 0);
    OwnersAre(env, p.initiatorXpub, p.responderXpub);
    var fb := FreeBalance([], [(ETH_TOKEN, [CoinTransfer(owners[0], 0), CoinTransfer(owners[1], 0)])]);
    HoldsIsDirect(env, c, fb);
    OpeningLists(owners[0], owners[1], a);
    if t == ETH_TOKEN { IndexIs(fb.balances, t, 0); }
  }

  /** The free balance app is between the two first addresses, at version zero, and stays disputable for two days. */
  lemma FreeBalanceAppIs(env: Environment, p: SetupParams)
    ensures p.Channel(env).freeBalanceApp.Some?
    ensures var c, app := p.Channel(env), p.Channel(env).freeBalanceApp.value;
            && app.participants == c.MultisigOwners(env) && app.appSeqNo == 0 && !app.isVirtualApp
            && app.appInterface == AppInterface(p.identityApp, FreeBalanceEncoding)
            && app.outcomeType == MultiAssetMultiPartyCoinTransfer && app.params == NoParams
            && app.latestVersionNumber == 0 && app.defaultTimeout == app.latestTimeout == 2 * 24 * 60 * 60
  {
  }

  /** Exactly the two people have a free-balance account, at their first address. */
  lemma AccountsAreThePeoples(env: Environment, p: SetupParams, x: Xpub)
    requires env.Valid()
    ensures p.Channel(env).FreeBalanceAddrOf(env, x)
         == if x == p.initiatorXpub || x == p.responderXpub then Ok(env.kth(x, 0)) else Err(UnknownXpub)
  {
    OwnersAre(env, p.initiatorXpub, p.responderXpub);
  }

  /** What both sides sign: the wallet, its two owners, and the free balance app that they take part in. */
  lemma SetupCommitmentIs(env: Environment, p: SetupParams)
    ensures var owners := p.Channel(env).MultisigOwners(env);
            && SetupCommitment(env, p.Channel(env)) == SetupDigest(p.multisigAddress, owners, AppIdHash(0, owners))
            && multiset(owners) == multiset{env.kth(p.initiatorXpub, 0), env.kth(p.responderXpub, 0)}
  {
    OwnersAre(env, p.initiatorXpub, p.responderXpub);
  }

  lemma SetupViews(env: Environment, p: SetupParams, role: Role)
    ensures RunFrom(env, p).view(role, Setup) == SetupCommitment(env, p.Channel(env))
    ensures RunFrom(env, p).signer(Ini(Setup)) == env.kth(p.initiatorXpub, 0) && RunFrom(env, p).signer(Res(Setup)) == env.kth(p.responderXpub, 0)
  {
  }

  /** Whoever has persisted the new channel holds the other's signature on its setup transaction. */
  lemma SetupIsCountersigned(env: Environment, p: SetupParams, steps: seq<Step>, role: Role)
    requires Execute(RunFrom(env, p), steps).Some? && role != Intermediary
    requires role in Execute(RunFrom(env, p), steps).value.locals && Execute(RunFrom(env, p), steps).value.locals[role].persisted
    ensures var owners := p.Channel(env).MultisigOwners(env);
            RoleHolds(RunFrom(env, p), steps, role,
                      Signature(env.kth(if role == Initiator then p.responderXpub else p.initiatorXpub, 0),
                                SetupDigest(p.multisigAddress, owners, AppIdHash(0, owners))))
    ensures env.Valid() && p.initiatorXpub != p.responderXpub ==> env.kth(p.initiatorXpub, 0) != env.kth(p.responderXpub, 0)
  {
    OneRoundChecksAll(Setup);
    SetupViews(env, p, role);
    SetupCommitmentIs(env, p);
    assert Answers(SetupProtocol().initiator.code[1], Res(Setup));
    ReceivedIsHeld(RunFrom(env, p), steps, role, if role == Initiator then Res(Setup) else Ini(Setup));
  }

  /** An undisturbed setup fails no check and is persisted by both; in no run does the initiator persist alone. */
  lemma HonestSetup(env: Environment, p: SetupParams, steps: seq<Step>)
    requires Faithful(steps) && Execute(RunFrom(env, p), steps).Some?
    ensures var end := Execute(RunFrom(env, p), steps).value;
            && Roles(end) && (end.locals[Initiator].persisted ==> end.locals[Responder].persisted)
            && (Faultless(steps) ==> forall r: Role :: end.locals[r].phase != Stopped)
            && (Faultless(steps) && !Enabled(RunFrom(env, p), end) ==> end.locals[Initiator].persisted && end.locals[Responder].persisted)
  {
    var run := RunFrom(env, p);
    EveryProtocolIsWellFormed(run.protocol);
    OneRoundPersists(Setup);
    SetupResponderPersistsFirst();
    PersistOrder(run, steps, Responder, Initiator, 1);
    AllPresent(run, steps);
    if Faultless(steps) {
      FaultlessRunCompletes(run, steps);
      var end := Execute(run, steps).value;
      if !Enabled(run, end) {
        assert Finished(run, Initiator, end.locals[Initiator]) && Finished(run, Responder, end.locals[Responder]);
      }
    }
  }

  lemma SetupResponderPersistsFirst()
    ensures PersistsFirst(SetupProtocol(), Responder, Initiator, 1)
  {
  }
}
