/** Who signed what in a virtual install or uninstall, with the contents of what was signed. */
module VirtualSignatures {
  import opened OrderedMaps
  import Sorting
  import opened Models
  import opened FreeBalances
  import opened StateChannels
  import opened DirectTransitions
  import opened VirtualApps
  import opened VirtualRuns
  import opened Protocols
  import opened Scripts
  import opened ProtocolRuns
  import opened Countersigning
  import HubDesync
  import Lookup

  // ---- What is installed ----------------------------------------------------------------------

  /** The app between the users: its parties, its first state, and what its outcome may pay at most. */
  lemma VirtualAppIs(env: Environment, p: VirtualParams, t: Token)
    requires ConstructVirtualApp(env, p).Ok?
    ensures var app := ConstructVirtualApp(env, p).value;
            && multiset(app.participants) == multiset{env.kth(p.initiatorXpub, p.appSeqNo), env.kth(p.responderXpub, p.appSeqNo)}
            && app.IdentityHash() == AppIdHash(p.appSeqNo, app.participants) == Announced(env, p).0
            && app.isVirtualApp && app.appInterface == p.appInterface && app.defaultTimeout == app.latestTimeout == p.defaultTimeout
            && app.latestState == p.initialState && app.latestVersionNumber == 0 && app.outcomeType == p.outcomeType
            && Limit(app.params, t) == (if t == p.token then p.initiatorDecrement + p.responderDecrement else 0)
            && (app.params.TwoPartyParams? ==> app.params.playerOne == env.kth(p.initiatorXpub, p.appSeqNo))
            && (app.params.TwoPartyParams? ==> app.params.playerTwo == env.kth(p.responderXpub, p.appSeqNo))
  {
    Sorting.SortSorts(env.rank, [env.kth(p.initiatorXpub, p.appSeqNo), env.kth(p.responderXpub, p.appSeqNo)]);
  }

  /** The app among the three that pays out the users' app's outcome. */
  lemma PassThroughIs(env: Environment, three: StateChannel, target: AppIdHash, default: Outcome, p: VirtualParams, t: Token)
    requires ConstructPassThrough(env, three, target, default, p).Ok?
    ensures var pass, n := ConstructPassThrough(env, three, target, default, p).value, three.numProposedApps;
            && multiset(pass.participants) == multiset{env.kth(p.initiatorXpub, n), env.kth(p.responderXpub, n), env.kth(p.intermediaryXpub, n)}
            && pass.IdentityHash() == AppIdHash(n, pass.participants) && pass.isVirtualApp
            && pass.appInterface == AppInterface(p.passThrough, PassThroughEncoding) && pass.defaultTimeout == pass.latestTimeout == 100
            && pass.latestState == PassThroughState(target, MAX_UINT256, default) && pass.latestVersionNumber == 0
            && pass.outcomeType == p.outcomeType
            && Limit(pass.params, t) == (if t == p.token then p.initiatorDecrement + p.responderDecrement else 0)
            && (pass.params.TwoPartyParams? ==> pass.params.playerOne == env.kth(p.initiatorXpub, n))
            && (pass.params.TwoPartyParams? ==> pass.params.playerTwo == env.kth(p.responderXpub, n))
  {
    PassThroughParties(env, three, target, default, p);
  }

  lemma PassThroughParties(env: Environment, three: StateChannel, target: AppIdHash, default: Outcome, p: VirtualParams)
    requires ConstructPassThrough(env, three, target, default, p).Ok?
    ensures var pass, n := ConstructPassThrough(env, three, target, default, p).value, three.numProposedApps;
            multiset(pass.participants) == multiset{env.kth(p.initiatorXpub, n), env.kth(p.responderXpub, n), env.kth(p.intermediaryXpub, n)}
  {
    var n := three.numProposedApps;
    var keys := [env.kth(p.initiatorXpub, n), env.kth(p.responderXpub, n), env.kth(p.intermediaryXpub, n)];
    Sorting.SortSorts(env.rank, keys);
    assert ConstructPassThrough(env, three, target, default, p).value.participants == Sorting.SortBy(env.rank, keys);
  }

  /**
   People without a channel in the store get one at the wallet generated for their first keys, with nothing in it;
   the first app in it has number one.
   */
  lemma CreatedForStrangers(env: Environment, store: Store, xpubs: seq<Xpub>, app: AppInstance)
    requires Find(store, xpubs).Err?
    ensures var c := GetOrCreate(env, store, xpubs);
            && c.multisigAddress == env.generatedMultisig(env.SortedKthAddresses(xpubs, 0)) && multiset(c.xpubs) == multiset(xpubs)
            && c.apps == [] && c.proposals == [] && c.agreements == [] && c.freeBalanceApp.None? && c.numProposedApps == 1
    ensures var c' := GetOrCreate(env, store, xpubs).AddAppInstance(app);
            c'.apps == [(app.IdentityHash(), app)] && c'.numProposedApps == 2
  {
    Sorting.SortSorts(Lookup.Itself, xpubs);
  }

  /** In channels that the store holds already, an install adds its two apps and raises the counters, and changes nothing else. */
  lemma InstallAddsOnlyItsApps(env: Environment, store: Store, p: VirtualParams, three: StateChannel, users: StateChannel, k: AppIdHash)
    requires InstallForInitiating(env, store, p).Ok? && Find(store, p.All()) == Ok(three) && Find(store, p.Users()) == Ok(users)
    ensures var u := InstallForInitiating(env, store, p).value;
            && u.three == three.(apps := u.three.apps, numProposedApps := three.numProposedApps + 1)
            && u.users == users.(apps := u.users.apps, numProposedApps := users.numProposedApps + 1)
            && (k != u.passThrough.IdentityHash() ==> (Has(u.three.apps, k) <==> Has(three.apps, k)))
            && (k != u.passThrough.IdentityHash() && Has(three.apps, k) ==> Get(u.three.apps, k) == Get(three.apps, k))
            && (k != Announced(env, p).0 ==> (Has(u.users.apps, k) <==> Has(users.apps, k)))
            && (k != Announced(env, p).0 && Has(users.apps, k) ==> Get(u.users.apps, k) == Get(users.apps, k))
  {
    InitiatingIs(env, store, p);
    InitiatingConstructs(env, store, p);
    var u, app := InstallForInitiating(env, store, p).value, ConstructVirtualApp(env, p).value;
    SetGet(three.apps, u.passThrough.IdentityHash(), u.passThrough, k);
    SetGet(users.apps, app.IdentityHash(), app, k);
  }

  // ---- Whoever persists has checked what it received ------------------------------------------

  /** The intermediary passes on signatures on the users' app, which it cannot see; everything else is checked. */
  ghost predicate ChecksAllBut(g: Generator, doc: Doc) {
    forall v :: Receives(g, v) && v.doc != doc ==> ChecksBeforePersisting(g, v)
  }

  lemma InstallInitiatorChecksAll()
    ensures ChecksAllReceived(InstallVirtualAppProtocol().initiator)
  {
    var i := InstallVirtualAppProtocol().initiator;
    assert i.code[2] == Check(Mid(LeftAgreement)) && i.code[3] == Check(Mid(LeftFreeBalance));
    assert i.code[8] == Check(Mid(PassThrough)) && i.code[9] == Check(Res(PassThrough)) && i.code[10] == Check(Res(VirtualApp));
  }

  lemma InstallIntermediaryReceives(v: Var)
    requires Receives(InstallVirtualAppProtocol().intermediary, v) && v.doc != VirtualApp
    ensures v in [Ini(LeftAgreement), Res(RightAgreement), Res(RightFreeBalance), Ini(LeftFreeBalance), Ini(PassThrough), Res(PassThrough)]
  {
  }

  lemma InstallIntermediaryChecks()
    ensures var m := InstallVirtualAppProtocol().intermediary;
            && ChecksBeforePersisting(m, Ini(LeftAgreement)) && ChecksBeforePersisting(m, Res(RightAgreement))
            && ChecksBeforePersisting(m, Res(RightFreeBalance)) && ChecksBeforePersisting(m, Ini(LeftFreeBalance))
            && ChecksBeforePersisting(m, Ini(PassThrough)) && ChecksBeforePersisting(m, Res(PassThrough))
  {
    var m := InstallVirtualAppProtocol().intermediary;
    InstallIntermediaryPersistsAtTheEnd();
    CheckedAt(m, 15, 0, Ini(LeftAgreement));
    CheckedAt(m, 15, 3, Res(RightAgreement));
    CheckedAt(m, 15, 4, Res(RightFreeBalance));
    CheckedAt(m, 15, 8, Ini(LeftFreeBalance));
    CheckedAt(m, 15, 9, Ini(PassThrough));
    CheckedAt(m, 15, 13, Res(PassThrough));
  }

  lemma InstallIntermediaryPersistsAtTheEnd()
    ensures OnlyFrom(InstallVirtualAppProtocol().intermediary, 15)
  {
  }

  ghost predicate OnlyFrom(g: Generator, n: nat) {
    n < |g.code| && forall i :: 0 <= i < |g.code| && g.code[i].Persist? ==> i >= n
  }

  lemma CheckedAt(g: Generator, n: nat, j: nat, v: Var)
    requires OnlyFrom(g, n) && j < n && g.code[j] == Check(v)
    ensures ChecksBeforePersisting(g, v)
  {
  }

  lemma InstallIntermediaryChecksAll()
    ensures ChecksAllBut(InstallVirtualAppProtocol().intermediary, VirtualApp)
  {
    InstallIntermediaryChecks();
    forall v | Receives(InstallVirtualAppProtocol().intermediary, v) && v.doc != VirtualApp
      ensures ChecksBeforePersisting(InstallVirtualAppProtocol().intermediary, v)
    {
      InstallIntermediaryReceives(v);
    }
  }

  lemma InstallResponderChecksAll()
    ensures ChecksAllReceived(InstallVirtualAppProtocol().responder)
  {
    var r := InstallVirtualAppProtocol().responder;
    assert r.code[0] == Check(Mid(RightAgreement)) && r.code[4] == Check(Mid(RightFreeBalance));
    assert r.code[5] == Check(Mid(PassThrough)) && r.code[6] == Check(Ini(PassThrough)) && r.code[7] == Check(Ini(VirtualApp));
  }

  lemma UninstallInitiatorChecksAll()
    ensures ChecksAllReceived(UninstallVirtualAppProtocol().initiator)
  {
    var i := UninstallVirtualAppProtocol().initiator;
    assert i.code[2] == Check(Res(PassThrough)) && i.code[3] == Check(Mid(PassThrough)) && i.code[6] == Check(Mid(LeftFreeBalance));
  }

  lemma UninstallIntermediaryChecksAll()
    ensures ChecksAllReceived(UninstallVirtualAppProtocol().intermediary)
  {
    var m := UninstallVirtualAppProtocol().intermediary;
    assert m.code[0] == Check(Ini(PassThrough)) && m.code[3] == Check(Res(PassThrough));
    assert m.code[5] == Check(Ini(LeftFreeBalance)) && m.code[9] == Check(Res(RightFreeBalance));
  }

  lemma UninstallResponderChecksAll()
    ensures ChecksAllReceived(UninstallVirtualAppProtocol().responder)
  {
    var r := UninstallVirtualAppProtocol().responder;
    assert r.code[0] == Check(Ini(PassThrough)) && r.code[1] == Check(Mid(PassThrough)) && r.code[4] == Check(Mid(RightFreeBalance));
  }

  lemma VirtualChecksAll(installing: bool, role: Role, v: Var)
    requires v.doc != VirtualApp || role != Intermediary
    requires Receives((if installing then InstallVirtualAppProtocol() else UninstallVirtualAppProtocol()).Of(role), v)
    ensures ChecksBeforePersisting((if installing then InstallVirtualAppProtocol() else UninstallVirtualAppProtocol()).Of(role), v)
  {
    match role
    case Initiator => if installing { InstallInitiatorChecksAll(); } else { UninstallInitiatorChecksAll(); }
    case Intermediary => if installing { InstallIntermediaryChecksAll(); } else { UninstallIntermediaryChecksAll(); }
    case Responder => if installing { InstallResponderChecksAll(); } else { UninstallResponderChecksAll(); }
  }

  ghost predicate HasPersisted(run: Run, steps: seq<Step>, role: Role) {
    Execute(run, steps).Some? && role in Execute(run, steps).value.locals && Execute(run, steps).value.locals[role].persisted
  }

  /** Everything the role has received and can see is held, as the role sees it, under the first key of whoever signed it. */
  lemma HoldsVirtual(env: Environment, c: Computed, h: AppIdHash, installing: bool, xpubs: (Xpub, Xpub, Xpub), steps: seq<Step>, role: Role, v: Var)
    requires HasPersisted(RunOf(env, c, h, installing, xpubs), steps, role) && (v.doc != VirtualApp || role != Intermediary)
    requires Receives((if installing then InstallVirtualAppProtocol() else UninstallVirtualAppProtocol()).Of(role), v)
    ensures var key := match v.signer case Initiator => xpubs.0 case Intermediary => xpubs.1 case Responder => xpubs.2;
            RoleHolds(RunOf(env, c, h, installing, xpubs), steps, role, Signature(env.kth(key, 0), View(env, c, h, installing, role, v.doc)))
  {
    VirtualChecksAll(installing, role, v);
    PersistedHoldsWhatItChecks(RunOf(env, c, h, installing, xpubs), steps, role, v);
  }

  // ---- The contents of an install's documents -------------------------------------------------

  /** The transaction that an agreement in a hub channel is signed for. */
  function AgreementDigestOf(env: Environment, hub: StateChannel, pass: AppInstance, p: VirtualParams, user: Xpub): Digest
    requires hub.freeBalanceApp.Some?
  {
    AgreementDigest(hub.multisigAddress, hub.MultisigOwners(env), pass.IdentityHash(), hub.freeBalanceApp.value.IdentityHash(),
                    p.initiatorDecrement + p.responderDecrement, env.kth(p.intermediaryXpub, 0), env.kth(user, 0), p.token)
  }

  /** The first state of the pass-through: it targets the app and does not expire. */
  function PassThroughDigest(env: Environment, pass: AppInstance, p: VirtualParams): Digest {
    SetStateDigest(pass.IdentityHash(), 0, 100, PassThroughState(Announced(env, p).0, MAX_UINT256, Announced(env, p).1))
  }

  /** The first state of the users' app. */
  function FirstStateDigest(env: Environment, p: VirtualParams): Digest {
    SetStateDigest(Announced(env, p).0, 0, p.defaultTimeout, p.initialState)
  }

  lemma AgreementIsSigned(env: Environment, c: StateChannel, h: AppIdHash, agreement: Agreement, decrements: CoinTransferMap, token: Token, pass: AppInstance)
    requires c.AddAgreement(env, h, agreement, decrements, token).Ok?
    ensures var hub := c.AddAgreement(env, h, agreement, decrements, token).value;
            && hub.freeBalanceApp.Some?
            && AgreementCommitment(env, hub, h, pass)
            == AgreementDigest(hub.multisigAddress, hub.MultisigOwners(env), pass.IdentityHash(), hub.freeBalanceApp.value.IdentityHash(),
                               agreement.capitalProvided, agreement.capitalProvider, agreement.virtualAppUser, agreement.token)
  {
    AddedAgreement(env, c, h, agreement, decrements, token);
    ActivatingChangesOnlyFreeBalance(env, c.(agreements := Set(c.agreements, h, agreement)), h, [(token, Flip(decrements))]);
  }

  lemma PassThroughIsSigned(env: Environment, store: Store, p: VirtualParams)
    requires PassThroughFor(env, store, p).Ok?
    ensures PassThroughCommitment(PassThroughFor(env, store, p).value, true) == PassThroughDigest(env, PassThroughFor(env, store, p).value, p)
  {
  }

  lemma FirstStateIsSigned(env: Environment, users: StateChannel, p: VirtualParams)
    requires ConstructVirtualApp(env, p).Ok?
    ensures VirtualAppCommitment(users.AddAppInstance(ConstructVirtualApp(env, p).value), Announced(env, p).0) == FirstStateDigest(env, p)
  {
    AddedApp(users, ConstructVirtualApp(env, p).value);
  }

  lemma HubIsSigned(env: Environment, c: StateChannel, h: AppIdHash, p: VirtualParams, pass: AppInstance, user: Xpub,
                    agreement: Agreement, decrements: CoinTransferMap, hub: StateChannel)
    requires c.AddAgreement(env, h, agreement, decrements, p.token) == Ok(hub)
    requires agreement == Agreement(p.token, pass.IdentityHash(), p.initiatorDecrement + p.responderDecrement, env.kth(p.intermediaryXpub, 0), env.kth(user, 0))
    ensures hub.freeBalanceApp.Some? && HubCommitment(hub) == SetStateCommitment(hub.freeBalanceApp.value)
    ensures AgreementCommitment(env, hub, h, pass) == AgreementDigestOf(env, hub, pass, p, user)
  {
    AgreementIsSigned(env, c, h, agreement, decrements, p.token, pass);
  }

  lemma AgreementsAre(env: Environment, p: VirtualParams, pass: AppIdHash)
    ensures var capital, hub := p.initiatorDecrement + p.responderDecrement, env.kth(p.intermediaryXpub, 0);
            && LeftAgreementOf(env, p, pass) == Agreement(p.token, pass, capital, hub, env.kth(p.initiatorXpub, 0))
            && RightAgreementOf(env, p, pass) == Agreement(p.token, pass, capital, hub, env.kth(p.responderXpub, 0))
  {
  }

  lemma LeftIsSigned(env: Environment, store: Store, p: VirtualParams, pass: AppInstance)
    requires LeftFor(env, store, p).Ok? && Ok(pass) == PassThroughFor(env, store, p)
    ensures var hub := LeftFor(env, store, p).value;
            && hub.freeBalanceApp.Some? && HubCommitment(hub) == SetStateCommitment(hub.freeBalanceApp.value)
            && AgreementCommitment(env, hub, Announced(env, p).0, pass) == AgreementDigestOf(env, hub, pass, p, p.initiatorXpub)
  {
    LeftIsAdded(env, store, p, pass);
    AgreementsAre(env, p, pass.IdentityHash());
    HubIsSigned(env, Find(store, p.LeftPair()).value, Announced(env, p).0, p, pass, p.initiatorXpub, LeftAgreementOf(env, p, pass.IdentityHash()),
                LeftDecrements(env, p), LeftFor(env, store, p).value);
  }

  lemma LeftIsAdded(env: Environment, store: Store, p: VirtualParams, pass: AppInstance)
    requires LeftFor(env, store, p).Ok? && Ok(pass) == PassThroughFor(env, store, p)
    ensures Find(store, p.LeftPair()).Ok?
    ensures LeftFor(env, store, p) == Find(store, p.LeftPair()).value.AddAgreement(
              env, Announced(env, p).0, LeftAgreementOf(env, p, pass.IdentityHash()), LeftDecrements(env, p), p.token)
  {
  }

  lemma RightIsSigned(env: Environment, store: Store, p: VirtualParams, pass: AppInstance)
    requires RightFor(env, store, p).Ok? && Ok(pass) == PassThroughFor(env, store, p)
    ensures var hub := RightFor(env, store, p).value;
            && hub.freeBalanceApp.Some? && HubCommitment(hub) == SetStateCommitment(hub.freeBalanceApp.value)
            && AgreementCommitment(env, hub, Announced(env, p).0, pass) == AgreementDigestOf(env, hub, pass, p, p.responderXpub)
  {
    RightIsAdded(env, store, p, pass);
    AgreementsAre(env, p, pass.IdentityHash());
    HubIsSigned(env, Find(store, p.RightPair()).value, Announced(env, p).0, p, pass, p.responderXpub, RightAgreementOf(env, p, pass.IdentityHash()),
                RightDecrements(env, p), RightFor(env, store, p).value);
  }

  lemma RightIsAdded(env: Environment, store: Store, p: VirtualParams, pass: AppInstance)
    requires RightFor(env, store, p).Ok? && Ok(pass) == PassThroughFor(env, store, p)
    ensures Find(store, p.RightPair()).Ok?
    ensures RightFor(env, store, p) == Find(store, p.RightPair()).value.AddAgreement(
              env, Announced(env, p).0, RightAgreementOf(env, p, pass.IdentityHash()), RightDecrements(env, p), p.token)
  {
  }

  // ---- Install --------------------------------------------------------------------------------

  /** The run of a virtual install from the three stores. */
  function InstallRun(env: Environment, s: Stores, p: VirtualParams): Run {
    RunOf(env, InstallComputed(env, s, p), Announced(env, p).0, true, (p.initiatorXpub, p.intermediaryXpub, p.responderXpub))
  }

  /**
   An initiator that has persisted holds the intermediary's signatures on their agreement and free balance, and the
   signatures of both others on the pass-through and of the responder on the app's first state.
   */
  lemma InstallInitiatorHolds(env: Environment, s: Stores, p: VirtualParams, steps: seq<Step>)
    requires HasPersisted(InstallRun(env, s, p), steps, Initiator)
    ensures InstallForInitiating(env, s.initiator, p).Ok?
    ensures var run, u := InstallRun(env, s, p), InstallForInitiating(env, s.initiator, p).value;
            var hub, r := env.kth(p.intermediaryXpub, 0), env.kth(p.responderXpub, 0);
            && u.hub.freeBalanceApp.Some?
            && RoleHolds(run, steps, Initiator, Signature(hub, AgreementDigestOf(env, u.hub, u.passThrough, p, p.initiatorXpub)))
            && RoleHolds(run, steps, Initiator, Signature(hub, SetStateCommitment(u.hub.freeBalanceApp.value)))
            && RoleHolds(run, steps, Initiator, Signature(hub, PassThroughDigest(env, u.passThrough, p)))
            && RoleHolds(run, steps, Initiator, Signature(r, PassThroughDigest(env, u.passThrough, p)))
            && RoleHolds(run, steps, Initiator, Signature(r, FirstStateDigest(env, p)))
  {
    var c, h, xpubs := InstallComputed(env, s, p), Announced(env, p).0, (p.initiatorXpub, p.intermediaryXpub, p.responderXpub);
    InstallersCompute(env, s, p, steps, Initiator);
    InitiatorSees(env, s, p);
    InstallInitiatorReceives();
    HoldsVirtual(env, c, h, true, xpubs, steps, Initiator, Mid(LeftAgreement));
    HoldsVirtual(env, c, h, true, xpubs, steps, Initiator, Mid(LeftFreeBalance));
    HoldsVirtual(env, c, h, true, xpubs, steps, Initiator, Mid(PassThrough));
    HoldsVirtual(env, c, h, true, xpubs, steps, Initiator, Res(PassThrough));
    HoldsVirtual(env, c, h, true, xpubs, steps, Initiator, Res(VirtualApp));
  }

  lemma InitiatorSees(env: Environment, s: Stores, p: VirtualParams)
    requires InstallForInitiating(env, s.initiator, p).Ok?
    ensures var c, h, u := InstallComputed(env, s, p), Announced(env, p).0, InstallForInitiating(env, s.initiator, p).value;
            && u.hub.freeBalanceApp.Some?
            && View(env, c, h, true, Initiator, LeftAgreement) == AgreementDigestOf(env, u.hub, u.passThrough, p, p.initiatorXpub)
            && View(env, c, h, true, Initiator, LeftFreeBalance) == SetStateCommitment(u.hub.freeBalanceApp.value)
            && View(env, c, h, true, Initiator, PassThrough) == PassThroughDigest(env, u.passThrough, p)
            && View(env, c, h, true, Initiator, VirtualApp) == FirstStateDigest(env, p)
  {
    InitiatorsDocuments(env, s.initiator, p);
    UsersViews(env, InstallComputed(env, s, p), Announced(env, p).0, true);
  }

  /** What a user signs and checks. */
  lemma UsersViews(env: Environment, c: Computed, h: AppIdHash, installing: bool)
    ensures c.i.Ok? ==>
              && View(env, c, h, installing, Initiator, LeftAgreement) == AgreementCommitment(env, c.i.value.hub, h, c.i.value.passThrough)
              && View(env, c, h, installing, Initiator, LeftFreeBalance) == HubCommitment(c.i.value.hub)
              && View(env, c, h, installing, Initiator, PassThrough) == PassThroughCommitment(c.i.value.passThrough, installing)
              && View(env, c, h, installing, Initiator, VirtualApp) == VirtualAppCommitment(c.i.value.users, h)
    ensures c.r.Ok? ==>
              && View(env, c, h, installing, Responder, RightAgreement) == AgreementCommitment(env, c.r.value.hub, h, c.r.value.passThrough)
              && View(env, c, h, installing, Responder, RightFreeBalance) == HubCommitment(c.r.value.hub)
              && View(env, c, h, installing, Responder, PassThrough) == PassThroughCommitment(c.r.value.passThrough, installing)
              && View(env, c, h, installing, Responder, VirtualApp) == VirtualAppCommitment(c.r.value.users, h)
  {
    if c.i.Ok? { UserSees(env, c.i.value, h, Initiator, installing); }
    if c.r.Ok? { UserSees(env, c.r.value, h, Responder, installing); }
  }

  lemma UserSees(env: Environment, u: UserUpdate, h: AppIdHash, role: Role, installing: bool)
    requires role != Intermediary
    ensures UserView(env, Ok(u), h, role, installing, if role == Initiator then LeftAgreement else RightAgreement)
         == AgreementCommitment(env, u.hub, h, u.passThrough)
    ensures UserView(env, Ok(u), h, role, installing, if role == Initiator then LeftFreeBalance else RightFreeBalance) == HubCommitment(u.hub)
    ensures UserView(env, Ok(u), h, role, installing, PassThrough) == PassThroughCommitment(u.passThrough, installing)
    ensures UserView(env, Ok(u), h, role, installing, VirtualApp) == VirtualAppCommitment(u.users, h)
  {
    match role
    case Initiator => InitiatorSeesLeft(env, u, h, installing);
    case Responder => ResponderSeesRight(env, u, h, installing);
  }

  lemma InitiatorSeesLeft(env: Environment, u: UserUpdate, h: AppIdHash, installing: bool)
    ensures UserView(env, Ok(u), h, Initiator, installing, LeftAgreement) == AgreementCommitment(env, u.hub, h, u.passThrough)
    ensures UserView(env, Ok(u), h, Initiator, installing, LeftFreeBalance) == HubCommitment(u.hub)
  {
  }

  lemma ResponderSeesRight(env: Environment, u: UserUpdate, h: AppIdHash, installing: bool)
    ensures UserView(env, Ok(u), h, Responder, installing, RightAgreement) == AgreementCommitment(env, u.hub, h, u.passThrough)
    ensures UserView(env, Ok(u), h, Responder, installing, RightFreeBalance) == HubCommitment(u.hub)
  {
  }

  lemma InitiatorsDocuments(env: Environment, store: Store, p: VirtualParams)
    requires InstallForInitiating(env, store, p).Ok?
    ensures var h, u := Announced(env, p).0, InstallForInitiating(env, store, p).value;
            && u.hub.freeBalanceApp.Some? && HubCommitment(u.hub) == SetStateCommitment(u.hub.freeBalanceApp.value)
            && AgreementCommitment(env, u.hub, h, u.passThrough) == AgreementDigestOf(env, u.hub, u.passThrough, p, p.initiatorXpub)
            && PassThroughCommitment(u.passThrough, true) == PassThroughDigest(env, u.passThrough, p)
            && VirtualAppCommitment(u.users, h) == FirstStateDigest(env, p)
  {
    InitiatingIs(env, store, p);
    InitiatingConstructs(env, store, p);
    LeftIsSigned(env, store, p, PassThroughFor(env, store, p).value);
    PassThroughIsSigned(env, store, p);
    FirstStateIsSigned(env, GetOrCreate(env, store, p.Users()), p);
  }

  lemma InstallersCompute(env: Environment, s: Stores, p: VirtualParams, steps: seq<Step>, role: Role)
    requires HasPersisted(InstallRun(env, s, p), steps, role)
    ensures var c := InstallComputed(env, s, p);
            match role case Initiator => c.i.Ok? case Intermediary => c.m.Ok? case Responder => c.r.Ok?
  {
    PersistedComputes(InstallRun(env, s, p), steps, role);
  }

  lemma InstallInitiatorReceives()
    ensures var g := InstallVirtualAppProtocol().initiator;
            && Receives(g, Mid(LeftAgreement)) && Receives(g, Mid(LeftFreeBalance))
            && Receives(g, Mid(PassThrough)) && Receives(g, Res(PassThrough)) && Receives(g, Res(VirtualApp))
  {
    var g := InstallVirtualAppProtocol().initiator;
    assert Answers(g.code[1], Mid(LeftAgreement)) && Answers(g.code[1], Mid(LeftFreeBalance));
    assert Answers(g.code[7], Mid(PassThrough)) && Answers(g.code[7], Res(PassThrough)) && Answers(g.code[7], Res(VirtualApp));
  }

  lemma IntermediarysViews(env: Environment, c: Computed, h: AppIdHash, installing: bool)
    requires c.m.Ok?
    ensures View(env, c, h, installing, Intermediary, LeftAgreement) == AgreementCommitment(env, c.m.value.left, h, c.m.value.passThrough)
    ensures View(env, c, h, installing, Intermediary, RightAgreement) == AgreementCommitment(env, c.m.value.right, h, c.m.value.passThrough)
    ensures View(env, c, h, installing, Intermediary, LeftFreeBalance) == HubCommitment(c.m.value.left)
    ensures View(env, c, h, installing, Intermediary, RightFreeBalance) == HubCommitment(c.m.value.right)
    ensures View(env, c, h, installing, Intermediary, PassThrough) == PassThroughCommitment(c.m.value.passThrough, installing)
  {
    IntermediarySees(env, c.m.value, h, installing);
  }

  lemma IntermediarySees(env: Environment, m: HubUpdate, h: AppIdHash, installing: bool)
    ensures HubView(env, Ok(m), h, installing, LeftAgreement) == AgreementCommitment(env, m.left, h, m.passThrough)
    ensures HubView(env, Ok(m), h, installing, RightAgreement) == AgreementCommitment(env, m.right, h, m.passThrough)
    ensures HubView(env, Ok(m), h, installing, LeftFreeBalance) == HubCommitment(m.left)
    ensures HubView(env, Ok(m), h, installing, RightFreeBalance) == HubCommitment(m.right)
    ensures HubView(env, Ok(m), h, installing, PassThrough) == PassThroughCommitment(m.passThrough, installing)
  {
  }

  lemma IntermediarysDocuments(env: Environment, store: Store, p: VirtualParams)
    requires InstallForIntermediary(env, store, p, Announced(env, p).0, Announced(env, p).1).Ok?
    ensures var h, m := Announced(env, p).0, InstallForIntermediary(env, store, p, Announced(env, p).0, Announced(env, p).1).value;
            && m.left.freeBalanceApp.Some? && HubCommitment(m.left) == SetStateCommitment(m.left.freeBalanceApp.value)
            && m.right.freeBalanceApp.Some? && HubCommitment(m.right) == SetStateCommitment(m.right.freeBalanceApp.value)
            && AgreementCommitment(env, m.left, h, m.passThrough) == AgreementDigestOf(env, m.left, m.passThrough, p, p.initiatorXpub)
            && AgreementCommitment(env, m.right, h, m.passThrough) == AgreementDigestOf(env, m.right, m.passThrough, p, p.responderXpub)
            && PassThroughCommitment(m.passThrough, true) == PassThroughDigest(env, m.passThrough, p)
  {
    IntermediaryIs(env, store, p);
    LeftIsSigned(env, store, p, PassThroughFor(env, store, p).value);
    RightIsSigned(env, store, p, PassThroughFor(env, store, p).value);
    PassThroughIsSigned(env, store, p);
  }

  lemma InstallIntermediaryIsSent()
    ensures var g := InstallVirtualAppProtocol().intermediary;
            && Receives(g, Ini(LeftAgreement)) && Receives(g, Res(RightAgreement)) && Receives(g, Res(RightFreeBalance))
            && Receives(g, Ini(LeftFreeBalance)) && Receives(g, Ini(PassThrough)) && Receives(g, Res(PassThrough))
  {
    var g := InstallVirtualAppProtocol().intermediary;
    assert Answers(g.code[2], Res(RightAgreement)) && Answers(g.code[2], Res(RightFreeBalance));
    assert Answers(g.code[7], Ini(LeftFreeBalance)) && Answers(g.code[7], Ini(PassThrough)) && Answers(g.code[12], Res(PassThrough));
  }

  /** An intermediary that has persisted holds both users' signatures on their agreements, their free balances and the pass-through. */
  lemma InstallIntermediaryHolds(env: Environment, s: Stores, p: VirtualParams, steps: seq<Step>)
    requires HasPersisted(InstallRun(env, s, p), steps, Intermediary)
    ensures InstallForIntermediary(env, s.intermediary, p, Announced(env, p).0, Announced(env, p).1).Ok?
    ensures var run, m := InstallRun(env, s, p), InstallForIntermediary(env, s.intermediary, p, Announced(env, p).0, Announced(env, p).1).value;
            var i, r := env.kth(p.initiatorXpub, 0), env.kth(p.responderXpub, 0);
            && m.left.freeBalanceApp.Some? && m.right.freeBalanceApp.Some?
            && RoleHolds(run, steps, Intermediary, Signature(i, AgreementDigestOf(env, m.left, m.passThrough, p, p.initiatorXpub)))
            && RoleHolds(run, steps, Intermediary, Signature(r, AgreementDigestOf(env, m.right, m.passThrough, p, p.responderXpub)))
            && RoleHolds(run, steps, Intermediary, Signature(i, SetStateCommitment(m.left.freeBalanceApp.value)))
            && RoleHolds(run, steps, Intermediary, Signature(r, SetStateCommitment(m.right.freeBalanceApp.value)))
            && RoleHolds(run, steps, Intermediary, Signature(i, PassThroughDigest(env, m.passThrough, p)))
            && RoleHolds(run, steps, Intermediary, Signature(r, PassThroughDigest(env, m.passThrough, p)))
  {
    var c, h, xpubs := InstallComputed(env, s, p), Announced(env, p).0, (p.initiatorXpub, p.intermediaryXpub, p.responderXpub);
    InstallersCompute(env, s, p, steps, Intermediary);
    IntermediarysDocuments(env, s.intermediary, p);
    IntermediarysViews(env, c, h, true);
    InstallIntermediaryIsSent();
    HoldsVirtual(env, c, h, true, xpubs, steps, Intermediary, Ini(LeftAgreement));
    HoldsVirtual(env, c, h, true, xpubs, steps, Intermediary, Res(RightAgreement));
    HoldsVirtual(env, c, h, true, xpubs, steps, Intermediary, Ini(LeftFreeBalance));
    HoldsVirtual(env, c, h, true, xpubs, steps, Intermediary, Res(RightFreeBalance));
    HoldsVirtual(env, c, h, true, xpubs, steps, Intermediary, Ini(PassThrough));
    HoldsVirtual(env, c, h, true, xpubs, steps, Intermediary, Res(PassThrough));
  }

  lemma RespondersDocuments(env: Environment, store: Store, p: VirtualParams)
    requires InstallForResponding(env, store, p).Ok?
    ensures var h, u := Announced(env, p).0, InstallForResponding(env, store, p).value;
            && u.hub.freeBalanceApp.Some? && HubCommitment(u.hub) == SetStateCommitment(u.hub.freeBalanceApp.value)
            && AgreementCommitment(env, u.hub, h, u.passThrough) == AgreementDigestOf(env, u.hub, u.passThrough, p, p.responderXpub)
            && PassThroughCommitment(u.passThrough, true) == PassThroughDigest(env, u.passThrough, p)
            && VirtualAppCommitment(u.users, h) == FirstStateDigest(env, p)
  {
    RespondingIs(env, store, p);
    RespondingConstructs(env, store, p);
    RightIsSigned(env, store, p, PassThroughFor(env, store, p).value);
    PassThroughIsSigned(env, store, p);
    FirstStateIsSigned(env, GetOrCreate(env, store, p.Users()), p);
  }

  lemma RespondingConstructs(env: Environment, store: Store, p: VirtualParams)
    requires InstallForResponding(env, store, p).Ok?
    ensures ConstructVirtualApp(env, p).Ok?
  {
  }

  lemma InstallResponderIsSent()
    ensures var g := InstallVirtualAppProtocol().responder;
            && Receives(g, Mid(RightAgreement)) && Receives(g, Mid(RightFreeBalance))
            && Receives(g, Mid(PassThrough)) && Receives(g, Ini(PassThrough)) && Receives(g, Ini(VirtualApp))
  {
    var g := InstallVirtualAppProtocol().responder;
    assert Answers(g.code[3], Mid(RightFreeBalance)) && Answers(g.code[3], Mid(PassThrough));
    assert Answers(g.code[3], Ini(PassThrough)) && Answers(g.code[3], Ini(VirtualApp));
  }

  /**
   A responder that has persisted holds the intermediary's signatures on their agreement and free balance, and the
   signatures of both others on the pass-through and of the initiator on the app's first state.
   */
  lemma InstallResponderHolds(env: Environment, s: Stores, p: VirtualParams, steps: seq<Step>)
    requires HasPersisted(InstallRun(env, s, p), steps, Responder)
    ensures InstallForResponding(env, s.responder, p).Ok?
    ensures var run, u := InstallRun(env, s, p), InstallForResponding(env, s.responder, p).value;
            var hub, i := env.kth(p.intermediaryXpub, 0), env.kth(p.initiatorXpub, 0);
            && u.hub.freeBalanceApp.Some?
            && RoleHolds(run, steps, Responder, Signature(hub, AgreementDigestOf(env, u.hub, u.passThrough, p, p.responderXpub)))
            && RoleHolds(run, steps, Responder, Signature(hub, SetStateCommitment(u.hub.freeBalanceApp.value)))
            && RoleHolds(run, steps, Responder, Signature(hub, PassThroughDigest(env, u.passThrough, p)))
            && RoleHolds(run, steps, Responder, Signature(i, PassThroughDigest(env, u.passThrough, p)))
            && RoleHolds(run, steps, Responder, Signature(i, FirstStateDigest(env, p)))
  {
    var c, h, xpubs := InstallComputed(env, s, p), Announced(env, p).0, (p.initiatorXpub, p.intermediaryXpub, p.responderXpub);
    InstallersCompute(env, s, p, steps, Responder);
    RespondersDocuments(env, s.responder, p);
    UsersViews(env, c, h, true);
    InstallResponderIsSent();
    HoldsVirtual(env, c, h, true, xpubs, steps, Responder, Mid(RightAgreement));
    HoldsVirtual(env, c, h, true, xpubs, steps, Responder, Mid(RightFreeBalance));
    HoldsVirtual(env, c, h, true, xpubs, steps, Responder, Mid(PassThrough));
    HoldsVirtual(env, c, h, true, xpubs, steps, Responder, Ini(PassThrough));
    HoldsVirtual(env, c, h, true, xpubs, steps, Responder, Ini(VirtualApp));
  }

  // ---- Uninstall ------------------------------------------------------------------------------

  function UninstallRun(env: Environment, s: Stores, p: UninstallParams, blocks: (int, int, int)): Run {
    RunOf(env, UninstallComputed(env, s, p, blocks), p.target, false, (p.initiatorXpub, p.intermediaryXpub, p.responderXpub))
  }

  /** The pass-through switched to the outcome proposed, at its own number as the version. */
  ghost predicate SwitchedTo(pass: AppInstance, outcome: Outcome) {
    pass.latestState.PassThroughState? && pass.latestState.switchesOutcomeAt == 0 && pass.latestState.defaultOutcome == outcome
  }

  function OffDigest(pass: AppInstance): Digest {
    SetStateDigest(pass.IdentityHash(), pass.appSeqNo, pass.defaultTimeout, pass.latestState)
  }

  lemma UninstallersCompute(env: Environment, s: Stores, p: UninstallParams, blocks: (int, int, int), steps: seq<Step>, role: Role)
    requires HasPersisted(UninstallRun(env, s, p, blocks), steps, role)
    ensures var c := UninstallComputed(env, s, p, blocks);
            match role
            case Initiator => c.i.Ok? && c.i.value.hub.freeBalanceApp.Some?
            case Intermediary => c.m.Ok? && c.m.value.left.freeBalanceApp.Some? && c.m.value.right.freeBalanceApp.Some?
            case Responder => c.r.Ok? && c.r.value.hub.freeBalanceApp.Some?
  {
    PersistedComputes(UninstallRun(env, s, p, blocks), steps, role);
    HubDesync.UninstallAdvances(env, s, p, blocks);
  }

  lemma SwitchedIsOff(pass: AppInstance, outcome: Outcome)
    requires pass.latestState.PassThroughState? && SwitchedOff(pass, outcome).Ok?
    ensures SwitchedTo(SwitchedOff(pass, outcome).value, outcome)
  {
  }

  lemma InitiatingSwitchesOff(env: Environment, store: Store, p: UninstallParams, block: int)
    requires UninstallForInitiating(env, store, p, block).Ok?
    ensures SwitchedTo(UninstallForInitiating(env, store, p, block).value.passThrough, p.targetOutcome)
  {
    var agreement := Find(store, p.LeftPair()).value.GetAgreement(p.target).value;
    var pass := PassThroughOf(Find(store, p.All()).value, agreement.timeLockedPassThroughIdentityHash).value;
    SwitchedIsOff(pass, p.targetOutcome);
    assert SwitchedOff(pass, p.targetOutcome) == Ok(UninstallForInitiating(env, store, p, block).value.passThrough);
  }

  lemma RespondingSwitchesOff(env: Environment, store: Store, p: UninstallParams, block: int)
    requires UninstallForResponding(env, store, p, block).Ok?
    ensures SwitchedTo(UninstallForResponding(env, store, p, block).value.passThrough, p.targetOutcome)
  {
    var agreement := Find(store, p.RightPair()).value.GetAgreement(p.target).value;
    var pass := PassThroughOf(Find(store, p.All()).value, agreement.timeLockedPassThroughIdentityHash).value;
    SwitchedIsOff(pass, p.targetOutcome);
    assert SwitchedOff(pass, p.targetOutcome) == Ok(UninstallForResponding(env, store, p, block).value.passThrough);
  }

  lemma IntermediarySwitchesOff(env: Environment, store: Store, p: UninstallParams, block: int)
    requires UninstallForIntermediary(env, store, p, block).Ok?
    ensures SwitchedTo(UninstallForIntermediary(env, store, p, block).value.passThrough, p.targetOutcome)
  {
    var agreement := Find(store, p.LeftPair()).value.GetAgreement(p.target).value;
    var pass := PassThroughOf(Find(store, p.All()).value, agreement.timeLockedPassThroughIdentityHash).value;
    SwitchedIsOff(pass, p.targetOutcome);
    assert SwitchedOff(pass, p.targetOutcome) == Ok(UninstallForIntermediary(env, store, p, block).value.passThrough);
  }

  lemma UninstallIsSent()
    ensures var i, m, r := UninstallVirtualAppProtocol().initiator, UninstallVirtualAppProtocol().intermediary, UninstallVirtualAppProtocol().responder;
            && Receives(i, Res(PassThrough)) && Receives(i, Mid(PassThrough)) && Receives(i, Mid(LeftFreeBalance))
            && Receives(m, Ini(PassThrough)) && Receives(m, Res(PassThrough)) && Receives(m, Ini(LeftFreeBalance)) && Receives(m, Res(RightFreeBalance))
            && Receives(r, Ini(PassThrough)) && Receives(r, Mid(PassThrough)) && Receives(r, Mid(RightFreeBalance))
  {
    var i, m, r := UninstallVirtualAppProtocol().initiator, UninstallVirtualAppProtocol().intermediary, UninstallVirtualAppProtocol().responder;
    assert Answers(i.code[1], Res(PassThrough)) && Answers(i.code[1], Mid(PassThrough)) && Answers(i.code[5], Mid(LeftFreeBalance));
    assert Answers(m.code[2], Res(PassThrough)) && Answers(m.code[4], Ini(LeftFreeBalance)) && Answers(m.code[8], Res(RightFreeBalance));
    assert Answers(r.code[3], Mid(RightFreeBalance));
  }

  /** A user that has persisted holds the intermediary's signature on the new free balance, and both others' on the switched-off pass-through. */
  lemma UninstallUserHolds(env: Environment, s: Stores, p: UninstallParams, blocks: (int, int, int), steps: seq<Step>, role: Role)
    requires HasPersisted(UninstallRun(env, s, p, blocks), steps, role) && role != Intermediary
    ensures var run, c := UninstallRun(env, s, p, blocks), UninstallComputed(env, s, p, blocks);
            var u, other := if role == Initiator then c.i else c.r, if role == Initiator then p.responderXpub else p.initiatorXpub;
            && u.Ok? && u.value.hub.freeBalanceApp.Some? && SwitchedTo(u.value.passThrough, p.targetOutcome)
            && RoleHolds(run, steps, role, Signature(env.kth(p.intermediaryXpub, 0), SetStateCommitment(u.value.hub.freeBalanceApp.value)))
            && RoleHolds(run, steps, role, Signature(env.kth(p.intermediaryXpub, 0), OffDigest(u.value.passThrough)))
            && RoleHolds(run, steps, role, Signature(env.kth(other, 0), OffDigest(u.value.passThrough)))
  {
    var c, h, xpubs := UninstallComputed(env, s, p, blocks), p.target, (p.initiatorXpub, p.intermediaryXpub, p.responderXpub);
    UninstallersCompute(env, s, p, blocks, steps, role);
    if role == Initiator { InitiatingSwitchesOff(env, s.initiator, p, blocks.0); } else { RespondingSwitchesOff(env, s.responder, p, blocks.2); }
    UsersViews(env, c, h, false);
    UninstallIsSent();
    HoldsVirtual(env, c, h, false, xpubs, steps, role, Mid(PassThrough));
    HoldsVirtual(env, c, h, false, xpubs, steps, role, if role == Initiator then Res(PassThrough) else Ini(PassThrough));
    HoldsVirtual(env, c, h, false, xpubs, steps, role, if role == Initiator then Mid(LeftFreeBalance) else Mid(RightFreeBalance));
  }

  /** An intermediary that has persisted holds each user's signature on that channel's new free balance and on the switched-off pass-through. */
  lemma UninstallIntermediaryHolds(env: Environment, s: Stores, p: UninstallParams, blocks: (int, int, int), steps: seq<Step>)
    requires HasPersisted(UninstallRun(env, s, p, blocks), steps, Intermediary)
    ensures var run, c := UninstallRun(env, s, p, blocks), UninstallComputed(env, s, p, blocks);
            var i, r := env.kth(p.initiatorXpub, 0), env.kth(p.responderXpub, 0);
            && c.m.Ok? && c.m.value.left.freeBalanceApp.Some? && c.m.value.right.freeBalanceApp.Some? && SwitchedTo(c.m.value.passThrough, p.targetOutcome)
            && RoleHolds(run, steps, Intermediary, Signature(i, SetStateCommitment(c.m.value.left.freeBalanceApp.value)))
            && RoleHolds(run, steps, Intermediary, Signature(r, SetStateCommitment(c.m.value.right.freeBalanceApp.value)))
            && RoleHolds(run, steps, Intermediary, Signature(i, OffDigest(c.m.value.passThrough)))
            && RoleHolds(run, steps, Intermediary, Signature(r, OffDigest(c.m.value.passThrough)))
  {
    var c, h, xpubs := UninstallComputed(env, s, p, blocks), p.target, (p.initiatorXpub, p.intermediaryXpub, p.responderXpub);
    UninstallersCompute(env, s, p, blocks, steps, Intermediary);
    IntermediarySwitchesOff(env, s.intermediary, p, blocks.1);
    IntermediarysViews(env, c, h, false);
    UninstallIsSent();
    HoldsVirtual(env, c, h, false, xpubs, steps, Intermediary, Ini(LeftFreeBalance));
    HoldsVirtual(env, c, h, false, xpubs, steps, Intermediary, Res(RightFreeBalance));
    HoldsVirtual(env, c, h, false, xpubs, steps, Intermediary, Ini(PassThrough));
    HoldsVirtual(env, c, h, false, xpubs, steps, Intermediary, Res(PassThrough));
  }
}
