/** Runs of the virtual protocols over the parties' stores: honest runs complete with agreeing stores. */
module VirtualRuns {
  import opened OrderedMaps
  import opened Models
  import opened FreeBalances
  import opened StateChannels
  import opened DirectTransitions
  import opened VirtualApps
  import Lookup
  import opened Protocols
  import Choreography
  import opened Scripts
  import opened ProtocolRuns
  import opened StaticChecks
  import AbandonedRuns

  /** The transaction between a user and the intermediary that the agreement stands for. */
  function AgreementCommitment(env: Environment, hub: StateChannel, h: AppIdHash, passThrough: AppInstance): Digest {
    match hub.GetAgreement(h)
    case Ok(a) =>
      if hub.freeBalanceApp.None? then OtherDigest(0)
      else AgreementDigest(hub.multisigAddress, hub.MultisigOwners(env), passThrough.IdentityHash(),
                           hub.freeBalanceApp.value.IdentityHash(), a.capitalProvided, a.capitalProvider, a.virtualAppUser, a.token)
    case Err(_) => OtherDigest(0)
  }

  function HubCommitment(hub: StateChannel): Digest {
    if hub.freeBalanceApp.Some? then SetStateCommitment(hub.freeBalanceApp.value) else OtherDigest(0)
  }

  /** An uninstall signs the pass-through's last state with its sequence number as the version. */
  function PassThroughCommitment(app: AppInstance, installing: bool): Digest {
    SetStateDigest(app.IdentityHash(), if installing then app.latestVersionNumber else app.appSeqNo, app.defaultTimeout, app.latestState)
  }

  function VirtualAppCommitment(users: StateChannel, h: AppIdHash): Digest {
    match users.GetAppInstance(h)
    case Ok(app) => SetStateDigest(app.IdentityHash(), app.latestVersionNumber, app.defaultTimeout, app.latestState)
    case Err(_) => OtherDigest(0)
  }

  function UserView(env: Environment, r: Result<UserUpdate>, h: AppIdHash, role: Role, installing: bool, doc: Doc): Digest {
    if r.Err? then OtherDigest(0) else
      match doc
      case LeftAgreement => if role == Initiator then AgreementCommitment(env, r.value.hub, h, r.value.passThrough) else OtherDigest(0)
      case RightAgreement => if role == Responder then AgreementCommitment(env, r.value.hub, h, r.value.passThrough) else OtherDigest(0)
      case LeftFreeBalance => if role == Initiator then HubCommitment(r.value.hub) else OtherDigest(0)
      case RightFreeBalance => if role == Responder then HubCommitment(r.value.hub) else OtherDigest(0)
      case PassThrough => PassThroughCommitment(r.value.passThrough, installing)
      case VirtualApp => VirtualAppCommitment(r.value.users, h)
      case _ => OtherDigest(0)
  }

  function HubView(env: Environment, r: Result<HubUpdate>, h: AppIdHash, installing: bool, doc: Doc): Digest {
    if r.Err? then OtherDigest(0) else
      match doc
      case LeftAgreement => AgreementCommitment(env, r.value.left, h, r.value.passThrough)
      case RightAgreement => AgreementCommitment(env, r.value.right, h, r.value.passThrough)
      case LeftFreeBalance => HubCommitment(r.value.left)
      case RightFreeBalance => HubCommitment(r.value.right)
      case PassThrough => PassThroughCommitment(r.value.passThrough, installing)
      case _ => OtherDigest(0)
  }

  /** What the three parties have computed, each from its own store. */
  datatype Computed = Computed(i: Result<UserUpdate>, m: Result<HubUpdate>, r: Result<UserUpdate>)

  function View(env: Environment, c: Computed, h: AppIdHash, installing: bool, role: Role, doc: Doc): Digest {
    match role
    case Initiator => UserView(env, c.i, h, Initiator, installing, doc)
    case Intermediary => HubView(env, c.m, h, installing, doc)
    case Responder => UserView(env, c.r, h, Responder, installing, doc)
  }

  function RunOf(env: Environment, c: Computed, h: AppIdHash, installing: bool, xpubs: (Xpub, Xpub, Xpub)): Run {
    Run(if installing then InstallVirtualAppProtocol() else UninstallVirtualAppProtocol(),
        (v: Var) => env.kth(match v.signer case Initiator => xpubs.0 case Intermediary => xpubs.1 case Responder => xpubs.2, 0),
        (role, doc) => View(env, c, h, installing, role, doc),
        (role: Role) => match role case Initiator => c.i.Ok? case Intermediary => c.m.Ok? case Responder => c.r.Ok?)
  }

  /** The commitment an uninstall signs outranks the one the install signed, for the same pass-through. */
  lemma SwitchOffSupersedes(env: Environment, three: StateChannel, h: AppIdHash, default: Outcome, p: VirtualParams, final: Outcome)
    requires three.numProposedApps > 0 && p.outcomeType != MultiAssetMultiPartyCoinTransfer
    ensures var pass := ConstructPassThrough(env, three, h, default, p);
            && pass.Ok? && SwitchedOff(pass.value, final).Ok?
            && var first, last := PassThroughCommitment(pass.value, true), PassThroughCommitment(SwitchedOff(pass.value, final).value, false);
               && last.identity == first.identity && last.version > first.version
               && last.state == PassThroughState(h, 0, final)
  {
  }

  /** The roles that compute a document for themselves. */
  predicate Sees(r: Role, d: Doc) {
    match d
    case LeftAgreement => r != Responder
    case LeftFreeBalance => r != Responder
    case RightAgreement => r != Initiator
    case RightFreeBalance => r != Initiator
    case PassThrough => true
    case VirtualApp => r != Intermediary
    case _ => false
  }

  ghost predicate ChecksWhatItSees(p: Protocol, r: Role) {
    forall i :: 0 <= i < |p.Of(r).code| && p.Of(r).code[i].Check? ==>
      Sees(r, p.Of(r).code[i].v.doc) && Sees(p.Of(r).code[i].v.signer, p.Of(r).code[i].v.doc)
  }

  lemma InstallInitiatorSees()
    ensures ChecksWhatItSees(InstallVirtualAppProtocol(), Initiator)
  {
  }

  lemma InstallIntermediarySees()
    ensures ChecksWhatItSees(InstallVirtualAppProtocol(), Intermediary)
  {
  }

  lemma InstallResponderSees()
    ensures ChecksWhatItSees(InstallVirtualAppProtocol(), Responder)
  {
  }

  lemma InstallChecksWhatItSees(r: Role)
    ensures ChecksWhatItSees(InstallVirtualAppProtocol(), r)
  {
    match r
    case Initiator => InstallInitiatorSees();
    case Intermediary => InstallIntermediarySees();
    case Responder => InstallResponderSees();
  }

  lemma UninstallChecksWhatItSees(r: Role)
    ensures ChecksWhatItSees(UninstallVirtualAppProtocol(), r)
  {
  }

  /** The agreement is signed for the owners, who do not depend on the order of the keys. */
  lemma AgreementIgnoresKeyOrder(env: Environment, c: StateChannel, d: StateChannel, h: AppIdHash, pass: AppInstance)
    requires env.Valid() && Lookup.Alike(c, d)
    ensures AgreementCommitment(env, c, h, pass) == AgreementCommitment(env, d, h, pass)
    ensures HubCommitment(c) == HubCommitment(d) && VirtualAppCommitment(c, h) == VirtualAppCommitment(d, h)
  {
    Lookup.ChannelIgnoresKeyOrder(env, c, d.xpubs, 0);
  }

  lemma AgreeingViewsShareDocuments(env: Environment, c: Computed, h: AppIdHash, installing: bool, a: Role, b: Role, d: Doc)
    requires env.Valid() && ViewsAgree(c.i, c.m, c.r) && Sees(a, d) && Sees(b, d)
    ensures View(env, c, h, installing, a, d) == View(env, c, h, installing, b, d)
  {
    AgreementIgnoresKeyOrder(env, c.i.value.hub, c.m.value.left, h, c.m.value.passThrough);
    AgreementIgnoresKeyOrder(env, c.m.value.right, c.r.value.hub, h, c.m.value.passThrough);
    AgreementIgnoresKeyOrder(env, c.i.value.users, c.r.value.users, h, c.m.value.passThrough);
  }

  lemma AgreeingViewsAreInSync(env: Environment, c: Computed, h: AppIdHash, installing: bool, xpubs: (Xpub, Xpub, Xpub))
    requires env.Valid() && ViewsAgree(c.i, c.m, c.r)
    ensures InSync(RunOf(env, c, h, installing, xpubs))
  {
    var run := RunOf(env, c, h, installing, xpubs);
    forall r: Role, i | 0 <= i < |run.protocol.Of(r).code| && run.protocol.Of(r).code[i].Check?
      ensures var v := run.protocol.Of(r).code[i].v; run.view(r, v.doc) == run.view(v.signer, v.doc)
    {
      if installing { InstallChecksWhatItSees(r); } else { UninstallChecksWhatItSees(r); }
      var v := run.protocol.Of(r).code[i].v;
      AgreeingViewsShareDocuments(env, c, h, installing, r, v.signer, v.doc);
    }
  }

  /**
   When the three computations agree, no signature check of a fault-free run fails, and when no step is
   left all three have persisted.
   */
  lemma HonestRunCompletes(env: Environment, c: Computed, h: AppIdHash, installing: bool, xpubs: (Xpub, Xpub, Xpub), steps: seq<Step>)
    requires env.Valid() && ViewsAgree(c.i, c.m, c.r) && Faultless(steps) && Execute(RunOf(env, c, h, installing, xpubs), steps).Some?
    ensures var run := RunOf(env, c, h, installing, xpubs);
            var end := Execute(run, steps).value;
            && Roles(end) && (forall r: Role :: end.locals[r].phase != Stopped)
            && (!Enabled(run, end) ==> forall r: Role :: end.locals[r].persisted)
  {
    var run := RunOf(env, c, h, installing, xpubs);
    AgreeingViewsAreInSync(env, c, h, installing, xpubs);
    EveryProtocolIsWellFormed(run.protocol);
    FaultlessRunCompletes(run, steps);
    var end := Execute(run, steps).value;
    if !Enabled(run, end) {
      forall r: Role ensures end.locals[r].persisted {
        EveryoneActs(installing, r);
        assert Finished(run, r, end.locals[r]);
      }
    }
  }

  lemma EveryoneActs(installing: bool, r: Role)
    ensures (if installing then InstallVirtualAppProtocol() else UninstallVirtualAppProtocol()).Of(r).code != []
  {
  }

  lemma VirtualInstallPersistsLast(r: Role)
    ensures AbandonedRuns.PersistsLast(InstallVirtualAppProtocol().Of(r))
  {
  }

  /**
   In a virtual install every party persists last of all. So although all three computed agreeing
   channels and no message was lost, a run can be abandoned with any of them, alone or together,
   having persisted and the others not.
   */
  lemma VirtualInstallLeavesAnySubset(env: Environment, c: Computed, h: AppIdHash, xpubs: (Xpub, Xpub, Xpub), behind: set<Role>)
    returns (steps: seq<Step>)
    requires env.Valid() && ViewsAgree(c.i, c.m, c.r)
    ensures Faultless(steps) && Execute(RunOf(env, c, h, true, xpubs), steps).Some?
    ensures var end := Execute(RunOf(env, c, h, true, xpubs), steps).value;
            forall r: Role :: r in end.locals && (end.locals[r].persisted <==> r !in behind)
  {
    var run := RunOf(env, c, h, true, xpubs);
    AgreeingViewsAreInSync(env, c, h, true, xpubs);
    EveryProtocolIsWellFormed(run.protocol);
    forall r: Role ensures AbandonedRuns.PersistsLast(run.protocol.Of(r)) { VirtualInstallPersistsLast(r); }
    steps := AbandonedRuns.AnySubsetMayPersist(run, behind);
  }

  function InstallComputed(env: Environment, s: Stores, p: VirtualParams): Computed {
    Computed(InstallForInitiating(env, s.initiator, p),
             InstallForIntermediary(env, s.intermediary, p, Announced(env, p).0, Announced(env, p).1),
             InstallForResponding(env, s.responder, p))
  }

  function UninstallComputed(env: Environment, s: Stores, p: UninstallParams, blocks: (int, int, int)): Computed {
    Computed(UninstallForInitiating(env, s.initiator, p, blocks.0), UninstallForIntermediary(env, s.intermediary, p, blocks.1),
             UninstallForResponding(env, s.responder, p, blocks.2))
  }

  /** From stores in sync, an honest virtual install that the intermediary can compute persists at all three parties. */
  lemma HonestInstall(env: Environment, s: Stores, p: VirtualParams, steps: seq<Step>)
    requires env.Valid() && InSyncAt(s, p.All(), p.Users(), p.LeftPair(), p.RightPair())
    requires InstallComputed(env, s, p).m.Ok? && Faultless(steps)
    requires var run := RunOf(env, InstallComputed(env, s, p), Announced(env, p).0, true, (p.initiatorXpub, p.intermediaryXpub, p.responderXpub));
             Execute(run, steps).Some? && !Enabled(run, Execute(run, steps).value)
    ensures var c := InstallComputed(env, s, p);
            var end := Execute(RunOf(env, c, Announced(env, p).0, true, (p.initiatorXpub, p.intermediaryXpub, p.responderXpub)), steps).value;
            ViewsAgree(c.i, c.m, c.r) && forall r: Role :: r in end.locals && end.locals[r].persisted
  {
    InstallViewsAgree(env, s, p);
    HonestRunCompletes(env, InstallComputed(env, s, p), Announced(env, p).0, true, (p.initiatorXpub, p.intermediaryXpub, p.responderXpub), steps);
  }

  /** The same for a virtual uninstall that proposes the outcome the app computes before it expires. */
  lemma HonestUninstall(env: Environment, s: Stores, p: UninstallParams, blocks: (int, int, int), steps: seq<Step>)
    requires env.Valid() && InSyncAt(s, p.All(), p.Users(), p.LeftPair(), p.RightPair())
    requires HoldVirtualApp(s, p) && Unexpired(s, p, blocks)
    requires OutcomeNow(env, AppHeld(s, p).value) == p.targetOutcome
    requires UninstallComputed(env, s, p, blocks).m.Ok? && Faultless(steps)
    requires var run := RunOf(env, UninstallComputed(env, s, p, blocks), p.target, false, (p.initiatorXpub, p.intermediaryXpub, p.responderXpub));
             Execute(run, steps).Some? && !Enabled(run, Execute(run, steps).value)
    ensures var c := UninstallComputed(env, s, p, blocks);
            var end := Execute(RunOf(env, c, p.target, false, (p.initiatorXpub, p.intermediaryXpub, p.responderXpub)), steps).value;
            ViewsAgree(c.i, c.m, c.r) && forall r: Role :: r in end.locals && end.locals[r].persisted
  {
    UninstallViewsAgree(env, s, p, blocks);
    HonestRunCompletes(env, UninstallComputed(env, s, p, blocks), p.target, false, (p.initiatorXpub, p.intermediaryXpub, p.responderXpub), steps);
  }

  ghost predicate Funded(c: Computed) {
    && (c.i.Ok? ==> c.i.value.hub.freeBalanceApp.Some?) && (c.r.Ok? ==> c.r.value.hub.freeBalanceApp.Some?)
    && (c.m.Ok? ==> c.m.value.left.freeBalanceApp.Some? && c.m.value.right.freeBalanceApp.Some?)
  }

  predicate LeftAgreed(c: Computed) {
    c.i.Ok? && c.m.Ok? && HubCommitment(c.i.value.hub) == HubCommitment(c.m.value.left)
  }

  predicate RightAgreed(c: Computed) {
    c.r.Ok? && c.m.Ok? && HubCommitment(c.r.value.hub) == HubCommitment(c.m.value.right)
  }

  /** What the commitments a role has had countersigned say about the computed channels. */
  predicate HubsAgree(c: Computed, r: Role) {
    match r
    case Initiator => LeftAgreed(c)
    case Intermediary => LeftAgreed(c) && RightAgreed(c)
    case Responder => RightAgreed(c)
  }

  /**
   Whatever the stores and wherever the run is abandoned: a party that has persisted has computed, for
   each channel it shares with a counterparty, the free balance which that counterparty computed too.
   */
  lemma PersistedHubsAgree(env: Environment, c: Computed, h: AppIdHash, installing: bool, xpubs: (Xpub, Xpub, Xpub), steps: seq<Step>, r: Role)
    requires Funded(c) && Faithful(steps) && Execute(RunOf(env, c, h, installing, xpubs), steps).Some?
    ensures var end := Execute(RunOf(env, c, h, installing, xpubs), steps).value;
            r in end.locals && (end.locals[r].persisted ==> HubsAgree(c, r))
  {
    var run := RunOf(env, c, h, installing, xpubs);
    PersistedComputes(run, steps, r);
    forall v | v in run.protocol.Of(r).saves
      ensures Execute(run, steps).value.locals[r].persisted ==> run.view(r, v.doc) == run.view(v.signer, v.doc)
    {
      VirtualScriptFacts(installing);
      PersistedMeansAgreed(run, steps, r, v);
    }
    if Execute(run, steps).value.locals[r].persisted {
      AgreedSaves(env, c, h, installing, xpubs, r);
    }
  }

  lemma AgreedSaves(env: Environment, c: Computed, h: AppIdHash, installing: bool, xpubs: (Xpub, Xpub, Xpub), r: Role)
    requires var run := RunOf(env, c, h, installing, xpubs);
             Funded(c) && run.computes(r) && forall v :: v in run.protocol.Of(r).saves ==> run.view(r, v.doc) == run.view(v.signer, v.doc)
    ensures HubsAgree(c, r)
  {
    var saves := RunOf(env, c, h, installing, xpubs).protocol.Of(r).saves;
    VirtualScriptFacts(installing);
    if r != Responder {
      assert (if r == Initiator then Mid(LeftFreeBalance) else Ini(LeftFreeBalance)) in saves;
      SharedLeft(env, c, h, installing);
    }
    if r != Initiator {
      assert (if r == Responder then Mid(RightFreeBalance) else Res(RightFreeBalance)) in saves;
      SharedRight(env, c, h, installing);
    }
  }

  lemma SharedLeft(env: Environment, c: Computed, h: AppIdHash, installing: bool)
    requires Funded(c) && (c.i.Ok? || c.m.Ok?)
    ensures View(env, c, h, installing, Initiator, LeftFreeBalance) == View(env, c, h, installing, Intermediary, LeftFreeBalance) ==> LeftAgreed(c)
  {
  }

  lemma SharedRight(env: Environment, c: Computed, h: AppIdHash, installing: bool)
    requires Funded(c) && (c.m.Ok? || c.r.Ok?)
    ensures View(env, c, h, installing, Responder, RightFreeBalance) == View(env, c, h, installing, Intermediary, RightFreeBalance) ==> RightAgreed(c)
  {
  }

  lemma VirtualScriptFacts(installing: bool)
    ensures var p := if installing then InstallVirtualAppProtocol() else UninstallVirtualAppProtocol();
            && Choreography.WellFormed(p) && (forall r: Role :: PersistsCountersigned(p.Of(r)))
            && p.initiator.saves == [Mid(LeftFreeBalance)] && p.responder.saves == [Mid(RightFreeBalance)]
            && p.intermediary.saves == [Ini(LeftFreeBalance), Res(RightFreeBalance)]
  {
    var p := if installing then InstallVirtualAppProtocol() else UninstallVirtualAppProtocol();
    EveryProtocolIsWellFormed(p);
    CountersignedIffNotPropose(p);
    VirtualIsNotPropose(installing);
  }

  lemma VirtualIsNotPropose(installing: bool)
    ensures (if installing then InstallVirtualAppProtocol() else UninstallVirtualAppProtocol()) != ProposeProtocol()
  {
  }
}
