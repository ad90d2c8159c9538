/**
 The channel between a user and the intermediary, when virtual apps are installed and uninstalled over
 it among the direct runs. The two stores drift no further apart than by one run.
 */
module HubDesync {
  import opened OrderedMaps
  import opened Models
  import opened FreeBalances
  import opened StateChannels
  import opened DirectTransitions
  import opened Protocols
  import opened ProtocolRuns
  import VirtualApps
  import VirtualRuns
  import Desync
  import AppDesync
  import Proposals
  import Withdrawals
  import ChannelRuns

  datatype VirtualDeed =
    | VirtualInstall(install: VirtualApps.VirtualParams)
    | VirtualUninstall(uninstall: VirtualApps.UninstallParams, blocks: (int, int, int))
  {
    function Target(env: Environment): AppIdHash {
      if VirtualInstall? then VirtualApps.Announced(env, install).0 else uninstall.target
    }

    function People(): (Xpub, Xpub, Xpub) {
      if VirtualInstall? then (install.initiatorXpub, install.intermediaryXpub, install.responderXpub)
      else (uninstall.initiatorXpub, uninstall.intermediaryXpub, uninstall.responderXpub)
    }

    /** The owners of the initiator's channel with the intermediary, or of the responder's. */
    function Pair(left: bool): seq<Xpub> {
      [if left then People().0 else People().2, People().1]
    }

    function Computed(env: Environment, s: VirtualApps.Stores): VirtualRuns.Computed {
      if VirtualInstall? then VirtualRuns.InstallComputed(env, s, install) else VirtualRuns.UninstallComputed(env, s, uninstall, blocks)
    }
  }

  /**
   A virtual run seen from one of the intermediary's channels: the initiator's (`left`) or the
   responder's. `rest` is what the three parties store besides that channel.
   */
  datatype VirtualSession = VirtualSession(deed: VirtualDeed, left: bool, firstIsUser: bool, rest: VirtualApps.Stores, steps: seq<Step>)
  {
    function UserOf(s: Desync.Stores): StateChannel {
      if firstIsUser then s.first else s.second
    }

    function HubOf(s: Desync.Stores): StateChannel {
      if firstIsUser then s.second else s.first
    }

    /** The three stores, with the parties' copies of the channel in them. */
    function StoresWith(s: Desync.Stores): VirtualApps.Stores {
      var k := multiset(deed.Pair(left));
      var hubStore := rest.intermediary[k := HubOf(s)];
      if left then VirtualApps.Stores(rest.initiator[k := UserOf(s)], hubStore, rest.responder)
      else VirtualApps.Stores(rest.initiator, hubStore, rest.responder[k := UserOf(s)])
    }

    function ComputedFrom(env: Environment, s: Desync.Stores): VirtualRuns.Computed {
      deed.Computed(env, StoresWith(s))
    }

    function RunFrom(env: Environment, s: Desync.Stores): Run {
      VirtualRuns.RunOf(env, ComputedFrom(env, s), deed.Target(env), deed.VirtualInstall?, deed.People())
    }

    ghost predicate Happens(env: Environment, s: Desync.Stores) {
      Faithful(steps) && Execute(RunFrom(env, s), steps).Some?
    }

    function Persisted(env: Environment, s: Desync.Stores, role: Role): bool {
      match Execute(RunFrom(env, s), steps)
      case None => false
      case Some(end) => role in end.locals && end.locals[role].persisted
    }

    function UserPost(env: Environment, s: Desync.Stores): Result<StateChannel> {
      match (if left then ComputedFrom(env, s).i else ComputedFrom(env, s).r)
      case Ok(u) => Ok(u.hub)
      case Err(e) => Err(e)
    }

    function HubPost(env: Environment, s: Desync.Stores): Result<StateChannel> {
      match ComputedFrom(env, s).m
      case Ok(u) => Ok(if left then u.left else u.right)
      case Err(e) => Err(e)
    }

    function UserRole(): Role {
      if left then Initiator else Responder
    }

    function After(env: Environment, s: Desync.Stores): Desync.Stores {
      var user, hub := Kept(UserPost(env, s), UserOf(s), Persisted(env, s, UserRole())), Kept(HubPost(env, s), HubOf(s), Persisted(env, s, Intermediary));
      if firstIsUser then Desync.Stores(user, hub) else Desync.Stores(hub, user)
    }
  }

  function Kept(post: Result<StateChannel>, c: StateChannel, persisted: bool): StateChannel {
    match post case Ok(c') => if persisted then c' else c case Err(_) => c
  }

  // ---- Every computed hub channel is two versions on ------------------------------------------

  lemma AddAgreementAdvances(env: Environment, c: StateChannel, h: AppIdHash, agreement: Agreement, decrements: CoinTransferMap, token: Token)
    requires c.AddAgreement(env, h, agreement, decrements, token).Ok?
    ensures Desync.Advances(c, c.AddAgreement(env, h, agreement, decrements, token).value, 2)
  {
    Desync.AddActiveAdvances(env, c.(agreements := Set(c.agreements, h, agreement)), h, [(token, Flip(decrements))]);
  }

  lemma RemoveAgreementAdvances(env: Environment, c: StateChannel, h: AppIdHash, increments: CoinTransferMap, token: Token)
    requires c.RemoveAgreement(env, h, increments, token).Ok?
    ensures Desync.Advances(c, c.RemoveAgreement(env, h, increments, token).value, 2)
  {
    Desync.RemoveActiveAdvances(env, c.(agreements := Delete(c.agreements, h)), h, [(token, increments)]);
  }

  /** The channel that a store holds for two people, and what it becomes. */
  ghost predicate AdvancesIn(store: VirtualApps.Store, pair: seq<Xpub>, c: StateChannel) {
    VirtualApps.Find(store, pair).Ok? && Desync.Advances(VirtualApps.Find(store, pair).value, c, 2)
  }

  lemma InstallAdvances(env: Environment, s: VirtualApps.Stores, p: VirtualApps.VirtualParams)
    ensures var c := VirtualRuns.InstallComputed(env, s, p);
            && (c.i.Ok? ==> AdvancesIn(s.initiator, p.LeftPair(), c.i.value.hub))
            && (c.m.Ok? ==> AdvancesIn(s.intermediary, p.LeftPair(), c.m.value.left) && AdvancesIn(s.intermediary, p.RightPair(), c.m.value.right))
            && (c.r.Ok? ==> AdvancesIn(s.responder, p.RightPair(), c.r.value.hub))
  {
    VirtualApps.InitiatingIs(env, s.initiator, p);
    VirtualApps.IntermediaryIs(env, s.intermediary, p);
    VirtualApps.RespondingIs(env, s.responder, p);
    LeftAdvances(env, s.initiator, p);
    LeftAdvances(env, s.intermediary, p);
    RightAdvances(env, s.intermediary, p);
    RightAdvances(env, s.responder, p);
  }

  lemma LeftAdvances(env: Environment, store: VirtualApps.Store, p: VirtualApps.VirtualParams)
    ensures VirtualApps.LeftFor(env, store, p).Ok? ==> AdvancesIn(store, p.LeftPair(), VirtualApps.LeftFor(env, store, p).value)
  {
    if VirtualApps.LeftFor(env, store, p).Ok? {
      var pass := VirtualApps.PassThroughFor(env, store, p).value.IdentityHash();
      AddAgreementAdvances(env, VirtualApps.Find(store, p.LeftPair()).value, VirtualApps.Announced(env, p).0,
                           VirtualApps.LeftAgreementOf(env, p, pass), VirtualApps.LeftDecrements(env, p), p.token);
    }
  }

  lemma RightAdvances(env: Environment, store: VirtualApps.Store, p: VirtualApps.VirtualParams)
    ensures VirtualApps.RightFor(env, store, p).Ok? ==> AdvancesIn(store, p.RightPair(), VirtualApps.RightFor(env, store, p).value)
  {
    if VirtualApps.RightFor(env, store, p).Ok? {
      var pass := VirtualApps.PassThroughFor(env, store, p).value.IdentityHash();
      AddAgreementAdvances(env, VirtualApps.Find(store, p.RightPair()).value, VirtualApps.Announced(env, p).0,
                           VirtualApps.RightAgreementOf(env, p, pass), VirtualApps.RightDecrements(env, p), p.token);
    }
  }

  lemma InitiatingUninstallAdvances(env: Environment, store: VirtualApps.Store, p: VirtualApps.UninstallParams, block: int)
    requires VirtualApps.UninstallForInitiating(env, store, p, block).Ok?
    ensures AdvancesIn(store, p.LeftPair(), VirtualApps.UninstallForInitiating(env, store, p, block).value.hub)
  {
    var hub, users := VirtualApps.Find(store, p.LeftPair()).value, VirtualApps.Find(store, p.Users()).value;
    var agreement := hub.GetAgreement(p.target).value;
    var pass := VirtualApps.PassThroughOf(VirtualApps.Find(store, p.All()).value, agreement.timeLockedPassThroughIdentityHash).value;
    var app := users.GetAppInstance(pass.latestState.targetAppIdentityHash).value;
    var paid := VirtualApps.PaidOut(env, if VirtualApps.Expired(pass, block) then pass else app, None, agreement.token).value;
    RemoveAgreementAdvances(env, hub, app.IdentityHash(), VirtualApps.LeftPay(env, p, paid), agreement.token);
  }

  lemma RespondingUninstallAdvances(env: Environment, store: VirtualApps.Store, p: VirtualApps.UninstallParams, block: int)
    requires VirtualApps.UninstallForResponding(env, store, p, block).Ok?
    ensures AdvancesIn(store, p.RightPair(), VirtualApps.UninstallForResponding(env, store, p, block).value.hub)
  {
    var hub, users := VirtualApps.Find(store, p.RightPair()).value, VirtualApps.Find(store, p.Users()).value;
    var agreement := hub.GetAgreement(p.target).value;
    var pass := VirtualApps.PassThroughOf(VirtualApps.Find(store, p.All()).value, agreement.timeLockedPassThroughIdentityHash).value;
    var app := users.GetAppInstance(pass.latestState.targetAppIdentityHash).value;
    var paid := VirtualApps.PaidOut(env, if VirtualApps.Expired(pass, block) then pass else app, None, agreement.token).value;
    RemoveAgreementAdvances(env, hub, app.IdentityHash(), VirtualApps.RightPay(env, p, paid), agreement.token);
  }

  lemma RepayingAdvances(env: Environment, p: VirtualApps.UninstallParams, three: StateChannel, left: StateChannel, right: StateChannel,
                         pass: AppInstance, token: Token, outcome: Outcome)
    requires pass.latestState.PassThroughState? && VirtualApps.HubRepays(env, p, three, left, right, pass, token, outcome).Ok?
    ensures var m := VirtualApps.HubRepays(env, p, three, left, right, pass, token, outcome).value;
            Desync.Advances(left, m.left, 2) && Desync.Advances(right, m.right, 2)
  {
    var target := pass.latestState.targetAppIdentityHash;
    var paid := VirtualApps.PaidOut(env, pass, Some(outcome), token).value;
    VirtualApps.HubRepaysIs(env, p, three, left, right, pass, token, outcome, paid);
    RemoveAgreementAdvances(env, left, target, VirtualApps.LeftPay(env, p, paid), token);
    RemoveAgreementAdvances(env, right, target, VirtualApps.RightPay(env, p, paid), token);
  }

  lemma IntermediaryUninstallAdvances(env: Environment, store: VirtualApps.Store, p: VirtualApps.UninstallParams, block: int)
    requires VirtualApps.UninstallForIntermediary(env, store, p, block).Ok?
    ensures AdvancesIn(store, p.LeftPair(), VirtualApps.UninstallForIntermediary(env, store, p, block).value.left)
    ensures AdvancesIn(store, p.RightPair(), VirtualApps.UninstallForIntermediary(env, store, p, block).value.right)
  {
    VirtualApps.PairsAreUnordered(p.intermediaryXpub, p.responderXpub);
    var three, left, right := VirtualApps.Find(store, p.All()).value, VirtualApps.Find(store, p.LeftPair()).value, VirtualApps.Find(store, p.RightPair()).value;
    var agreement := left.GetAgreement(p.target).value;
    var pass := VirtualApps.PassThroughOf(three, agreement.timeLockedPassThroughIdentityHash).value;
    RepayingAdvances(env, p, three, left, right, pass, agreement.token,
                     if VirtualApps.Expired(pass, block) then pass.latestState.defaultOutcome else p.targetOutcome);
  }

  lemma UninstallAdvances(env: Environment, s: VirtualApps.Stores, p: VirtualApps.UninstallParams, blocks: (int, int, int))
    ensures var c := VirtualRuns.UninstallComputed(env, s, p, blocks);
            && (c.i.Ok? ==> AdvancesIn(s.initiator, p.LeftPair(), c.i.value.hub))
            && (c.m.Ok? ==> AdvancesIn(s.intermediary, p.LeftPair(), c.m.value.left) && AdvancesIn(s.intermediary, p.RightPair(), c.m.value.right))
            && (c.r.Ok? ==> AdvancesIn(s.responder, p.RightPair(), c.r.value.hub))
  {
    var c := VirtualRuns.UninstallComputed(env, s, p, blocks);
    if c.i.Ok? { InitiatingUninstallAdvances(env, s.initiator, p, blocks.0); }
    if c.m.Ok? { IntermediaryUninstallAdvances(env, s.intermediary, p, blocks.1); }
    if c.r.Ok? { RespondingUninstallAdvances(env, s.responder, p, blocks.2); }
  }

  // ---- One virtual run on the channel ---------------------------------------------------------

  lemma InstallPostsAdvance(env: Environment, s: Desync.Stores, x: VirtualSession)
    requires x.deed.VirtualInstall?
    ensures x.UserPost(env, s).Ok? ==> Desync.Advances(x.UserOf(s), x.UserPost(env, s).value, 2)
    ensures x.HubPost(env, s).Ok? ==> Desync.Advances(x.HubOf(s), x.HubPost(env, s).value, 2)
  {
    InstallAdvances(env, x.StoresWith(s), x.deed.install);
  }

  lemma UninstallPostsAdvance(env: Environment, s: Desync.Stores, x: VirtualSession)
    requires x.deed.VirtualUninstall?
    ensures x.UserPost(env, s).Ok? ==> Desync.Advances(x.UserOf(s), x.UserPost(env, s).value, 2)
    ensures x.HubPost(env, s).Ok? ==> Desync.Advances(x.HubOf(s), x.HubPost(env, s).value, 2)
  {
    UninstallAdvances(env, x.StoresWith(s), x.deed.uninstall, x.deed.blocks);
  }

  lemma ComputedIsFunded(env: Environment, s: Desync.Stores, x: VirtualSession)
    ensures VirtualRuns.Funded(x.ComputedFrom(env, s))
  {
    match x.deed
    case VirtualInstall(p) => InstallAdvances(env, x.StoresWith(s), p);
    case VirtualUninstall(p, blocks) => UninstallAdvances(env, x.StoresWith(s), p, blocks);
  }

  lemma PostsAdvance(env: Environment, s: Desync.Stores, x: VirtualSession)
    ensures x.UserPost(env, s).Ok? ==> Desync.Advances(x.UserOf(s), x.UserPost(env, s).value, 2)
    ensures x.HubPost(env, s).Ok? ==> Desync.Advances(x.HubOf(s), x.HubPost(env, s).value, 2)
  {
    if x.deed.VirtualInstall? { InstallPostsAdvance(env, s, x); } else { UninstallPostsAdvance(env, s, x); }
  }

  /** Whoever persists does so only when user and intermediary compute the same free balance. */
  lemma VirtualPersistingNeedsAgreement(env: Environment, s: Desync.Stores, x: VirtualSession)
    requires x.Happens(env, s) && (x.Persisted(env, s, x.UserRole()) || x.Persisted(env, s, Intermediary))
    ensures x.UserPost(env, s).Ok? && x.HubPost(env, s).Ok?
    ensures VirtualRuns.HubCommitment(x.UserPost(env, s).value) == VirtualRuns.HubCommitment(x.HubPost(env, s).value)
  {
    ComputedIsFunded(env, s, x);
    var role := if x.Persisted(env, s, Intermediary) then Intermediary else x.UserRole();
    VirtualRuns.PersistedHubsAgree(env, x.ComputedFrom(env, s), x.deed.Target(env), x.deed.VirtualInstall?, x.deed.People(), x.steps, role);
  }

  // ---- What happens between runs --------------------------------------------------------------

  /** Transitions of one store that leave its free balance alone: proposals, rejections, updates and actions. */
  datatype QuietOp = Propose(proposal: Proposal) | Reject(h: AppIdHash) | SetState(h: AppIdHash, state: AppState)

  function Quietly(c: StateChannel, op: QuietOp): StateChannel {
    match op
    case Propose(p) => c.AddProposal(p)
    case Reject(h) => c.RemoveProposal(h)
    case SetState(h, state) => (match c.SetState(h, state) case Ok(c') => c' case Err(_) => c)
  }

  function AllQuietly(c: StateChannel, ops: seq<QuietOp>): StateChannel {
    if ops == [] then c else Quietly(AllQuietly(c, ops[..|ops| - 1]), ops[|ops| - 1])
  }

  lemma {:induction false} QuietKeepsFreeBalance(c: StateChannel, ops: seq<QuietOp>)
    ensures AllQuietly(c, ops).freeBalanceApp == c.freeBalanceApp
  {
    if ops != [] {
      QuietKeepsFreeBalance(c, ops[..|ops| - 1]);
    }
  }

  // ---- Histories ------------------------------------------------------------------------------

  /** A run, or quiet transitions of the two stores, not necessarily the same ones. */
  datatype Event =
    | Direct(run: Desync.Session)
    | Virtual(virtualRun: VirtualSession)
    | Quiet(first: seq<QuietOp>, second: seq<QuietOp>)
  {
    ghost predicate Happens(env: Environment, s: Desync.Stores) {
      match this
      case Direct(x) => x.Happens(env, s)
      case Virtual(x) => x.Happens(env, s)
      case Quiet(_, _) => true
    }

    function After(env: Environment, s: Desync.Stores): Desync.Stores {
      match this
      case Direct(x) => x.After(env, s)
      case Virtual(x) => x.After(env, s)
      case Quiet(_, _) => OnlyQuiet(s)
    }

    /** What the event does to the stores when runs do nothing. */
    function OnlyQuiet(s: Desync.Stores): Desync.Stores {
      if Quiet? then Desync.Stores(AllQuietly(s.first, first), AllQuietly(s.second, second)) else s
    }
  }

  /** `c'` is what a party computes in some direct run from the channel `c`. */
  ghost predicate DirectPost(env: Environment, deed: Desync.Deed, c: StateChannel, c': StateChannel) {
    deed.Post(env, c) == Ok(c')
  }

  /** `c'` is what the user or the intermediary computes in some virtual run from the channel `c`. */
  ghost predicate VirtualPost(env: Environment, x: VirtualSession, s: Desync.Stores, c: StateChannel, c': StateChannel) {
    (x.UserOf(s) == c && x.UserPost(env, s) == Ok(c')) || (x.HubOf(s) == c && x.HubPost(env, s) == Ok(c'))
  }

  ghost predicate Computed(env: Environment, c: StateChannel, c': StateChannel) {
    || (exists deed :: DirectPost(env, deed, c, c'))
    || (exists x, s :: VirtualPost(env, x, s, c, c'))
  }

  /** The free balance of `ahead` is the one that one run computes from a channel with the free balance of `behind`. */
  ghost predicate OneRunAhead(env: Environment, ahead: StateChannel, behind: StateChannel) {
    && (Desync.Advances(behind, ahead, 2) || Desync.Advances(behind, ahead, 4))
    && exists c: StateChannel, c': StateChannel ::
         c.freeBalanceApp == behind.freeBalanceApp && c'.freeBalanceApp == ahead.freeBalanceApp && Computed(env, c, c')
  }

  /** The two free balances are the same, or one of them is the result of one run on the other. */
  ghost predicate OneRunAtMost(env: Environment, s: Desync.Stores) {
    && Desync.BothFunded(s)
    && (s.FreeBalancesAgree() || OneRunAhead(env, s.first, s.second) || OneRunAhead(env, s.second, s.first))
  }

  /** A copy stays, or becomes what its owner computes, `n` versions on. */
  ghost predicate StaysOrMoves(env: Environment, c: StateChannel, c': StateChannel, n: nat) {
    c' == c || (Desync.Advances(c, c', n) && Computed(env, c, c'))
  }

  /**
   What a run does to the two copies: each of them stays or becomes what its owner computes, they move
   only from the same version, and when both move from the same free balance they arrive at the same.
   */
  ghost predicate OneRun(env: Environment, s: Desync.Stores, t: Desync.Stores, n: nat)
    requires Desync.BothFunded(s)
  {
    && StaysOrMoves(env, s.first, t.first, n) && StaysOrMoves(env, s.second, t.second, n)
    && (t != s ==> Version(s.first) == Version(s.second))
    && (t.first != s.first && t.second != s.second && s.FreeBalancesAgree() ==> t.FreeBalancesAgree())
  }

  lemma DirectMoves(env: Environment, c: StateChannel, deed: Desync.Deed)
    requires deed.Post(env, c).Ok?
    ensures StaysOrMoves(env, c, deed.Post(env, c).value, deed.Versions())
  {
    Desync.PostAdvances(env, c, deed);
    assert DirectPost(env, deed, c, deed.Post(env, c).value);
  }

  lemma DirectIsOneRun(env: Environment, s: Desync.Stores, x: Desync.Session)
    requires Desync.BothFunded(s) && x.Happens(env, s)
    ensures OneRun(env, s, x.After(env, s), x.deed.Versions())
  {
    if x.Persisted(env, s, Initiator) || x.Persisted(env, s, Responder) {
      var i, r := s.Initiators(x.firstInitiates), s.Responders(x.firstInitiates);
      Desync.PersistingNeedsAgreement(env, s, x, if x.Persisted(env, s, Initiator) then Initiator else Responder);
      Desync.CommitmentIdentifies(i, r, x.deed.Post(env, i).value, x.deed.Post(env, r).value, x.deed.Versions());
      DirectMoves(env, i, x.deed);
      DirectMoves(env, r, x.deed);
    } else {
      Desync.NothingPersisted(env, s, x);
    }
  }

  lemma VirtualMoves(env: Environment, s: Desync.Stores, x: VirtualSession)
    requires x.UserPost(env, s).Ok? && x.HubPost(env, s).Ok?
    ensures StaysOrMoves(env, x.UserOf(s), x.UserPost(env, s).value, 2) && StaysOrMoves(env, x.HubOf(s), x.HubPost(env, s).value, 2)
  {
    PostsAdvance(env, s, x);
    assert VirtualPost(env, x, s, x.UserOf(s), x.UserPost(env, s).value);
    assert VirtualPost(env, x, s, x.HubOf(s), x.HubPost(env, s).value);
  }

  lemma VirtualIsOneRun(env: Environment, s: Desync.Stores, x: VirtualSession)
    requires Desync.BothFunded(s) && x.Happens(env, s)
    ensures OneRun(env, s, x.After(env, s), 2)
  {
    if x.Persisted(env, s, x.UserRole()) || x.Persisted(env, s, Intermediary) {
      VirtualPersistingNeedsAgreement(env, s, x);
      PostsAdvance(env, s, x);
      Desync.CommitmentIdentifies(x.UserOf(s), x.HubOf(s), x.UserPost(env, s).value, x.HubPost(env, s).value, 2);
      VirtualMoves(env, s, x);
    }
  }

  /** The versions of the two copies differ. */
  ghost predicate Apart(s: Desync.Stores) {
    Desync.BothFunded(s) && Version(s.first) != Version(s.second)
  }

  lemma MovedIsAhead(env: Environment, c: StateChannel, c': StateChannel, other: StateChannel, n: nat)
    requires StaysOrMoves(env, c, c', n) && c' != c && (n == 2 || n == 4) && other.freeBalanceApp == c.freeBalanceApp
    ensures OneRunAhead(env, c', other)
  {
  }

  lemma OneRunKeeps(env: Environment, s: Desync.Stores, t: Desync.Stores, n: nat)
    requires OneRunAtMost(env, s) && OneRun(env, s, t, n) && (n == 2 || n == 4)
    ensures OneRunAtMost(env, t) && (Apart(s) ==> t == s)
  {
    if t != s {
      assert s.FreeBalancesAgree();
      if t.first != s.first { MovedIsAhead(env, s.first, t.first, s.second, n); }
      if t.second != s.second { MovedIsAhead(env, s.second, t.second, s.first, n); }
    }
  }

  lemma QuietKeeps(env: Environment, s: Desync.Stores, e: Event)
    requires OneRunAtMost(env, s) && e.Quiet?
    ensures OneRunAtMost(env, e.OnlyQuiet(s)) && (Apart(s) ==> Apart(e.OnlyQuiet(s)))
    ensures e.OnlyQuiet(s).first.freeBalanceApp == s.first.freeBalanceApp && e.OnlyQuiet(s).second.freeBalanceApp == s.second.freeBalanceApp
  {
    QuietKeepsFreeBalance(s.first, e.first);
    QuietKeepsFreeBalance(s.second, e.second);
  }

  lemma EventKeeps(env: Environment, s: Desync.Stores, e: Event)
    requires OneRunAtMost(env, s) && e.Happens(env, s)
    ensures OneRunAtMost(env, e.After(env, s))
    ensures Apart(s) ==> e.After(env, s) == e.OnlyQuiet(s) && Apart(e.After(env, s))
  {
    match e
    case Direct(x) =>
      DirectIsOneRun(env, s, x);
      OneRunKeeps(env, s, x.After(env, s), x.deed.Versions());
    case Virtual(x) =>
      VirtualIsOneRun(env, s, x);
      OneRunKeeps(env, s, x.After(env, s), 2);
    case Quiet(_, _) => QuietKeeps(env, s, e);
  }

  function History(env: Environment, s: Desync.Stores, es: seq<Event>): Desync.Stores {
    if es == [] then s else es[|es| - 1].After(env, History(env, s, es[..|es| - 1]))
  }

  /** The same history with every run left out. */
  function QuietHistory(s: Desync.Stores, es: seq<Event>): Desync.Stores {
    if es == [] then s else es[|es| - 1].OnlyQuiet(QuietHistory(s, es[..|es| - 1]))
  }

  ghost predicate AllHappen(env: Environment, s: Desync.Stores, es: seq<Event>) {
    es == [] ||
    (AllHappen(env, s, es[..|es| - 1]) && es[|es| - 1].Happens(env, History(env, s, es[..|es| - 1])))
  }

  lemma {:induction false} HistoryIsBounded(env: Environment, s: Desync.Stores, es: seq<Event>)
    requires AllHappen(env, s, es) && OneRunAtMost(env, s)
    ensures OneRunAtMost(env, History(env, s, es))
    ensures Apart(s) ==> History(env, s, es) == QuietHistory(s, es) && Apart(History(env, s, es))
  {
    if es != [] {
      HistoryIsBounded(env, s, es[..|es| - 1]);
      EventKeeps(env, History(env, s, es[..|es| - 1]), es[|es| - 1]);
    }
  }

  lemma {:induction false} QuietHistoryKeepsFreeBalances(s: Desync.Stores, es: seq<Event>)
    ensures QuietHistory(s, es).first.freeBalanceApp == s.first.freeBalanceApp
    ensures QuietHistory(s, es).second.freeBalanceApp == s.second.freeBalanceApp
  {
    if es != [] {
      var t, e := QuietHistory(s, es[..|es| - 1]), es[|es| - 1];
      QuietHistoryKeepsFreeBalances(s, es[..|es| - 1]);
      if e.Quiet? {
        QuietKeepsFreeBalance(t.first, e.first);
        QuietKeepsFreeBalance(t.second, e.second);
      }
    }
  }

  /**
   Over every history of installs, uninstalls, withdrawals and virtual installs and uninstalls on a
   channel, each abandoned anywhere or not at all, with any proposals, rejections, updates and actions
   between them on either side: the two stored free balances are equal, or one of them is what one run
   computes from the other; and once their versions differ, no later run of any kind changes either
   store, so that neither free balance ever changes again.
   */
  lemma HubDesyncIsBoundedAndFinal(env: Environment, s: Desync.Stores, es: seq<Event>, later: seq<Event>)
    requires Desync.BothFunded(s) && s.FreeBalancesAgree()
    requires AllHappen(env, s, es) && AllHappen(env, History(env, s, es), later)
    ensures OneRunAtMost(env, History(env, s, es)) && OneRunAtMost(env, History(env, History(env, s, es), later))
    ensures Apart(History(env, s, es)) ==>
              var t, u := History(env, s, es), History(env, History(env, s, es), later);
              u == QuietHistory(t, later) && u.first.freeBalanceApp == t.first.freeBalanceApp && u.second.freeBalanceApp == t.second.freeBalanceApp
  {
    HistoryIsBounded(env, s, es);
    HistoryIsBounded(env, History(env, s, es), later);
    QuietHistoryKeepsFreeBalances(History(env, s, es), later);
  }

  // ---- Undisturbed virtual runs ---------------------------------------------------------------

  /** The three stores are in sync, and the deed is one that the intermediary can compute and the responder accepts. */
  ghost predicate CanHappen(env: Environment, s: Desync.Stores, x: VirtualSession) {
    var t := x.StoresWith(s);
    match x.deed
    case VirtualInstall(p) =>
      VirtualApps.InSyncAt(t, p.All(), p.Users(), p.LeftPair(), p.RightPair()) && VirtualRuns.InstallComputed(env, t, p).m.Ok?
    case VirtualUninstall(p, blocks) =>
      && VirtualApps.InSyncAt(t, p.All(), p.Users(), p.LeftPair(), p.RightPair())
      && VirtualApps.HoldVirtualApp(t, p) && VirtualApps.Unexpired(t, p, blocks)
      && VirtualApps.OutcomeNow(env, VirtualApps.AppHeld(t, p).value) == p.targetOutcome
      && VirtualRuns.UninstallComputed(env, t, p, blocks).m.Ok?
  }

  /** An undisturbed virtual run moves both copies of the channel to what their owners compute, which is the same free balance. */
  lemma HonestVirtualRun(env: Environment, s: Desync.Stores, x: VirtualSession)
    requires env.Valid() && CanHappen(env, s, x) && Faultless(x.steps)
    requires Execute(x.RunFrom(env, s), x.steps).Some? && !Enabled(x.RunFrom(env, s), Execute(x.RunFrom(env, s), x.steps).value)
    ensures var t := x.After(env, s);
            && Ok(x.UserOf(t)) == x.UserPost(env, s) && Ok(x.HubOf(t)) == x.HubPost(env, s) && t.FreeBalancesAgree()
            && (s.first.freeBalanceApp.Some? ==> Desync.Advances(s.first, t.first, 2))
  {
    HonestRunPersists(env, s, x);
    PostsAdvance(env, s, x);
    PostsAgree(env, s, x);
  }

  lemma HonestRunPersists(env: Environment, s: Desync.Stores, x: VirtualSession)
    requires env.Valid() && CanHappen(env, s, x) && Faultless(x.steps)
    requires Execute(x.RunFrom(env, s), x.steps).Some? && !Enabled(x.RunFrom(env, s), Execute(x.RunFrom(env, s), x.steps).value)
    ensures x.Persisted(env, s, x.UserRole()) && x.Persisted(env, s, Intermediary)
    ensures var c := x.ComputedFrom(env, s); VirtualApps.ViewsAgree(c.i, c.m, c.r)
  {
    if x.deed.VirtualInstall? { HonestInstallPersists(env, s, x); } else { HonestUninstallPersists(env, s, x); }
  }

  lemma HonestInstallPersists(env: Environment, s: Desync.Stores, x: VirtualSession)
    requires env.Valid() && CanHappen(env, s, x) && Faultless(x.steps) && x.deed.VirtualInstall?
    requires Execute(x.RunFrom(env, s), x.steps).Some? && !Enabled(x.RunFrom(env, s), Execute(x.RunFrom(env, s), x.steps).value)
    ensures x.Persisted(env, s, x.UserRole()) && x.Persisted(env, s, Intermediary)
    ensures var c := x.ComputedFrom(env, s); VirtualApps.ViewsAgree(c.i, c.m, c.r)
  {
    VirtualRuns.HonestInstall(env, x.StoresWith(s), x.deed.install, x.steps);
  }

  lemma HonestUninstallPersists(env: Environment, s: Desync.Stores, x: VirtualSession)
    requires env.Valid() && CanHappen(env, s, x) && Faultless(x.steps) && x.deed.VirtualUninstall?
    requires Execute(x.RunFrom(env, s), x.steps).Some? && !Enabled(x.RunFrom(env, s), Execute(x.RunFrom(env, s), x.steps).value)
    ensures x.Persisted(env, s, x.UserRole()) && x.Persisted(env, s, Intermediary)
    ensures var c := x.ComputedFrom(env, s); VirtualApps.ViewsAgree(c.i, c.m, c.r)
  {
    VirtualRuns.HonestUninstall(env, x.StoresWith(s), x.deed.uninstall, x.deed.blocks, x.steps);
  }

  lemma PostsAgree(env: Environment, s: Desync.Stores, x: VirtualSession)
    requires var c := x.ComputedFrom(env, s); VirtualApps.ViewsAgree(c.i, c.m, c.r)
    ensures x.UserPost(env, s).Ok? && x.HubPost(env, s).Ok?
    ensures x.UserPost(env, s).value.freeBalanceApp == x.HubPost(env, s).value.freeBalanceApp
  {
  }

  // ---- What happens between runs is quiet -----------------------------------------------------

  /** A run of propose, complete or abandoned, is a quiet event. */
  lemma ProposalIsQuiet(env: Environment, s: Desync.Stores, x: Proposals.Session) returns (e: Event)
    ensures e.Quiet?
    ensures var t := Proposals.After(env, Proposals.Stores(s.first, s.second), x); e.After(env, s) == Desync.Stores(t.first, t.second)
  {
    var stores := Proposals.Stores(s.first, s.second);
    var a, b := stores.Proposer(x), stores.Other(x);
    var mine := if Proposals.Persisted(env, a, b, x, Initiator) then [Propose(Withdrawals.InitiatorProposal(env, a, x.params))] else [];
    var theirs := if Proposals.Persisted(env, a, b, x, Responder) then [Propose(Withdrawals.ResponderProposal(env, b, x.params))] else [];
    e := if x.firstInitiates then Quiet(mine, theirs) else Quiet(theirs, mine);
    OneAtMost(a, mine);
    OneAtMost(b, theirs);
  }

  /** A quiet transition is one that a channel can make. */
  lemma QuietIsATransition(env: Environment, c: StateChannel, op: QuietOp)
    requires !op.Propose?
    ensures Quietly(c, op) == ChannelRuns.After(env, c, if op.Reject? then ChannelRuns.Reject(op.h) else ChannelRuns.UpdateState(op.h, op.state))
  {
  }

  lemma OneAtMost(c: StateChannel, ops: seq<QuietOp>)
    requires |ops| <= 1
    ensures AllQuietly(c, ops) == if ops == [] then c else Quietly(c, ops[0])
  {
  }

  /** A run of update or take-action, complete or abandoned, is a quiet event. */
  lemma ChangeIsQuiet(env: Environment, s: Desync.Stores, h: AppIdHash, x: AppDesync.Session) returns (e: Event)
    ensures e.Quiet?
    ensures var t := AppDesync.After(env, AppDesync.Stores(s.first, s.second), h, x); e.After(env, s) == Desync.Stores(t.first, t.second)
  {
    var stores := AppDesync.Stores(s.first, s.second);
    var mine := QuietlyKept(env, stores, h, x, Initiator);
    var theirs := QuietlyKept(env, stores, h, x, Responder);
    e := if x.firstInitiates then Quiet(mine, theirs) else Quiet(theirs, mine);
  }

  /** What a role's side of the run does to its store. */
  lemma QuietlyKept(env: Environment, s: AppDesync.Stores, h: AppIdHash, x: AppDesync.Session, role: Role) returns (ops: seq<QuietOp>)
    ensures AllQuietly(AppDesync.StoreOf(s, x, role), ops) == AppDesync.Kept(env, s, h, x, role)
  {
    var c := AppDesync.StoreOf(s, x, role);
    var post := AppDesync.Post(env, c, h, x.change);
    ops := [];
    if post.Ok? && AppDesync.Persisted(env, s, h, x, role) {
      var state := AppDesync.NextState(env, Get(c.apps, h), x.change).value;
      ops := [SetState(h, state)];
      OneAtMost(c, ops);
      assert c.SetState(h, state) == post;
    }
  }
}
