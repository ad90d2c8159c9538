/**
 Virtual apps: an app between two users who share no funded channel, collateralised by an
 intermediary. Each of the three parties computes the new channels from its own store.
 */
module VirtualApps {
  import opened OrderedMaps
  import Sorting
  import opened Models
  import opened FreeBalances
  import opened StateChannels
  import opened DirectTransitions
  import opened Lookup

  /** A party's channels, by the people in them. */
  type Store = map<multiset<Xpub>, StateChannel>

  datatype VirtualParams = VirtualParams(
    initiatorXpub: Xpub,
    intermediaryXpub: Xpub,
    responderXpub: Xpub,
    defaultTimeout: nat,
    appInterface: AppInterface,
    initialState: AppState,
    appSeqNo: nat,
    initiatorDecrement: int,
    responderDecrement: int,
    token: Token,
    outcomeType: OutcomeType,
    passThrough: Address)
  {
    function All(): seq<Xpub> { [initiatorXpub, responderXpub, intermediaryXpub] }
    function Users(): seq<Xpub> { [initiatorXpub, responderXpub] }
    function LeftPair(): seq<Xpub> { [initiatorXpub, intermediaryXpub] }
    function RightPair(): seq<Xpub> { [responderXpub, intermediaryXpub] }
  }

  const PASS_THROUGH_TIMEOUT: nat := 100

  /**
   The channel with exactly these people, or an empty one at the multisig address generated for them. The
   search has sorted the list of people in place if there was any channel to compare it with.
   */
  function GetOrCreate(env: Environment, store: Store, xpubs: seq<Xpub>): StateChannel {
    if multiset(xpubs) in store then store[multiset(xpubs)]
    else
      CreateEmptyChannel(env.generatedMultisig(env.SortedKthAddresses(xpubs, 0)),
                         if store == map[] then xpubs else Sorting.SortBy(Itself, xpubs))
  }

  function Find(store: Store, xpubs: seq<Xpub>): Result<StateChannel> {
    if multiset(xpubs) in store then Ok(store[multiset(xpubs)]) else Err(ChannelMissing)
  }

  function VirtualInterpreterParameters(p: VirtualParams, initiator: Address, responder: Address): Result<InterpreterParams> {
    var sum := p.initiatorDecrement + p.responderDecrement;
    match p.outcomeType
    case TwoPartyFixedOutcome => Ok(TwoPartyParams(p.token, initiator, responder, sum))
    case SingleAssetTwoPartyCoinTransfer => Ok(SingleAssetParams(sum, p.token))
    case MultiAssetMultiPartyCoinTransfer => Err(UnsupportedOutcomeType)
  }

  function ConstructVirtualApp(env: Environment, p: VirtualParams): Result<AppInstance> {
    var initiator, responder := env.kth(p.initiatorXpub, p.appSeqNo), env.kth(p.responderXpub, p.appSeqNo);
    var params :- VirtualInterpreterParameters(p, initiator, responder);
    Ok(AppInstance(Sorting.SortBy(env.rank, [initiator, responder]), p.defaultTimeout, p.appInterface, true, p.appSeqNo,
                   p.initialState, 0, p.defaultTimeout, p.outcomeType, params))
  }

  function ConstructPassThrough(env: Environment, three: StateChannel, target: AppIdHash, defaultOutcome: Outcome, p: VirtualParams): Result<AppInstance> {
    var seqNo := three.numProposedApps;
    var initiator, responder := env.kth(p.initiatorXpub, seqNo), env.kth(p.responderXpub, seqNo);
    var params :- VirtualInterpreterParameters(p, initiator, responder);
    Ok(AppInstance(Sorting.SortBy(env.rank, [initiator, responder, env.kth(p.intermediaryXpub, seqNo)]),
                   PASS_THROUGH_TIMEOUT, AppInterface(p.passThrough, PassThroughEncoding), true, seqNo,
                   PassThroughState(target, MAX_UINT256, defaultOutcome), 0, PASS_THROUGH_TIMEOUT, p.outcomeType, params))
  }

  function OutcomeNow(env: Environment, app: AppInstance): Outcome {
    env.outcome(app.appInterface.addr, app.latestState)
  }

  /** What an end user computes: the three-party channel, the one with the other user, the one with the intermediary. */
  datatype UserUpdate = UserUpdate(three: StateChannel, users: StateChannel, hub: StateChannel, passThrough: AppInstance)

  /** What the intermediary computes. */
  datatype HubUpdate = HubUpdate(three: StateChannel, left: StateChannel, right: StateChannel, passThrough: AppInstance)

  // ---- Install --------------------------------------------------------------------------------

  function InstallForInitiating(env: Environment, store: Store, p: VirtualParams): Result<UserUpdate> {
    var three, users := GetOrCreate(env, store, p.All()), GetOrCreate(env, store, p.Users());
    var app :- ConstructVirtualApp(env, p);
    var passThrough :- ConstructPassThrough(env, three, app.IdentityHash(), OutcomeNow(env, app), p);
    var initiator, intermediary := env.kth(p.initiatorXpub, 0), env.kth(p.intermediaryXpub, 0);
    var hub :- Find(store, p.LeftPair());
    var hub' :- hub.AddAgreement(
      env, app.IdentityHash(),
      Agreement(p.token, passThrough.IdentityHash(), p.initiatorDecrement + p.responderDecrement, intermediary, initiator),
      FromEntries([(initiator, p.initiatorDecrement), (intermediary, p.responderDecrement)]), p.token);
    Ok(UserUpdate(three.AddAppInstance(passThrough), users.AddAppInstance(app), hub', passThrough))
  }

  /** The intermediary learns the virtual app's hash and default outcome from the initiator's message. */
  function InstallForIntermediary(env: Environment, store: Store, p: VirtualParams, target: AppIdHash, defaultOutcome: Outcome): Result<HubUpdate> {
    var three := GetOrCreate(env, store, p.All());
    var passThrough :- ConstructPassThrough(env, three, target, defaultOutcome, p);
    var left :- Find(store, p.LeftPair());
    var right :- Find(store, p.RightPair());
    var initiator, intermediary, responder := env.kth(p.initiatorXpub, 0), env.kth(p.intermediaryXpub, 0), env.kth(p.responderXpub, 0);
    var left' :- left.AddAgreement(
      env, target,
      Agreement(p.token, passThrough.IdentityHash(), p.initiatorDecrement + p.responderDecrement, intermediary, initiator),
      FromEntries([(initiator, p.initiatorDecrement), (intermediary, p.responderDecrement)]), p.token);
    var right' :- right.AddAgreement(
      env, target,
      Agreement(p.token, passThrough.IdentityHash(), p.initiatorDecrement + p.responderDecrement, intermediary, responder),
      FromEntries([(intermediary, p.initiatorDecrement), (responder, p.responderDecrement)]), p.token);
    Ok(HubUpdate(three.AddAppInstance(passThrough), left', right', passThrough))
  }

  function InstallForResponding(env: Environment, store: Store, p: VirtualParams): Result<UserUpdate> {
    var three, users := GetOrCreate(env, store, p.All()), GetOrCreate(env, store, p.Users());
    var app :- ConstructVirtualApp(env, p);
    var passThrough :- ConstructPassThrough(env, three, app.IdentityHash(), OutcomeNow(env, app), p);
    var hub :- Find(store, p.RightPair());
    var intermediary, responder := env.kth(p.intermediaryXpub, 0), env.kth(p.responderXpub, 0);
    var hub' :- hub.AddAgreement(
      env, app.IdentityHash(),
      Agreement(p.token, passThrough.IdentityHash(), p.initiatorDecrement + p.responderDecrement, intermediary, responder),
      FromEntries([(intermediary, p.initiatorDecrement), (responder, p.responderDecrement)]), p.token);
    Ok(UserUpdate(three.AddAppInstance(passThrough), users.AddAppInstance(app), hub', passThrough))
  }

  // ---- Uninstall ------------------------------------------------------------------------------

  datatype UninstallParams = UninstallParams(
    initiatorXpub: Xpub,
    intermediaryXpub: Xpub,
    responderXpub: Xpub,
    target: AppIdHash,
    targetOutcome: Outcome)
  {
    function All(): seq<Xpub> { [initiatorXpub, responderXpub, intermediaryXpub] }
    function Users(): seq<Xpub> { [initiatorXpub, responderXpub] }
    function LeftPair(): seq<Xpub> { [initiatorXpub, intermediaryXpub] }
    function RightPair(): seq<Xpub> { [responderXpub, intermediaryXpub] }
  }

  function PassThroughOf(three: StateChannel, h: AppIdHash): Result<AppInstance> {
    var app :- three.GetAppInstance(h);
    if app.latestState.PassThroughState? then Ok(app) else Err(InvalidState)
  }

  /** `increments[token][owner]`: an unknown token throws, an unknown owner counts as zero. */
  function IncrementsFor(increments: TokenIndexedCoinTransferMap, token: Token): Result<CoinTransferMap> {
    if Has(increments, token) then Ok(Get(increments, token)) else Err(UndecodableOutcome)
  }

  function Expired(passThrough: AppInstance, block: int): bool
    requires passThrough.latestState.PassThroughState?
  {
    passThrough.latestState.switchesOutcomeAt <= block
  }

  function SwitchedOff(passThrough: AppInstance, outcome: Outcome): Result<AppInstance>
    requires passThrough.latestState.PassThroughState?
  {
    passThrough.SetState(passThrough.latestState.(switchesOutcomeAt := 0, defaultOutcome := outcome))
  }

  /** What the app's outcome pays in one token. */
  function PaidOut(env: Environment, app: AppInstance, override: Option<Outcome>, token: Token): Result<CoinTransferMap> {
    var increments :- FreeBalanceIncrements(env, app, override);
    IncrementsFor(increments, token)
  }

  /** What is paid into the initiator's channel with the intermediary. */
  function LeftPay(env: Environment, p: UninstallParams, paid: CoinTransferMap): CoinTransferMap {
    var i, hub, r := env.kth(p.initiatorXpub, 0), env.kth(p.intermediaryXpub, 0), env.kth(p.responderXpub, 0);
    FromEntries([(hub, GetOr(paid, r, 0)), (i, GetOr(paid, i, 0))])
  }

  /** What is paid into the responder's channel with the intermediary. */
  function RightPay(env: Environment, p: UninstallParams, paid: CoinTransferMap): CoinTransferMap {
    var i, hub, r := env.kth(p.initiatorXpub, 0), env.kth(p.intermediaryXpub, 0), env.kth(p.responderXpub, 0);
    FromEntries([(hub, GetOr(paid, i, 0)), (r, GetOr(paid, r, 0))])
  }

  function UninstallForInitiating(env: Environment, store: Store, p: UninstallParams, block: int): Result<UserUpdate> {
    var three :- Find(store, p.All());
    var hub :- Find(store, p.LeftPair());
    var users :- Find(store, p.Users());
    var agreement :- hub.GetAgreement(p.target);
    var passThrough :- PassThroughOf(three, agreement.timeLockedPassThroughIdentityHash);
    var app :- users.GetAppInstance(passThrough.latestState.targetAppIdentityHash);
    var paid :- PaidOut(env, if Expired(passThrough, block) then passThrough else app, None, agreement.token);
    var hub' :- hub.RemoveAgreement(env, app.IdentityHash(), LeftPay(env, p, paid), agreement.token);
    var off :- SwitchedOff(passThrough, p.targetOutcome);
    Ok(UserUpdate(three.RemoveAppInstance(passThrough.IdentityHash()), users.RemoveAppInstance(app.IdentityHash()), hub', off))
  }

  /** Only the responder compares the proposed outcome with the one the app computes. */
  function UninstallForResponding(env: Environment, store: Store, p: UninstallParams, block: int): Result<UserUpdate> {
    var three :- Find(store, p.All());
    var hub :- Find(store, p.RightPair());
    var users :- Find(store, p.Users());
    var agreement :- hub.GetAgreement(p.target);
    var passThrough :- PassThroughOf(three, agreement.timeLockedPassThroughIdentityHash);
    var app :- users.GetAppInstance(passThrough.latestState.targetAppIdentityHash);
    var expected := OutcomeNow(env, app);
    if expected != p.targetOutcome then Err(TargetOutcomeMismatch) else
    var paid :- PaidOut(env, if Expired(passThrough, block) then passThrough else app, None, agreement.token);
    var hub' :- hub.RemoveAgreement(env, app.IdentityHash(), RightPay(env, p, paid), agreement.token);
    var off :- SwitchedOff(passThrough, expected);
    Ok(UserUpdate(three.RemoveAppInstance(passThrough.IdentityHash()), users.RemoveAppInstance(app.IdentityHash()), hub', off))
  }

  /** What the intermediary does with her two channels once she has found them and the pass-through. */
  function HubRepays(env: Environment, p: UninstallParams, three: StateChannel, left: StateChannel, right: StateChannel,
                     passThrough: AppInstance, token: Token, outcome: Outcome): Result<HubUpdate>
    requires passThrough.latestState.PassThroughState?
  {
    var paid :- PaidOut(env, passThrough, Some(outcome), token);
    var target := passThrough.latestState.targetAppIdentityHash;
    var left' :- left.RemoveAgreement(env, target, LeftPay(env, p, paid), token);
    var right' :- right.RemoveAgreement(env, target, RightPay(env, p, paid), token);
    var off :- SwitchedOff(passThrough, p.targetOutcome);
    Ok(HubUpdate(three.RemoveAppInstance(passThrough.IdentityHash()), left', right', off))
  }

  lemma HubRepaysIs(env: Environment, p: UninstallParams, three: StateChannel, left: StateChannel, right: StateChannel,
                    pass: AppInstance, token: Token, outcome: Outcome, paid: CoinTransferMap)
    requires pass.latestState.PassThroughState? && HubRepays(env, p, three, left, right, pass, token, outcome).Ok?
    requires PaidOut(env, pass, Some(outcome), token) == Ok(paid)
    ensures var m, target := HubRepays(env, p, three, left, right, pass, token, outcome).value, pass.latestState.targetAppIdentityHash;
            && m.three == three.RemoveAppInstance(pass.IdentityHash())
            && left.RemoveAgreement(env, target, LeftPay(env, p, paid), token) == Ok(m.left)
            && right.RemoveAgreement(env, target, RightPay(env, p, paid), token) == Ok(m.right)
  {
    HubRepaysLeft(env, p, three, left, right, pass, token, outcome, paid);
    HubRepaysRight(env, p, three, left, right, pass, token, outcome, paid);
  }

  lemma HubRepaysLeft(env: Environment, p: UninstallParams, three: StateChannel, left: StateChannel, right: StateChannel,
                    pass: AppInstance, token: Token, outcome: Outcome, paid: CoinTransferMap)
    requires pass.latestState.PassThroughState? && HubRepays(env, p, three, left, right, pass, token, outcome).Ok?
    requires PaidOut(env, pass, Some(outcome), token) == Ok(paid)
    ensures left.RemoveAgreement(env, pass.latestState.targetAppIdentityHash, LeftPay(env, p, paid), token)
         == Ok(HubRepays(env, p, three, left, right, pass, token, outcome).value.left)
  {
  }

  lemma HubRepaysRight(env: Environment, p: UninstallParams, three: StateChannel, left: StateChannel, right: StateChannel,
                    pass: AppInstance, token: Token, outcome: Outcome, paid: CoinTransferMap)
    requires pass.latestState.PassThroughState? && HubRepays(env, p, three, left, right, pass, token, outcome).Ok?
    requires PaidOut(env, pass, Some(outcome), token) == Ok(paid)
    ensures right.RemoveAgreement(env, pass.latestState.targetAppIdentityHash, RightPay(env, p, paid), token)
         == Ok(HubRepays(env, p, three, left, right, pass, token, outcome).value.right)
    ensures HubRepays(env, p, three, left, right, pass, token, outcome).value.three == three.RemoveAppInstance(pass.IdentityHash())
  {
  }

  /** The intermediary cannot see the virtual app and reads the proposed outcome with the pass-through's parameters. */
  function UninstallForIntermediary(env: Environment, store: Store, p: UninstallParams, block: int): Result<HubUpdate> {
    var three :- Find(store, p.All());
    var left :- Find(store, p.LeftPair());
    var right :- Find(store, [p.intermediaryXpub, p.responderXpub]);
    var agreement :- left.GetAgreement(p.target);
    var passThrough :- PassThroughOf(three, agreement.timeLockedPassThroughIdentityHash);
    HubRepays(env, p, three, left, right, passThrough, agreement.token,
              if Expired(passThrough, block) then passThrough.latestState.defaultOutcome else p.targetOutcome)
  }

  // ---- Three views ----------------------------------------------------------------------------

  datatype Stores = Stores(initiator: Store, intermediary: Store, responder: Store)

  predicate SameAt(a: Store, b: Store, xpubs: seq<Xpub>) {
    var k := multiset(xpubs);
    (k in a <==> k in b) && (k in a ==> Alike(a[k], b[k]))
  }

  /** The parties of each of the four channels store the same channel, up to the order of its keys. */
  predicate InSyncAt(s: Stores, all: seq<Xpub>, users: seq<Xpub>, left: seq<Xpub>, right: seq<Xpub>) {
    && SameAt(s.initiator, s.intermediary, all) && SameAt(s.intermediary, s.responder, all)
    && SameAt(s.initiator, s.responder, users)
    && SameAt(s.initiator, s.intermediary, left) && SameAt(s.intermediary, s.responder, right)
  }

  /** All three computations succeed, and any two parties of a channel compute the same channel. */
  predicate ViewsAgree(i: Result<UserUpdate>, m: Result<HubUpdate>, r: Result<UserUpdate>) {
    && i.Ok? && m.Ok? && r.Ok?
    && Alike(i.value.three, m.value.three) && Alike(m.value.three, r.value.three)
    && Alike(i.value.users, r.value.users)
    && Alike(i.value.hub, m.value.left) && Alike(m.value.right, r.value.hub)
    && i.value.passThrough == m.value.passThrough == r.value.passThrough
  }

  /** What the initiator's first message tells the intermediary. */
  function Announced(env: Environment, p: VirtualParams): (AppIdHash, Outcome) {
    match ConstructVirtualApp(env, p)
    case Ok(app) => (app.IdentityHash(), OutcomeNow(env, app))
    case Err(_) => (AppIdHash(0, []), FixedOutcome(0))
  }

  /** The agreements the two channels get, and what each side puts into them. */
  function LeftAgreementOf(env: Environment, p: VirtualParams, pass: AppIdHash): Agreement {
    Agreement(p.token, pass, p.initiatorDecrement + p.responderDecrement, env.kth(p.intermediaryXpub, 0), env.kth(p.initiatorXpub, 0))
  }

  function RightAgreementOf(env: Environment, p: VirtualParams, pass: AppIdHash): Agreement {
    Agreement(p.token, pass, p.initiatorDecrement + p.responderDecrement, env.kth(p.intermediaryXpub, 0), env.kth(p.responderXpub, 0))
  }

  function LeftDecrements(env: Environment, p: VirtualParams): CoinTransferMap {
    FromEntries([(env.kth(p.initiatorXpub, 0), p.initiatorDecrement), (env.kth(p.intermediaryXpub, 0), p.responderDecrement)])
  }

  function RightDecrements(env: Environment, p: VirtualParams): CoinTransferMap {
    FromEntries([(env.kth(p.intermediaryXpub, 0), p.initiatorDecrement), (env.kth(p.responderXpub, 0), p.responderDecrement)])
  }

  lemma AddAgreementAlike(env: Environment, c: StateChannel, d: StateChannel, h: AppIdHash, agreement: Agreement, decrements: CoinTransferMap, token: Token)
    requires Alike(c, d)
    ensures var r, q := c.AddAgreement(env, h, agreement, decrements, token), d.AddAgreement(env, h, agreement, decrements, token);
            (r.Ok? <==> q.Ok?) && (r.Ok? ==> Alike(r.value, q.value))
  {
    AddActiveIgnoresKeys(env, c.(agreements := Set(c.agreements, h, agreement)), d.xpubs, h, [(token, Flip(decrements))]);
    if c.AddAgreement(env, h, agreement, decrements, token).Ok? {
      AddAgreementKeepsKeys(env, c, h, agreement, decrements, token);
    }
  }

  lemma AddAgreementKeepsKeys(env: Environment, c: StateChannel, h: AppIdHash, agreement: Agreement, decrements: CoinTransferMap, token: Token)
    requires c.AddAgreement(env, h, agreement, decrements, token).Ok?
    ensures c.AddAgreement(env, h, agreement, decrements, token).value.xpubs == c.xpubs
  {
  }

  lemma RemoveAgreementAlike(env: Environment, c: StateChannel, d: StateChannel, h: AppIdHash, increments: CoinTransferMap, token: Token)
    requires Alike(c, d)
    ensures var r, q := c.RemoveAgreement(env, h, increments, token), d.RemoveAgreement(env, h, increments, token);
            (r.Ok? <==> q.Ok?) && (r.Ok? ==> Alike(r.value, q.value))
  {
    if Has(c.agreements, h) {
      RemoveActiveIgnoresKeys(env, c.(agreements := Delete(c.agreements, h)), d.xpubs, h, [(token, increments)]);
      if c.RemoveAgreement(env, h, increments, token).Ok? {
        RemoveAgreementKeepsKeys(env, c, h, increments, token);
      }
    }
  }

  lemma RemoveAgreementKeepsKeys(env: Environment, c: StateChannel, h: AppIdHash, increments: CoinTransferMap, token: Token)
    requires c.RemoveAgreement(env, h, increments, token).Ok?
    ensures c.RemoveAgreement(env, h, increments, token).value.xpubs == c.xpubs
  {
  }

  /** Whether found or created, and whether the search sorted the people or not. */
  lemma GetOrCreateAlike(env: Environment, a: Store, b: Store, xpubs: seq<Xpub>)
    requires SameAt(a, b, xpubs)
    ensures Alike(GetOrCreate(env, a, xpubs), GetOrCreate(env, b, xpubs))
  {
    Sorting.SortSorts(Itself, xpubs);
  }

  /** The pass-through a party builds from its own three-party channel. */
  function PassThroughFor(env: Environment, store: Store, p: VirtualParams): Result<AppInstance> {
    var app :- ConstructVirtualApp(env, p);
    ConstructPassThrough(env, GetOrCreate(env, store, p.All()), app.IdentityHash(), OutcomeNow(env, app), p)
  }

  function LeftFor(env: Environment, store: Store, p: VirtualParams): Result<StateChannel> {
    var pass :- PassThroughFor(env, store, p);
    var hub :- Find(store, p.LeftPair());
    hub.AddAgreement(env, Announced(env, p).0, LeftAgreementOf(env, p, pass.IdentityHash()), LeftDecrements(env, p), p.token)
  }

  function RightFor(env: Environment, store: Store, p: VirtualParams): Result<StateChannel> {
    var pass :- PassThroughFor(env, store, p);
    var hub :- Find(store, p.RightPair());
    hub.AddAgreement(env, Announced(env, p).0, RightAgreementOf(env, p, pass.IdentityHash()), RightDecrements(env, p), p.token)
  }

  lemma InitiatingIs(env: Environment, store: Store, p: VirtualParams)
    ensures var i := InstallForInitiating(env, store, p);
            && (i.Ok? <==> LeftFor(env, store, p).Ok?)
            && (i.Ok? ==>
                  && i.value.hub == LeftFor(env, store, p).value && Ok(i.value.passThrough) == PassThroughFor(env, store, p)
                  && i.value.three == GetOrCreate(env, store, p.All()).AddAppInstance(i.value.passThrough)
                  && i.value.users == GetOrCreate(env, store, p.Users()).AddAppInstance(ConstructVirtualApp(env, p).value))
  {
    var pass, hub := PassThroughFor(env, store, p), Find(store, p.LeftPair());
    if pass.Ok? && hub.Ok? {
      assert LeftFor(env, store, p) == hub.value.AddAgreement(
        env, Announced(env, p).0, LeftAgreementOf(env, p, pass.value.IdentityHash()), LeftDecrements(env, p), p.token);
    }
  }

  lemma RespondingIs(env: Environment, store: Store, p: VirtualParams)
    ensures var r := InstallForResponding(env, store, p);
            && (r.Ok? <==> RightFor(env, store, p).Ok?)
            && (r.Ok? ==>
                  && r.value.hub == RightFor(env, store, p).value && Ok(r.value.passThrough) == PassThroughFor(env, store, p)
                  && r.value.three == GetOrCreate(env, store, p.All()).AddAppInstance(r.value.passThrough)
                  && r.value.users == GetOrCreate(env, store, p.Users()).AddAppInstance(ConstructVirtualApp(env, p).value))
  {
    var pass, hub := PassThroughFor(env, store, p), Find(store, p.RightPair());
    if pass.Ok? && hub.Ok? {
      assert RightFor(env, store, p) == hub.value.AddAgreement(
        env, Announced(env, p).0, RightAgreementOf(env, p, pass.value.IdentityHash()), RightDecrements(env, p), p.token);
    }
  }

  /** What the initiator announces lets the intermediary build the users' pass-through, or fail like them. */
  lemma AnnouncedPassThrough(env: Environment, store: Store, p: VirtualParams)
    ensures var pass := ConstructPassThrough(env, GetOrCreate(env, store, p.All()), Announced(env, p).0, Announced(env, p).1, p);
            (pass.Ok? <==> PassThroughFor(env, store, p).Ok?) && (pass.Ok? ==> pass == PassThroughFor(env, store, p))
  {
  }

  lemma IntermediaryIs(env: Environment, store: Store, p: VirtualParams)
    ensures var m := InstallForIntermediary(env, store, p, Announced(env, p).0, Announced(env, p).1);
            && (m.Ok? <==> LeftFor(env, store, p).Ok? && RightFor(env, store, p).Ok?)
            && (m.Ok? ==>
                  && m.value.left == LeftFor(env, store, p).value && m.value.right == RightFor(env, store, p).value
                  && Ok(m.value.passThrough) == PassThroughFor(env, store, p)
                  && m.value.three == GetOrCreate(env, store, p.All()).AddAppInstance(m.value.passThrough))
  {
    AnnouncedPassThrough(env, store, p);
    var pass, left, right := PassThroughFor(env, store, p), Find(store, p.LeftPair()), Find(store, p.RightPair());
    if pass.Ok? && left.Ok? && right.Ok? {
      var h, id := Announced(env, p).0, pass.value.IdentityHash();
      assert LeftFor(env, store, p) == left.value.AddAgreement(env, h, LeftAgreementOf(env, p, id), LeftDecrements(env, p), p.token);
      assert RightFor(env, store, p) == right.value.AddAgreement(env, h, RightAgreementOf(env, p, id), RightDecrements(env, p), p.token);
    }
  }

  lemma PassThroughsEqual(env: Environment, a: Store, b: Store, p: VirtualParams)
    requires SameAt(a, b, p.All())
    ensures PassThroughFor(env, a, p) == PassThroughFor(env, b, p)
  {
    GetOrCreateAlike(env, a, b, p.All());
  }

  lemma LeftHubsAlike(env: Environment, a: Store, b: Store, p: VirtualParams)
    requires SameAt(a, b, p.All()) && SameAt(a, b, p.LeftPair())
    ensures LeftFor(env, a, p).Ok? <==> LeftFor(env, b, p).Ok?
    ensures LeftFor(env, a, p).Ok? ==> Alike(LeftFor(env, a, p).value, LeftFor(env, b, p).value)
  {
    PassThroughsEqual(env, a, b, p);
    if PassThroughFor(env, a, p).Ok? && Find(a, p.LeftPair()).Ok? {
      AddAgreementAlike(env, Find(a, p.LeftPair()).value, Find(b, p.LeftPair()).value, Announced(env, p).0,
                        LeftAgreementOf(env, p, PassThroughFor(env, a, p).value.IdentityHash()), LeftDecrements(env, p), p.token);
    }
  }

  lemma RightHubsAlike(env: Environment, a: Store, b: Store, p: VirtualParams)
    requires SameAt(a, b, p.All()) && SameAt(a, b, p.RightPair())
    ensures RightFor(env, a, p).Ok? <==> RightFor(env, b, p).Ok?
    ensures RightFor(env, a, p).Ok? ==> Alike(RightFor(env, a, p).value, RightFor(env, b, p).value)
  {
    PassThroughsEqual(env, a, b, p);
    if PassThroughFor(env, a, p).Ok? && Find(a, p.RightPair()).Ok? {
      AddAgreementAlike(env, Find(a, p.RightPair()).value, Find(b, p.RightPair()).value, Announced(env, p).0,
                        RightAgreementOf(env, p, PassThroughFor(env, a, p).value.IdentityHash()), RightDecrements(env, p), p.token);
    }
  }

  /**
   From stores in sync, the three computations of a virtual install agree, and the intermediary's
   succeeds exactly when both users' do.
   */
  lemma InstallViewsAgree(env: Environment, s: Stores, p: VirtualParams)
    requires InSyncAt(s, p.All(), p.Users(), p.LeftPair(), p.RightPair())
    ensures var i, m, r := InstallForInitiating(env, s.initiator, p),
                           InstallForIntermediary(env, s.intermediary, p, Announced(env, p).0, Announced(env, p).1),
                           InstallForResponding(env, s.responder, p);
            && (m.Ok? <==> i.Ok? && r.Ok?)
            && (m.Ok? ==> ViewsAgree(i, m, r))
  {
    InitiatingIs(env, s.initiator, p);
    IntermediaryIs(env, s.intermediary, p);
    RespondingIs(env, s.responder, p);
    PassThroughsEqual(env, s.initiator, s.intermediary, p);
    PassThroughsEqual(env, s.intermediary, s.responder, p);
    LeftHubsAlike(env, s.initiator, s.intermediary, p);
    RightHubsAlike(env, s.intermediary, s.responder, p);
    GetOrCreateAlike(env, s.initiator, s.intermediary, p.All());
    GetOrCreateAlike(env, s.intermediary, s.responder, p.All());
    GetOrCreateAlike(env, s.initiator, s.responder, p.Users());
  }

  /** The virtual app as the users hold it, and the pass-through as all three do. */
  function AppHeld(s: Stores, p: UninstallParams): Result<AppInstance> {
    var users :- Find(s.initiator, p.Users());
    users.GetAppInstance(p.target)
  }

  function PassThroughHeld(s: Stores, p: UninstallParams): Result<AppInstance> {
    var three :- Find(s.intermediary, p.All());
    var left :- Find(s.intermediary, p.LeftPair());
    var agreement :- left.GetAgreement(p.target);
    PassThroughOf(three, agreement.timeLockedPassThroughIdentityHash)
  }

  /**
   The stores hold the virtual app: both agreements name the same pass-through and token, and the
   pass-through targets the app and interprets its outcome the same way.
   */
  predicate HoldVirtualApp(s: Stores, p: UninstallParams) {
    && AppHeld(s, p).Ok? && PassThroughHeld(s, p).Ok?
    && AppHeld(s, p).value.IdentityHash() == p.target
    && PassThroughHeld(s, p).value.latestState.targetAppIdentityHash == p.target
    && AppHeld(s, p).value.outcomeType == PassThroughHeld(s, p).value.outcomeType == SingleAssetTwoPartyCoinTransfer
    && AppHeld(s, p).value.params == PassThroughHeld(s, p).value.params
    && PassThroughHeld(s, p).value.appInterface.stateEncoding == PassThroughEncoding
    && !AppHeld(s, p).value.latestState.RefundState?
    && AgreementsMatch(s, p)
  }

  predicate AgreementsMatch(s: Stores, p: UninstallParams) {
    var left, right := Find(s.intermediary, p.LeftPair()), Find(s.intermediary, p.RightPair());
    && left.Ok? && right.Ok?
    && left.value.GetAgreement(p.target).Ok? && right.value.GetAgreement(p.target).Ok?
    && var a, b := left.value.GetAgreement(p.target).value, right.value.GetAgreement(p.target).value;
       a.token == b.token && a.timeLockedPassThroughIdentityHash == b.timeLockedPassThroughIdentityHash
  }

  predicate Unexpired(s: Stores, p: UninstallParams, blocks: (int, int, int)) {
    PassThroughHeld(s, p).Ok? ==>
      var app := PassThroughHeld(s, p).value;
      !Expired(app, blocks.0) && !Expired(app, blocks.1) && !Expired(app, blocks.2)
  }

  lemma PairsAreUnordered(a: Xpub, b: Xpub)
    ensures multiset([a, b]) == multiset([b, a])
  {
  }

  /** What each outcome pays, read with the app's or the pass-through's parameters. */
  lemma SameIncrements(env: Environment, payer: AppInstance, passThrough: AppInstance, outcome: Outcome)
    requires payer.outcomeType == passThrough.outcomeType && payer.params == passThrough.params
    requires OutcomeNow(env, payer) == outcome
    requires passThrough.latestState.PassThroughState? && !payer.latestState.RefundState?
    ensures FreeBalanceIncrements(env, payer, None) == FreeBalanceIncrements(env, passThrough, Some(outcome))
  {
  }

  function Settled(env: Environment, hub: StateChannel, p: UninstallParams, app: AppInstance, override: Option<Outcome>, token: Token, left: bool): Result<StateChannel> {
    var paid :- PaidOut(env, app, override, token);
    hub.RemoveAgreement(env, p.target, if left then LeftPay(env, p, paid) else RightPay(env, p, paid), token)
  }

  /** An agreement in another token than the app pays in cannot be settled: looking up that token throws. */
  lemma OtherTokenCannotBeSettled(env: Environment, hub: StateChannel, p: UninstallParams, app: AppInstance, override: Option<Outcome>,
                                  limit: int, other: Token, token: Token, left: bool)
    requires app.outcomeType == SingleAssetTwoPartyCoinTransfer && app.params == SingleAssetParams(limit, other) && token != other
    ensures Settled(env, hub, p, app, override, token, left).Err?
  {
  }

  /** The three-party channel and a user's hub channel name this pass-through, which targets the app. */
  predicate Names(three: StateChannel, hub: StateChannel, p: UninstallParams, pass: AppInstance, token: Token) {
    && hub.GetAgreement(p.target).Ok? && hub.GetAgreement(p.target).value.token == token
    && PassThroughOf(three, hub.GetAgreement(p.target).value.timeLockedPassThroughIdentityHash) == Ok(pass)
    && pass.latestState.PassThroughState? && pass.latestState.targetAppIdentityHash == p.target
    && pass.appInterface.stateEncoding == PassThroughEncoding
  }

  /** The app whose outcome a user reads: the virtual app, or the pass-through once it has expired. */
  function Payer(app: AppInstance, pass: AppInstance, block: int): AppInstance
    requires pass.latestState.PassThroughState?
  {
    if Expired(pass, block) then pass else app
  }

  /** The outcome that the intermediary reads. */
  function HubOutcome(pass: AppInstance, p: UninstallParams, block: int): Outcome
    requires pass.latestState.PassThroughState?
  {
    if Expired(pass, block) then pass.latestState.defaultOutcome else p.targetOutcome
  }

  lemma InitiatingUninstalls(env: Environment, store: Store, p: UninstallParams, block: int,
                             three: StateChannel, hub: StateChannel, users: StateChannel, app: AppInstance, pass: AppInstance, token: Token)
    requires Find(store, p.All()) == Ok(three) && Find(store, p.LeftPair()) == Ok(hub) && Find(store, p.Users()) == Ok(users)
    requires Names(three, hub, p, pass, token)
    requires users.GetAppInstance(p.target) == Ok(app) && app.IdentityHash() == p.target
    ensures var i, q := UninstallForInitiating(env, store, p, block), Settled(env, hub, p, Payer(app, pass, block), None, token, true);
            && (i.Ok? <==> q.Ok?)
            && (i.Ok? ==> i.value.hub == q.value && Ok(i.value.passThrough) == SwitchedOff(pass, p.targetOutcome)
                          && i.value.three == three.RemoveAppInstance(pass.IdentityHash()) && i.value.users == users.RemoveAppInstance(p.target))
  {
    SwitchesOff(pass, p.targetOutcome);
    var payer := Payer(app, pass, block);
    if PaidOut(env, payer, None, token).Ok? {
      assert Settled(env, hub, p, payer, None, token, true)
          == hub.RemoveAgreement(env, p.target, LeftPay(env, p, PaidOut(env, payer, None, token).value), token);
    }
  }

  lemma RespondingUninstalls(env: Environment, store: Store, p: UninstallParams, block: int,
                             three: StateChannel, hub: StateChannel, users: StateChannel, app: AppInstance, pass: AppInstance, token: Token)
    requires Find(store, p.All()) == Ok(three) && Find(store, p.RightPair()) == Ok(hub) && Find(store, p.Users()) == Ok(users)
    requires Names(three, hub, p, pass, token)
    requires users.GetAppInstance(p.target) == Ok(app) && app.IdentityHash() == p.target && OutcomeNow(env, app) == p.targetOutcome
    ensures var r, q := UninstallForResponding(env, store, p, block), Settled(env, hub, p, Payer(app, pass, block), None, token, false);
            && (r.Ok? <==> q.Ok?)
            && (r.Ok? ==> r.value.hub == q.value && Ok(r.value.passThrough) == SwitchedOff(pass, p.targetOutcome)
                          && r.value.three == three.RemoveAppInstance(pass.IdentityHash()) && r.value.users == users.RemoveAppInstance(p.target))
  {
    SwitchesOff(pass, p.targetOutcome);
    var payer := Payer(app, pass, block);
    if PaidOut(env, payer, None, token).Ok? {
      assert Settled(env, hub, p, payer, None, token, false)
          == hub.RemoveAgreement(env, p.target, RightPay(env, p, PaidOut(env, payer, None, token).value), token);
    }
  }

  /** What the intermediary computes, in the order of the two owners she looks her second channel up with. */
  lemma IntermediaryUninstalls(env: Environment, store: Store, p: UninstallParams, block: int,
                               three: StateChannel, left: StateChannel, right: StateChannel, pass: AppInstance, token: Token)
    requires Find(store, p.All()) == Ok(three) && Find(store, p.LeftPair()) == Ok(left) && Find(store, p.RightPair()) == Ok(right)
    requires Names(three, left, p, pass, token)
    ensures var m := UninstallForIntermediary(env, store, p, block);
            var outcome := Some(HubOutcome(pass, p, block));
            var q, t := Settled(env, left, p, pass, outcome, token, true), Settled(env, right, p, pass, outcome, token, false);
            && (m.Ok? <==> q.Ok? && t.Ok?)
            && (m.Ok? ==> m.value.left == q.value && m.value.right == t.value && Ok(m.value.passThrough) == SwitchedOff(pass, p.targetOutcome)
                          && m.value.three == three.RemoveAppInstance(pass.IdentityHash()))
  {
    PairsAreUnordered(p.intermediaryXpub, p.responderXpub);
    SwitchesOff(pass, p.targetOutcome);
    var outcome := Some(HubOutcome(pass, p, block));
    if PaidOut(env, pass, outcome, token).Ok? {
      var paid := PaidOut(env, pass, outcome, token).value;
      assert Settled(env, left, p, pass, outcome, token, true) == left.RemoveAgreement(env, p.target, LeftPay(env, p, paid), token);
      assert Settled(env, right, p, pass, outcome, token, false) == right.RemoveAgreement(env, p.target, RightPay(env, p, paid), token);
    }
  }

  lemma SwitchesOff(pass: AppInstance, outcome: Outcome)
    requires pass.latestState.PassThroughState? && pass.appInterface.stateEncoding == PassThroughEncoding
    ensures SwitchedOff(pass, outcome).Ok?
  {
  }

  lemma SettledAlike(env: Environment, c: StateChannel, d: StateChannel, p: UninstallParams, payer: AppInstance, pass: AppInstance,
                     outcome: Outcome, token: Token, left: bool)
    requires Alike(c, d) && payer.outcomeType == pass.outcomeType && payer.params == pass.params
    requires OutcomeNow(env, payer) == outcome && pass.latestState.PassThroughState? && !payer.latestState.RefundState?
    ensures var q, t := Settled(env, c, p, payer, None, token, left), Settled(env, d, p, pass, Some(outcome), token, left);
            (q.Ok? <==> t.Ok?) && (q.Ok? ==> Alike(q.value, t.value) && Alike(t.value, q.value))
  {
    SameIncrements(env, payer, pass, outcome);
    if PaidOut(env, payer, None, token).Ok? {
      var paid := PaidOut(env, payer, None, token).value;
      RemoveAgreementAlike(env, c, d, p.target, if left then LeftPay(env, p, paid) else RightPay(env, p, paid), token);
    }
  }

  /** Each of the three reads the same outcome, at whatever block it looks. */
  predicate SameOutcomeRead(env: Environment, s: Stores, p: UninstallParams, blocks: (int, int, int)) {
    HoldVirtualApp(s, p) ==>
      var app, pass := AppHeld(s, p).value, PassThroughHeld(s, p).value;
      && OutcomeNow(env, Payer(app, pass, blocks.0)) == HubOutcome(pass, p, blocks.1)
      && OutcomeNow(env, Payer(app, pass, blocks.2)) == HubOutcome(pass, p, blocks.1)
  }

  /**
   The three computations agree when the proposed outcome is the one the app computes and all three read the same
   outcome: the proposed one, or, from the block at which the pass-through switches, its default.
   */
  lemma ReadOutcomeAgrees(env: Environment, s: Stores, p: UninstallParams, blocks: (int, int, int))
    requires InSyncAt(s, p.All(), p.Users(), p.LeftPair(), p.RightPair())
    requires HoldVirtualApp(s, p) && SameOutcomeRead(env, s, p, blocks)
    requires OutcomeNow(env, AppHeld(s, p).value) == p.targetOutcome
    ensures var i, m, r := UninstallForInitiating(env, s.initiator, p, blocks.0),
                           UninstallForIntermediary(env, s.intermediary, p, blocks.1),
                           UninstallForResponding(env, s.responder, p, blocks.2);
            (m.Ok? <==> i.Ok? && r.Ok?) && (m.Ok? ==> ViewsAgree(i, m, r))
  {
    var pass := PassThroughHeld(s, p).value;
    var all, left, right := multiset(p.All()), multiset(p.LeftPair()), multiset(p.RightPair());
    var token := s.intermediary[left].GetAgreement(p.target).value.token;
    IntermediaryUninstalls(env, s.intermediary, p, blocks.1, s.intermediary[all], s.intermediary[left], s.intermediary[right], pass, token);
    InitiatorReads(env, s, p, blocks, token);
    ResponderReads(env, s, p, blocks, token);
  }

  /** What the initiator computes, against the intermediary's settlement of the same channel. */
  lemma InitiatorReads(env: Environment, s: Stores, p: UninstallParams, blocks: (int, int, int), token: Token)
    requires InSyncAt(s, p.All(), p.Users(), p.LeftPair(), p.RightPair()) && HoldVirtualApp(s, p) && SameOutcomeRead(env, s, p, blocks)
    requires Find(s.intermediary, p.LeftPair()).value.GetAgreement(p.target).value.token == token
    ensures var i, pass := UninstallForInitiating(env, s.initiator, p, blocks.0), PassThroughHeld(s, p).value;
            var q := Settled(env, Find(s.intermediary, p.LeftPair()).value, p, pass, Some(HubOutcome(pass, p, blocks.1)), token, true);
            && (i.Ok? <==> q.Ok?)
            && (i.Ok? ==> Alike(i.value.hub, q.value) && Ok(i.value.passThrough) == SwitchedOff(pass, p.targetOutcome)
                          && i.value.three == Find(s.initiator, p.All()).value.RemoveAppInstance(pass.IdentityHash())
                          && i.value.users == Find(s.initiator, p.Users()).value.RemoveAppInstance(p.target))
  {
    var app, pass := AppHeld(s, p).value, PassThroughHeld(s, p).value;
    var all, users, left := multiset(p.All()), multiset(p.Users()), multiset(p.LeftPair());
    InitiatingUninstalls(env, s.initiator, p, blocks.0, s.initiator[all], s.initiator[left], s.initiator[users], app, pass, token);
    SettledAlike(env, s.initiator[left], s.intermediary[left], p, Payer(app, pass, blocks.0), pass, HubOutcome(pass, p, blocks.1), token, true);
  }

  lemma ResponderReads(env: Environment, s: Stores, p: UninstallParams, blocks: (int, int, int), token: Token)
    requires InSyncAt(s, p.All(), p.Users(), p.LeftPair(), p.RightPair()) && HoldVirtualApp(s, p) && SameOutcomeRead(env, s, p, blocks)
    requires OutcomeNow(env, AppHeld(s, p).value) == p.targetOutcome
    requires Find(s.intermediary, p.LeftPair()).value.GetAgreement(p.target).value.token == token
    ensures var r, pass := UninstallForResponding(env, s.responder, p, blocks.2), PassThroughHeld(s, p).value;
            var q := Settled(env, Find(s.intermediary, p.RightPair()).value, p, pass, Some(HubOutcome(pass, p, blocks.1)), token, false);
            && (r.Ok? <==> q.Ok?)
            && (r.Ok? ==> Alike(q.value, r.value.hub) && Ok(r.value.passThrough) == SwitchedOff(pass, p.targetOutcome)
                          && r.value.three == Find(s.responder, p.All()).value.RemoveAppInstance(pass.IdentityHash())
                          && r.value.users == Find(s.responder, p.Users()).value.RemoveAppInstance(p.target))
  {
    var app, pass := AppHeld(s, p).value, PassThroughHeld(s, p).value;
    var all, users, right := multiset(p.All()), multiset(p.Users()), multiset(p.RightPair());
    RespondingUninstalls(env, s.responder, p, blocks.2, s.responder[all], s.responder[right], s.responder[users], app, pass, token);
    SettledAlike(env, s.responder[right], s.intermediary[right], p, Payer(app, pass, blocks.2), pass, HubOutcome(pass, p, blocks.1), token, false);
  }

  /**
   From the block at which the pass-through switches, the three computations agree when its contract then gives
   the default outcome it holds, as it is meant to.
   */
  lemma ExpiredViewsAgree(env: Environment, s: Stores, p: UninstallParams, blocks: (int, int, int))
    requires InSyncAt(s, p.All(), p.Users(), p.LeftPair(), p.RightPair()) && HoldVirtualApp(s, p)
    requires OutcomeNow(env, AppHeld(s, p).value) == p.targetOutcome
    requires var pass := PassThroughHeld(s, p).value;
             && blocks.0 >= pass.latestState.switchesOutcomeAt && blocks.1 >= pass.latestState.switchesOutcomeAt
             && blocks.2 >= pass.latestState.switchesOutcomeAt
             && env.outcome(pass.appInterface.addr, pass.latestState) == pass.latestState.defaultOutcome
    ensures var i, m, r := UninstallForInitiating(env, s.initiator, p, blocks.0),
                           UninstallForIntermediary(env, s.intermediary, p, blocks.1),
                           UninstallForResponding(env, s.responder, p, blocks.2);
            (m.Ok? <==> i.Ok? && r.Ok?) && (m.Ok? ==> ViewsAgree(i, m, r))
  {
    ReadOutcomeAgrees(env, s, p, blocks);
  }

  /**
   From stores in sync that hold an unexpired virtual app, the three computations of a virtual
   uninstall agree when the proposed outcome is the one the app computes; when it is not, the
   responder refuses.
   */
  lemma UninstallViewsAgree(env: Environment, s: Stores, p: UninstallParams, blocks: (int, int, int))
    requires InSyncAt(s, p.All(), p.Users(), p.LeftPair(), p.RightPair())
    requires HoldVirtualApp(s, p) && Unexpired(s, p, blocks)
    ensures var i, m, r := UninstallForInitiating(env, s.initiator, p, blocks.0),
                           UninstallForIntermediary(env, s.intermediary, p, blocks.1),
                           UninstallForResponding(env, s.responder, p, blocks.2);
            if OutcomeNow(env, AppHeld(s, p).value) == p.targetOutcome
            then (m.Ok? <==> i.Ok? && r.Ok?) && (m.Ok? ==> ViewsAgree(i, m, r))
            else r == Err(TargetOutcomeMismatch)
  {
    if OutcomeNow(env, AppHeld(s, p).value) != p.targetOutcome {
      ResponderRefuses(env, s, p, blocks.2);
    } else {
      ReadOutcomeAgrees(env, s, p, blocks);
    }
  }

  lemma ResponderRefuses(env: Environment, s: Stores, p: UninstallParams, block: int)
    requires InSyncAt(s, p.All(), p.Users(), p.LeftPair(), p.RightPair())
    requires HoldVirtualApp(s, p) && OutcomeNow(env, AppHeld(s, p).value) != p.targetOutcome
    ensures UninstallForResponding(env, s.responder, p, block) == Err(TargetOutcomeMismatch)
  {
    var three, hub, users := Find(s.responder, p.All()), Find(s.responder, p.RightPair()), Find(s.responder, p.Users());
    assert three.Ok? && hub.Ok? && users.Ok?;
    assert PassThroughOf(three.value, hub.value.GetAgreement(p.target).value.timeLockedPassThroughIdentityHash) == PassThroughHeld(s, p);
    assert users.value.GetAppInstance(p.target) == AppHeld(s, p);
  }

  // ---- What an install leaves for the uninstall -----------------------------------------------

  function UserStore(store: Store, all: seq<Xpub>, users: seq<Xpub>, hub: seq<Xpub>, u: UserUpdate): Store {
    store[multiset(all) := u.three][multiset(users) := u.users][multiset(hub) := u.hub]
  }

  function HubStore(store: Store, all: seq<Xpub>, left: seq<Xpub>, right: seq<Xpub>, u: HubUpdate): Store {
    store[multiset(all) := u.three][multiset(left) := u.left][multiset(right) := u.right]
  }

  /** The stores once all three have persisted what they computed. */
  function Persisted(s: Stores, all: seq<Xpub>, users: seq<Xpub>, left: seq<Xpub>, right: seq<Xpub>,
                     i: UserUpdate, m: HubUpdate, r: UserUpdate): Stores {
    Stores(UserStore(s.initiator, all, users, left, i), HubStore(s.intermediary, all, left, right, m),
           UserStore(s.responder, all, users, right, r))
  }

  predicate ThreePeople(i: Xpub, m: Xpub, r: Xpub) {
    i != m && m != r && i != r
  }

  lemma FourChannels(i: Xpub, m: Xpub, r: Xpub)
    requires ThreePeople(i, m, r)
    ensures var all, users, left, right := multiset([i, r, m]), multiset([i, r]), multiset([i, m]), multiset([r, m]);
            all != users && all != left && all != right && users != left && users != right && left != right
  {
    assert multiset([i, r, m])[m] == 1 && multiset([i, r, m])[r] == 1 && multiset([i, r, m])[i] == 1;
    assert multiset([i, r])[m] == 0 && multiset([i, m])[r] == 0 && multiset([r, m])[i] == 0;
    assert multiset([i, r])[i] == 1 && multiset([i, r])[r] == 1;
    assert multiset([i, m])[m] == 1 && multiset([i, m])[i] == 1;
    assert multiset([r, m])[m] == 1;
  }

  /** Persisting agreeing views keeps the stores in sync. */
  lemma PersistedInSync(s: Stores, i: UserUpdate, m: HubUpdate, r: UserUpdate, ix: Xpub, mx: Xpub, rx: Xpub)
    requires ThreePeople(ix, mx, rx) && ViewsAgree(Ok(i), Ok(m), Ok(r))
    ensures var all, users, left, right := [ix, rx, mx], [ix, rx], [ix, mx], [rx, mx];
            var t := Persisted(s, all, users, left, right, i, m, r);
            && InSyncAt(t, all, users, left, right)
            && Find(t.initiator, users) == Ok(i.users) && Find(t.intermediary, all) == Ok(m.three)
            && Find(t.intermediary, left) == Ok(m.left) && Find(t.intermediary, right) == Ok(m.right)
  {
    FourChannels(ix, mx, rx);
  }

  /** The parameters of the uninstall that undoes an install. */
  function Undo(env: Environment, p: VirtualParams, outcome: Outcome): UninstallParams {
    UninstallParams(p.initiatorXpub, p.intermediaryXpub, p.responderXpub, Announced(env, p).0, outcome)
  }

  lemma AddedApp(c: StateChannel, app: AppInstance)
    ensures c.AddAppInstance(app).GetAppInstance(app.IdentityHash()) == Ok(app)
  {
    SetGet(c.apps, app.IdentityHash(), app, app.IdentityHash());
  }

  lemma InitiatingConstructs(env: Environment, store: Store, p: VirtualParams)
    requires InstallForInitiating(env, store, p).Ok?
    ensures ConstructVirtualApp(env, p).Ok?
  {
  }

  lemma InstalledForUsers(env: Environment, s: Stores, p: VirtualParams)
    requires InstallForInitiating(env, s.initiator, p).Ok?
    ensures var app, h := ConstructVirtualApp(env, p), Announced(env, p).0;
            && app.Ok? && h == app.value.IdentityHash()
            && InstallForInitiating(env, s.initiator, p).value.users.GetAppInstance(h) == Ok(app.value)
  {
    InitiatingConstructs(env, s.initiator, p);
    InitiatingIs(env, s.initiator, p);
    AddedApp(GetOrCreate(env, s.initiator, p.Users()), ConstructVirtualApp(env, p).value);
  }

  lemma InstalledForAll(env: Environment, store: Store, p: VirtualParams, h: AppIdHash, outcome: Outcome)
    requires InstallForIntermediary(env, store, p, h, outcome).Ok?
    ensures var m := InstallForIntermediary(env, store, p, h, outcome).value;
            && m.three.GetAppInstance(m.passThrough.IdentityHash()) == Ok(m.passThrough)
            && ConstructPassThrough(env, GetOrCreate(env, store, p.All()), h, outcome, p) == Ok(m.passThrough)
  {
    MediatedPassThrough(env, store, p, h, outcome);
    MediatedThree(env, store, p, h, outcome);
    AddedApp(GetOrCreate(env, store, p.All()), InstallForIntermediary(env, store, p, h, outcome).value.passThrough);
  }

  lemma MediatedThree(env: Environment, store: Store, p: VirtualParams, h: AppIdHash, outcome: Outcome)
    requires InstallForIntermediary(env, store, p, h, outcome).Ok?
    ensures var m := InstallForIntermediary(env, store, p, h, outcome).value;
            m.three == GetOrCreate(env, store, p.All()).AddAppInstance(m.passThrough)
  {
    var pass := ConstructPassThrough(env, GetOrCreate(env, store, p.All()), h, outcome, p);
    assert pass.Ok?;
  }

  lemma AddedAgreement(env: Environment, c: StateChannel, h: AppIdHash, agreement: Agreement, decrements: CoinTransferMap, token: Token)
    requires c.AddAgreement(env, h, agreement, decrements, token).Ok?
    ensures c.AddAgreement(env, h, agreement, decrements, token).value.GetAgreement(h) == Ok(agreement)
  {
    ActivatingKeepsAgreements(env, c.(agreements := Set(c.agreements, h, agreement)), h, [(token, Flip(decrements))]);
    SetGet(c.agreements, h, agreement, h);
  }

  lemma ActivatingKeepsAgreements(env: Environment, c: StateChannel, h: AppIdHash, increments: TokenIndexedCoinTransferMap)
    requires c.AddActiveAppAndIncrement(env, h, increments).Ok?
    ensures c.AddActiveAppAndIncrement(env, h, increments).value.agreements == c.agreements
  {
  }

  lemma MediatedPassThrough(env: Environment, store: Store, p: VirtualParams, h: AppIdHash, outcome: Outcome)
    requires InstallForIntermediary(env, store, p, h, outcome).Ok?
    ensures Ok(InstallForIntermediary(env, store, p, h, outcome).value.passThrough)
         == ConstructPassThrough(env, GetOrCreate(env, store, p.All()), h, outcome, p)
    ensures Find(store, p.LeftPair()).Ok? && Find(store, p.RightPair()).Ok?
  {
    var pass := ConstructPassThrough(env, GetOrCreate(env, store, p.All()), h, outcome, p);
    assert pass.Ok? && Find(store, p.LeftPair()).Ok? && Find(store, p.RightPair()).Ok?;
  }

  lemma MediatedChannels(env: Environment, store: Store, p: VirtualParams, h: AppIdHash, outcome: Outcome)
    requires InstallForIntermediary(env, store, p, h, outcome).Ok?
    ensures var m := InstallForIntermediary(env, store, p, h, outcome).value;
            var pass := m.passThrough.IdentityHash();
            && Find(store, p.LeftPair()).Ok? && Find(store, p.RightPair()).Ok?
            && Find(store, p.LeftPair()).value.AddAgreement(env, h, LeftAgreementOf(env, p, pass), LeftDecrements(env, p), p.token) == Ok(m.left)
            && Find(store, p.RightPair()).value.AddAgreement(env, h, RightAgreementOf(env, p, pass), RightDecrements(env, p), p.token) == Ok(m.right)
  {
    MediatedPassThrough(env, store, p, h, outcome);
    var pass := ConstructPassThrough(env, GetOrCreate(env, store, p.All()), h, outcome, p).value.IdentityHash();
    var left := Find(store, p.LeftPair()).value.AddAgreement(env, h, LeftAgreementOf(env, p, pass), LeftDecrements(env, p), p.token);
    var right := Find(store, p.RightPair()).value.AddAgreement(env, h, RightAgreementOf(env, p, pass), RightDecrements(env, p), p.token);
    assert left.Ok? && right.Ok?;
  }

  lemma InstallAgreements(env: Environment, store: Store, p: VirtualParams, h: AppIdHash, outcome: Outcome)
    requires InstallForIntermediary(env, store, p, h, outcome).Ok?
    ensures var m := InstallForIntermediary(env, store, p, h, outcome).value;
            && m.left.GetAgreement(h) == Ok(LeftAgreementOf(env, p, m.passThrough.IdentityHash()))
            && m.right.GetAgreement(h) == Ok(RightAgreementOf(env, p, m.passThrough.IdentityHash()))
  {
    var pass := InstallForIntermediary(env, store, p, h, outcome).value.passThrough.IdentityHash();
    MediatedChannels(env, store, p, h, outcome);
    AddedAgreement(env, Find(store, p.LeftPair()).value, h, LeftAgreementOf(env, p, pass), LeftDecrements(env, p), p.token);
    AddedAgreement(env, Find(store, p.RightPair()).value, h, RightAgreementOf(env, p, pass), RightDecrements(env, p), p.token);
  }

  /** A completed virtual install leaves stores in sync that hold the virtual app, whatever outcome is proposed later. */
  lemma InstallIsHeld(env: Environment, s: Stores, p: VirtualParams, outcome: Outcome)
    requires InSyncAt(s, p.All(), p.Users(), p.LeftPair(), p.RightPair())
    requires ThreePeople(p.initiatorXpub, p.intermediaryXpub, p.responderXpub)
    requires p.outcomeType == SingleAssetTwoPartyCoinTransfer && !p.initialState.RefundState?
    requires InstallForIntermediary(env, s.intermediary, p, Announced(env, p).0, Announced(env, p).1).Ok?
    ensures InstallForInitiating(env, s.initiator, p).Ok? && InstallForResponding(env, s.responder, p).Ok?
    ensures var t := Persisted(s, p.All(), p.Users(), p.LeftPair(), p.RightPair(), InstallForInitiating(env, s.initiator, p).value,
                               InstallForIntermediary(env, s.intermediary, p, Announced(env, p).0, Announced(env, p).1).value,
                               InstallForResponding(env, s.responder, p).value);
            && InSyncAt(t, p.All(), p.Users(), p.LeftPair(), p.RightPair())
            && HoldVirtualApp(t, Undo(env, p, outcome))
  {
    InstallViewsAgree(env, s, p);
    InstalledForUsers(env, s, p);
    InstalledForAll(env, s.intermediary, p, Announced(env, p).0, Announced(env, p).1);
    InstallAgreements(env, s.intermediary, p, Announced(env, p).0, Announced(env, p).1);
    PersistedInSync(s, InstallForInitiating(env, s.initiator, p).value,
                    InstallForIntermediary(env, s.intermediary, p, Announced(env, p).0, Announced(env, p).1).value,
                    InstallForResponding(env, s.responder, p).value, p.initiatorXpub, p.intermediaryXpub, p.responderXpub);
  }

  // ---- Between install and uninstall ----------------------------------------------------------

  /** Both users move the virtual app to a new state, as take-action and update do. */
  function UsersUpdated(s: Stores, p: UninstallParams, state: AppState): Stores {
    match Find(s.initiator, p.Users())
    case Err(_) => s
    case Ok(users) =>
      match Find(s.responder, p.Users())
      case Err(_) => s
      case Ok(theirs) =>
        match (users.SetState(p.target, state), theirs.SetState(p.target, state))
        case (Ok(users'), Ok(theirs')) =>
          s.(initiator := s.initiator[multiset(p.Users()) := users'], responder := s.responder[multiset(p.Users()) := theirs'])
        case _ => s
  }

  lemma UpdatedInSync(s: Stores, p: UninstallParams, state: AppState)
    requires ThreePeople(p.initiatorXpub, p.intermediaryXpub, p.responderXpub)
    requires InSyncAt(s, p.All(), p.Users(), p.LeftPair(), p.RightPair())
    ensures InSyncAt(UsersUpdated(s, p, state), p.All(), p.Users(), p.LeftPair(), p.RightPair())
    ensures UsersUpdated(s, p, state).intermediary == s.intermediary
  {
    FourChannels(p.initiatorXpub, p.intermediaryXpub, p.responderXpub);
  }

  lemma UpdatedApp(users: StateChannel, h: AppIdHash, state: AppState)
    requires users.SetState(h, state).Ok?
    ensures users.GetAppInstance(h).Ok? && users.GetAppInstance(h).value.SetState(state).Ok?
    ensures users.SetState(h, state).value.GetAppInstance(h) == Ok(users.GetAppInstance(h).value.SetState(state).value)
  {
    SetGet(users.apps, h, Get(users.apps, h).SetState(state).value, h);
  }

  /** An update that encodes reaches both users' copies of the virtual app. */
  lemma UpdateReachesBothUsers(s: Stores, p: UninstallParams, state: AppState)
    requires InSyncAt(s, p.All(), p.Users(), p.LeftPair(), p.RightPair()) && HoldVirtualApp(s, p)
    requires Encodes(AppHeld(s, p).value.appInterface.stateEncoding, state)
    ensures var t, app := UsersUpdated(s, p, state), AppHeld(s, p).value;
            && AppHeld(t, p).Ok? && AppHeld(t, p).value.latestState == state && AppHeld(t, p).value.latestVersionNumber == app.latestVersionNumber + 1
            && Find(t.responder, p.Users()).Ok? && Find(t.responder, p.Users()).value.GetAppInstance(p.target) == AppHeld(t, p)
  {
    var users, theirs := Find(s.initiator, p.Users()).value, Find(s.responder, p.Users()).value;
    UpdatedApp(users, p.target, state);
    UpdatedApp(theirs, p.target, state);
  }

  lemma UpdateIsHeld(s: Stores, p: UninstallParams, state: AppState)
    requires ThreePeople(p.initiatorXpub, p.intermediaryXpub, p.responderXpub)
    requires InSyncAt(s, p.All(), p.Users(), p.LeftPair(), p.RightPair()) && HoldVirtualApp(s, p) && !state.RefundState?
    ensures var t := UsersUpdated(s, p, state);
            InSyncAt(t, p.All(), p.Users(), p.LeftPair(), p.RightPair()) && HoldVirtualApp(t, p)
    ensures PassThroughHeld(UsersUpdated(s, p, state), p) == PassThroughHeld(s, p)
  {
    UpdatedInSync(s, p, state);
    var users := Find(s.initiator, p.Users()).value;
    if users.SetState(p.target, state).Ok? {
      UpdatedApp(users, p.target, state);
    }
  }

  function ManyUpdates(s: Stores, p: UninstallParams, states: seq<AppState>): Stores {
    if states == [] then s else UsersUpdated(ManyUpdates(s, p, states[..|states| - 1]), p, states[|states| - 1])
  }

  lemma {:induction false} UpdatesAreHeld(s: Stores, p: UninstallParams, states: seq<AppState>)
    requires ThreePeople(p.initiatorXpub, p.intermediaryXpub, p.responderXpub)
    requires InSyncAt(s, p.All(), p.Users(), p.LeftPair(), p.RightPair()) && HoldVirtualApp(s, p)
    requires forall state :: state in states ==> !state.RefundState?
    ensures var t := ManyUpdates(s, p, states);
            InSyncAt(t, p.All(), p.Users(), p.LeftPair(), p.RightPair()) && HoldVirtualApp(t, p)
    ensures PassThroughHeld(ManyUpdates(s, p, states), p) == PassThroughHeld(s, p)
  {
    if states != [] {
      UpdatesAreHeld(s, p, states[..|states| - 1]);
      UpdateIsHeld(ManyUpdates(s, p, states[..|states| - 1]), p, states[|states| - 1]);
    }
  }

  /** The stores once the three parties have persisted a virtual install. */
  function Installed(env: Environment, s: Stores, p: VirtualParams): Stores {
    match (InstallForInitiating(env, s.initiator, p),
           InstallForIntermediary(env, s.intermediary, p, Announced(env, p).0, Announced(env, p).1),
           InstallForResponding(env, s.responder, p))
    case (Ok(i), Ok(m), Ok(r)) => Persisted(s, p.All(), p.Users(), p.LeftPair(), p.RightPair(), i, m, r)
    case _ => s
  }

  /**
   From stores in sync, through a virtual install and any number of updates to the virtual app, the
   three parties agree on the uninstall that proposes the outcome the app then computes.
   */
  lemma InstallUpdatesUninstallAgree(env: Environment, s: Stores, p: VirtualParams, states: seq<AppState>, blocks: (int, int, int))
    requires InSyncAt(s, p.All(), p.Users(), p.LeftPair(), p.RightPair())
    requires ThreePeople(p.initiatorXpub, p.intermediaryXpub, p.responderXpub)
    requires p.outcomeType == SingleAssetTwoPartyCoinTransfer
    requires !p.initialState.RefundState? && forall state :: state in states ==> !state.RefundState?
    requires InstallForIntermediary(env, s.intermediary, p, Announced(env, p).0, Announced(env, p).1).Ok?
    requires blocks.0 < MAX_UINT256 && blocks.1 < MAX_UINT256 && blocks.2 < MAX_UINT256
    ensures var t := ManyUpdates(Installed(env, s, p), Undo(env, p, FixedOutcome(0)), states);
            && AppHeld(t, Undo(env, p, FixedOutcome(0))).Ok?
            && var q := Undo(env, p, OutcomeNow(env, AppHeld(t, Undo(env, p, FixedOutcome(0))).value));
               var i, m, r := UninstallForInitiating(env, t.initiator, q, blocks.0),
                              UninstallForIntermediary(env, t.intermediary, q, blocks.1),
                              UninstallForResponding(env, t.responder, q, blocks.2);
               (m.Ok? <==> i.Ok? && r.Ok?) && (m.Ok? ==> ViewsAgree(i, m, r))
  {
    var q0 := Undo(env, p, FixedOutcome(0));
    var s1 := Installed(env, s, p);
    InstallIsHeld(env, s, p, FixedOutcome(0));
    InstalledPassThrough(env, s, p);
    UpdatesAreHeld(s1, q0, states);
    var t := ManyUpdates(s1, q0, states);
    var q := Undo(env, p, OutcomeNow(env, AppHeld(t, q0).value));
    SameHeld(t, q0, q);
    UninstallViewsAgree(env, t, q, blocks);
  }

  /** The proposed outcome plays no part in what the stores hold. */
  lemma SameHeld(s: Stores, p: UninstallParams, q: UninstallParams)
    requires q == p.(targetOutcome := q.targetOutcome)
    ensures AppHeld(s, q) == AppHeld(s, p) && PassThroughHeld(s, q) == PassThroughHeld(s, p)
    ensures HoldVirtualApp(s, q) == HoldVirtualApp(s, p)
  {
  }

  lemma InstalledPassThrough(env: Environment, s: Stores, p: VirtualParams)
    requires InSyncAt(s, p.All(), p.Users(), p.LeftPair(), p.RightPair())
    requires ThreePeople(p.initiatorXpub, p.intermediaryXpub, p.responderXpub)
    requires InstallForIntermediary(env, s.intermediary, p, Announced(env, p).0, Announced(env, p).1).Ok?
    ensures var m := InstallForIntermediary(env, s.intermediary, p, Announced(env, p).0, Announced(env, p).1).value;
            && PassThroughHeld(Installed(env, s, p), Undo(env, p, FixedOutcome(0))) == Ok(m.passThrough)
            && m.passThrough.latestState.PassThroughState? && m.passThrough.latestState.switchesOutcomeAt == MAX_UINT256
  {
    InstallViewsAgree(env, s, p);
    InstalledForAll(env, s.intermediary, p, Announced(env, p).0, Announced(env, p).1);
    InstallAgreements(env, s.intermediary, p, Announced(env, p).0, Announced(env, p).1);
    PersistedInSync(s, InstallForInitiating(env, s.initiator, p).value,
                    InstallForIntermediary(env, s.intermediary, p, Announced(env, p).0, Announced(env, p).1).value,
                    InstallForResponding(env, s.responder, p).value, p.initiatorXpub, p.intermediaryXpub, p.responderXpub);
  }
}
