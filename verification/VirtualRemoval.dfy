/** What a virtual uninstall takes out of the stores: the virtual app, its pass-through and the two agreements, and nothing else. */
module VirtualRemoval {
  import opened OrderedMaps
  import opened Models
  import opened FreeBalances
  import opened StateChannels
  import opened DirectTransitions
  import opened VirtualApps
  import opened VirtualRuns
  import Lookup
  import opened Protocols
  import opened ProtocolRuns

  /** `c'` is `c` without the app under `h`; every other app and every other field is as it was. */
  ghost predicate WithoutApp(c: StateChannel, c': StateChannel, h: AppIdHash) {
    && !Has(c'.apps, h) && c' == c.(apps := c'.apps)
    && forall k :: k != h ==> (Has(c'.apps, k) <==> Has(c.apps, k)) && (Has(c.apps, k) ==> Get(c'.apps, k) == Get(c.apps, k))
  }

  /** The same for an agreement; the free balance may change too. */
  ghost predicate WithoutAgreement(c: StateChannel, c': StateChannel, h: AppIdHash) {
    && !Has(c'.agreements, h) && c' == c.(agreements := c'.agreements, freeBalanceApp := c'.freeBalanceApp)
    && forall k :: k != h ==> (Has(c'.agreements, k) <==> Has(c.agreements, k)) && (Has(c.agreements, k) ==> Get(c'.agreements, k) == Get(c.agreements, k))
  }

  lemma RemovedApp(c: StateChannel, h: AppIdHash)
    requires Unique(c.apps)
    ensures WithoutApp(c, c.RemoveAppInstance(h), h)
  {
    forall k ensures Has(Delete(c.apps, h), k) <==> k != h && Has(c.apps, k)
      ensures k != h && Has(c.apps, k) ==> Get(Delete(c.apps, h), k) == Get(c.apps, k)
    {
      DeleteGet(c.apps, h, k);
    }
  }

  lemma DeactivatingChangesOnlyFreeBalance(env: Environment, c: StateChannel, h: AppIdHash, increments: TokenIndexedCoinTransferMap)
    requires c.RemoveActiveAppAndIncrement(env, h, increments).Ok?
    ensures var r := c.RemoveActiveAppAndIncrement(env, h, increments).value;
            r == c.(freeBalanceApp := r.freeBalanceApp)
  {
  }

  lemma RemovedAgreement(env: Environment, c: StateChannel, h: AppIdHash, increments: CoinTransferMap, token: Token)
    requires Unique(c.agreements) && c.RemoveAgreement(env, h, increments, token).Ok?
    ensures WithoutAgreement(c, c.RemoveAgreement(env, h, increments, token).value, h)
  {
    DeactivatingChangesOnlyFreeBalance(env, c.(agreements := Delete(c.agreements, h)), h, [(token, increments)]);
    forall k ensures Has(Delete(c.agreements, h), k) <==> k != h && Has(c.agreements, k)
      ensures k != h && Has(c.agreements, k) ==> Get(Delete(c.agreements, h), k) == Get(c.agreements, k)
    {
      DeleteGet(c.agreements, h, k);
    }
  }

  /** The channels of a store have no key twice. */
  ghost predicate Keyed(store: Store) {
    forall k :: k in store ==> Unique(store[k].apps) && Unique(store[k].agreements)
  }

  /** The pass-through that the agreement for the target names, and the app it targets, as a user finds them. */
  predicate UserFinds(store: Store, p: UninstallParams, hub: StateChannel, three: StateChannel, users: StateChannel, pass: AppInstance, app: AppInstance) {
    && Find(store, p.All()) == Ok(three) && Find(store, p.Users()) == Ok(users)
    && hub.GetAgreement(p.target).Ok?
    && PassThroughOf(three, hub.GetAgreement(p.target).value.timeLockedPassThroughIdentityHash) == Ok(pass)
    && pass.latestState.PassThroughState?
    && users.GetAppInstance(pass.latestState.targetAppIdentityHash) == Ok(app)
  }

  /** A user's uninstall takes the virtual app and the pass-through out of the two channels that hold them. */
  lemma InitiatingRemoves(env: Environment, store: Store, p: UninstallParams, block: int,
                          hub: StateChannel, three: StateChannel, users: StateChannel, pass: AppInstance, app: AppInstance)
    requires UninstallForInitiating(env, store, p, block).Ok? && Keyed(store)
    requires Find(store, p.LeftPair()) == Ok(hub) && UserFinds(store, p, hub, three, users, pass, app)
    ensures var u := UninstallForInitiating(env, store, p, block).value;
            && WithoutApp(three, u.three, pass.IdentityHash()) && WithoutApp(users, u.users, app.IdentityHash())
            && WithoutAgreement(hub, u.hub, app.IdentityHash())
  {
    var increments, token := InitiatingRemovesIs(env, store, p, block, hub, three, users, pass, app);
    RemovedApp(three, pass.IdentityHash());
    RemovedApp(users, app.IdentityHash());
    RemovedAgreement(env, hub, app.IdentityHash(), increments, token);
  }

  /** What that is in terms of the three channels. */
  lemma InitiatingRemovesIs(env: Environment, store: Store, p: UninstallParams, block: int,
                            hub: StateChannel, three: StateChannel, users: StateChannel, pass: AppInstance, app: AppInstance)
    returns (increments: CoinTransferMap, token: Token)
    requires UninstallForInitiating(env, store, p, block).Ok?
    requires Find(store, p.LeftPair()) == Ok(hub) && UserFinds(store, p, hub, three, users, pass, app)
    ensures var u := UninstallForInitiating(env, store, p, block).value;
            && u.three == three.RemoveAppInstance(pass.IdentityHash()) && u.users == users.RemoveAppInstance(app.IdentityHash())
            && hub.RemoveAgreement(env, app.IdentityHash(), increments, token) == Ok(u.hub)
  {
    token := hub.GetAgreement(p.target).value.token;
    increments := LeftPay(env, p, PaidOut(env, if Expired(pass, block) then pass else app, None, token).value);
  }

  lemma RespondingRemoves(env: Environment, store: Store, p: UninstallParams, block: int,
                          hub: StateChannel, three: StateChannel, users: StateChannel, pass: AppInstance, app: AppInstance)
    requires UninstallForResponding(env, store, p, block).Ok? && Keyed(store)
    requires Find(store, p.RightPair()) == Ok(hub) && UserFinds(store, p, hub, three, users, pass, app)
    ensures var u := UninstallForResponding(env, store, p, block).value;
            && WithoutApp(three, u.three, pass.IdentityHash()) && WithoutApp(users, u.users, app.IdentityHash())
            && WithoutAgreement(hub, u.hub, app.IdentityHash())
  {
    var increments, token := RespondingRemovesIs(env, store, p, block, hub, three, users, pass, app);
    RemovedApp(three, pass.IdentityHash());
    RemovedApp(users, app.IdentityHash());
    RemovedAgreement(env, hub, app.IdentityHash(), increments, token);
  }

  /** What that is in terms of the three channels. */
  lemma RespondingRemovesIs(env: Environment, store: Store, p: UninstallParams, block: int,
                            hub: StateChannel, three: StateChannel, users: StateChannel, pass: AppInstance, app: AppInstance)
    returns (increments: CoinTransferMap, token: Token)
    requires UninstallForResponding(env, store, p, block).Ok?
    requires Find(store, p.RightPair()) == Ok(hub) && UserFinds(store, p, hub, three, users, pass, app)
    ensures var u := UninstallForResponding(env, store, p, block).value;
            && u.three == three.RemoveAppInstance(pass.IdentityHash()) && u.users == users.RemoveAppInstance(app.IdentityHash())
            && hub.RemoveAgreement(env, app.IdentityHash(), increments, token) == Ok(u.hub)
  {
    token := hub.GetAgreement(p.target).value.token;
    increments := RightPay(env, p, PaidOut(env, if Expired(pass, block) then pass else app, None, token).value);
  }

  /** The intermediary takes out the pass-through, and the agreement for the app it targets from both channels. */
  lemma IntermediaryRemoves(env: Environment, store: Store, p: UninstallParams, block: int,
                            left: StateChannel, right: StateChannel, three: StateChannel, pass: AppInstance)
    requires UninstallForIntermediary(env, store, p, block).Ok? && Keyed(store)
    requires Find(store, p.All()) == Ok(three) && Find(store, p.LeftPair()) == Ok(left) && Find(store, p.RightPair()) == Ok(right)
    requires left.GetAgreement(p.target).Ok?
    requires PassThroughOf(three, left.GetAgreement(p.target).value.timeLockedPassThroughIdentityHash) == Ok(pass) && pass.latestState.PassThroughState?
    ensures var m, target := UninstallForIntermediary(env, store, p, block).value, pass.latestState.targetAppIdentityHash;
            && WithoutApp(three, m.three, pass.IdentityHash())
            && WithoutAgreement(left, m.left, target) && WithoutAgreement(right, m.right, target)
  {
    var increments, token := IntermediaryRemovesIs(env, store, p, block, left, right, three, pass);
    RemovedApp(three, pass.IdentityHash());
    RemovedAgreement(env, left, pass.latestState.targetAppIdentityHash, increments.0, token);
    RemovedAgreement(env, right, pass.latestState.targetAppIdentityHash, increments.1, token);
  }

  lemma IntermediaryRemovesIs(env: Environment, store: Store, p: UninstallParams, block: int,
                              left: StateChannel, right: StateChannel, three: StateChannel, pass: AppInstance)
    returns (increments: (CoinTransferMap, CoinTransferMap), token: Token)
    requires UninstallForIntermediary(env, store, p, block).Ok?
    requires Find(store, p.All()) == Ok(three) && Find(store, p.LeftPair()) == Ok(left) && Find(store, p.RightPair()) == Ok(right)
    requires left.GetAgreement(p.target).Ok?
    requires PassThroughOf(three, left.GetAgreement(p.target).value.timeLockedPassThroughIdentityHash) == Ok(pass) && pass.latestState.PassThroughState?
    ensures var m, target := UninstallForIntermediary(env, store, p, block).value, pass.latestState.targetAppIdentityHash;
            && m.three == three.RemoveAppInstance(pass.IdentityHash())
            && left.RemoveAgreement(env, target, increments.0, token) == Ok(m.left)
            && right.RemoveAgreement(env, target, increments.1, token) == Ok(m.right)
  {
    PairsAreUnordered(p.intermediaryXpub, p.responderXpub);
    token := left.GetAgreement(p.target).value.token;
    var outcome := if Expired(pass, block) then pass.latestState.defaultOutcome else p.targetOutcome;
    var paid := PaidOut(env, pass, Some(outcome), token).value;
    HubRepaysIs(env, p, three, left, right, pass, token, outcome, paid);
    increments := (LeftPay(env, p, paid), RightPay(env, p, paid));
  }

  // ---- Over the three stores ------------------------------------------------------------------

  ghost predicate AppGone(before: Store, after: Store, people: seq<Xpub>, h: AppIdHash) {
    Find(before, people).Ok? && Find(after, people).Ok? && WithoutApp(Find(before, people).value, Find(after, people).value, h)
  }

  ghost predicate AgreementGone(before: Store, after: Store, people: seq<Xpub>, h: AppIdHash) {
    Find(before, people).Ok? && Find(after, people).Ok? && WithoutAgreement(Find(before, people).value, Find(after, people).value, h)
  }

  /** Three parties of which each has taken out what it shares with the others. */
  ghost predicate AllGone(s: Stores, t: Stores, p: UninstallParams, pass: AppIdHash) {
    && AppGone(s.initiator, t.initiator, p.All(), pass) && AppGone(s.intermediary, t.intermediary, p.All(), pass)
    && AppGone(s.responder, t.responder, p.All(), pass)
    && AppGone(s.initiator, t.initiator, p.Users(), p.target) && AppGone(s.responder, t.responder, p.Users(), p.target)
    && AgreementGone(s.initiator, t.initiator, p.LeftPair(), p.target) && AgreementGone(s.intermediary, t.intermediary, p.LeftPair(), p.target)
    && AgreementGone(s.intermediary, t.intermediary, p.RightPair(), p.target) && AgreementGone(s.responder, t.responder, p.RightPair(), p.target)
  }

  /** The stores in which uninstalling finds the virtual app. */
  ghost predicate CanUninstall(env: Environment, s: Stores, p: UninstallParams, blocks: (int, int, int)) {
    && ThreePeople(p.initiatorXpub, p.intermediaryXpub, p.responderXpub)
    && InSyncAt(s, p.All(), p.Users(), p.LeftPair(), p.RightPair()) && HoldVirtualApp(s, p)
    && Keyed(s.initiator) && Keyed(s.intermediary) && Keyed(s.responder)
    && var c := UninstallComputed(env, s, p, blocks); c.i.Ok? && c.m.Ok? && c.r.Ok?
  }

  lemma UserStoreFinds(store: Store, all: seq<Xpub>, users: seq<Xpub>, hub: seq<Xpub>, u: UserUpdate)
    requires multiset(all) != multiset(users) && multiset(all) != multiset(hub) && multiset(users) != multiset(hub)
    ensures var t := UserStore(store, all, users, hub, u);
            Find(t, all) == Ok(u.three) && Find(t, users) == Ok(u.users) && Find(t, hub) == Ok(u.hub)
  {
  }

  lemma HubStoreFinds(store: Store, all: seq<Xpub>, left: seq<Xpub>, right: seq<Xpub>, u: HubUpdate)
    requires multiset(all) != multiset(left) && multiset(all) != multiset(right) && multiset(left) != multiset(right)
    ensures var t := HubStore(store, all, left, right, u);
            Find(t, all) == Ok(u.three) && Find(t, left) == Ok(u.left) && Find(t, right) == Ok(u.right)
  {
  }

  /** What the initiator takes out of stores in sync. */
  lemma InitiatorTakesOut(env: Environment, s: Stores, p: UninstallParams, blocks: (int, int, int))
    returns (increments: CoinTransferMap, token: Token)
    requires InSyncAt(s, p.All(), p.Users(), p.LeftPair(), p.RightPair()) && HoldVirtualApp(s, p)
    requires UninstallComputed(env, s, p, blocks).i.Ok?
    ensures var three, users, hub := Find(s.initiator, p.All()), Find(s.initiator, p.Users()), Find(s.initiator, p.LeftPair());
            var u := UninstallComputed(env, s, p, blocks).i.value;
            && three.Ok? && users.Ok? && hub.Ok?
            && u.three == three.value.RemoveAppInstance(PassThroughHeld(s, p).value.IdentityHash())
            && u.users == users.value.RemoveAppInstance(p.target)
            && hub.value.RemoveAgreement(env, p.target, increments, token) == Ok(u.hub)
  {
    var store := s.initiator;
    InitiatorFinds(s, p);
    increments, token := InitiatingRemovesIs(env, store, p, blocks.0, Find(store, p.LeftPair()).value, Find(store, p.All()).value,
                                             Find(store, p.Users()).value, PassThroughHeld(s, p).value, AppHeld(s, p).value);
  }

  lemma InitiatorFinds(s: Stores, p: UninstallParams)
    requires InSyncAt(s, p.All(), p.Users(), p.LeftPair(), p.RightPair()) && HoldVirtualApp(s, p)
    ensures var store, hub := s.initiator, Find(s.initiator, p.LeftPair());
            && hub.Ok? && Find(store, p.All()).Ok? && Find(store, p.Users()).Ok?
            && UserFinds(store, p, hub.value, Find(store, p.All()).value, Find(store, p.Users()).value, PassThroughHeld(s, p).value, AppHeld(s, p).value)
  {
  }

  lemma InitiatorsGone(env: Environment, s: Stores, p: UninstallParams, blocks: (int, int, int))
    requires CanUninstall(env, s, p, blocks)
    ensures var t := UserStore(s.initiator, p.All(), p.Users(), p.LeftPair(), UninstallComputed(env, s, p, blocks).i.value);
            && AppGone(s.initiator, t, p.All(), PassThroughHeld(s, p).value.IdentityHash())
            && AppGone(s.initiator, t, p.Users(), p.target) && AgreementGone(s.initiator, t, p.LeftPair(), p.target)
  {
    var increments, token := InitiatorTakesOut(env, s, p, blocks);
    FourChannels(p.initiatorXpub, p.intermediaryXpub, p.responderXpub);
    UserStoreFinds(s.initiator, p.All(), p.Users(), p.LeftPair(), UninstallComputed(env, s, p, blocks).i.value);
    RemovedApp(Find(s.initiator, p.All()).value, PassThroughHeld(s, p).value.IdentityHash());
    RemovedApp(Find(s.initiator, p.Users()).value, p.target);
    RemovedAgreement(env, Find(s.initiator, p.LeftPair()).value, p.target, increments, token);
  }

  /** What the responder takes out of stores in sync. */
  lemma ResponderTakesOut(env: Environment, s: Stores, p: UninstallParams, blocks: (int, int, int))
    returns (increments: CoinTransferMap, token: Token)
    requires InSyncAt(s, p.All(), p.Users(), p.LeftPair(), p.RightPair()) && HoldVirtualApp(s, p)
    requires UninstallComputed(env, s, p, blocks).r.Ok?
    ensures var three, users, hub := Find(s.responder, p.All()), Find(s.responder, p.Users()), Find(s.responder, p.RightPair());
            var u := UninstallComputed(env, s, p, blocks).r.value;
            && three.Ok? && users.Ok? && hub.Ok?
            && u.three == three.value.RemoveAppInstance(PassThroughHeld(s, p).value.IdentityHash())
            && u.users == users.value.RemoveAppInstance(p.target)
            && hub.value.RemoveAgreement(env, p.target, increments, token) == Ok(u.hub)
  {
    var store := s.responder;
    ResponderFinds(s, p);
    increments, token := RespondingRemovesIs(env, store, p, blocks.2, Find(store, p.RightPair()).value, Find(store, p.All()).value,
                                             Find(store, p.Users()).value, PassThroughHeld(s, p).value, AppHeld(s, p).value);
  }

  lemma ResponderFinds(s: Stores, p: UninstallParams)
    requires InSyncAt(s, p.All(), p.Users(), p.LeftPair(), p.RightPair()) && HoldVirtualApp(s, p)
    ensures var store, hub := s.responder, Find(s.responder, p.RightPair());
            && hub.Ok? && Find(store, p.All()).Ok? && Find(store, p.Users()).Ok?
            && UserFinds(store, p, hub.value, Find(store, p.All()).value, Find(store, p.Users()).value, PassThroughHeld(s, p).value, AppHeld(s, p).value)
  {
  }

  lemma RespondersGone(env: Environment, s: Stores, p: UninstallParams, blocks: (int, int, int))
    requires CanUninstall(env, s, p, blocks)
    ensures var t := UserStore(s.responder, p.All(), p.Users(), p.RightPair(), UninstallComputed(env, s, p, blocks).r.value);
            && AppGone(s.responder, t, p.All(), PassThroughHeld(s, p).value.IdentityHash())
            && AppGone(s.responder, t, p.Users(), p.target) && AgreementGone(s.responder, t, p.RightPair(), p.target)
  {
    var increments, token := ResponderTakesOut(env, s, p, blocks);
    FourChannels(p.initiatorXpub, p.intermediaryXpub, p.responderXpub);
    UserStoreFinds(s.responder, p.All(), p.Users(), p.RightPair(), UninstallComputed(env, s, p, blocks).r.value);
    RemovedApp(Find(s.responder, p.All()).value, PassThroughHeld(s, p).value.IdentityHash());
    RemovedApp(Find(s.responder, p.Users()).value, p.target);
    RemovedAgreement(env, Find(s.responder, p.RightPair()).value, p.target, increments, token);
  }

  lemma IntermediarysGone(env: Environment, s: Stores, p: UninstallParams, blocks: (int, int, int))
    requires CanUninstall(env, s, p, blocks)
    ensures var t := HubStore(s.intermediary, p.All(), p.LeftPair(), p.RightPair(), UninstallComputed(env, s, p, blocks).m.value);
            && AppGone(s.intermediary, t, p.All(), PassThroughHeld(s, p).value.IdentityHash())
            && AgreementGone(s.intermediary, t, p.LeftPair(), p.target) && AgreementGone(s.intermediary, t, p.RightPair(), p.target)
  {
    var store, pass := s.intermediary, PassThroughHeld(s, p).value;
    FourChannels(p.initiatorXpub, p.intermediaryXpub, p.responderXpub);
    HubStoreFinds(store, p.All(), p.LeftPair(), p.RightPair(), UninstallComputed(env, s, p, blocks).m.value);
    IntermediaryRemoves(env, store, p, blocks.1, Find(store, p.LeftPair()).value, Find(store, p.RightPair()).value, Find(store, p.All()).value, pass);
  }

  /**
   When the three parties persist a virtual uninstall, the virtual app is in no users' channel any more,
   the pass-through in no three-party channel and the agreement in neither hub channel; every other
   app, proposal and agreement and all counters are what they were.
   */
  lemma UninstallRemoves(env: Environment, s: Stores, p: UninstallParams, blocks: (int, int, int))
    requires CanUninstall(env, s, p, blocks)
    ensures var c := UninstallComputed(env, s, p, blocks);
            AllGone(s, Persisted(s, p.All(), p.Users(), p.LeftPair(), p.RightPair(), c.i.value, c.m.value, c.r.value), p,
                    PassThroughHeld(s, p).value.IdentityHash())
  {
    InitiatorsGone(env, s, p, blocks);
    IntermediarysGone(env, s, p, blocks);
    RespondersGone(env, s, p, blocks);
  }

  /** An honest virtual uninstall ends with all three having persisted stores in sync that no longer hold the app. */
  lemma HonestUninstallRemoves(env: Environment, s: Stores, p: UninstallParams, blocks: (int, int, int), steps: seq<Step>)
    requires env.Valid() && ThreePeople(p.initiatorXpub, p.intermediaryXpub, p.responderXpub)
    requires InSyncAt(s, p.All(), p.Users(), p.LeftPair(), p.RightPair()) && Keyed(s.initiator) && Keyed(s.intermediary) && Keyed(s.responder)
    requires HoldVirtualApp(s, p) && Unexpired(s, p, blocks) && OutcomeNow(env, AppHeld(s, p).value) == p.targetOutcome
    requires UninstallComputed(env, s, p, blocks).m.Ok? && Faultless(steps)
    requires var run := RunOf(env, UninstallComputed(env, s, p, blocks), p.target, false, (p.initiatorXpub, p.intermediaryXpub, p.responderXpub));
             Execute(run, steps).Some? && !Enabled(run, Execute(run, steps).value)
    ensures var c := UninstallComputed(env, s, p, blocks);
            var end := Execute(RunOf(env, c, p.target, false, (p.initiatorXpub, p.intermediaryXpub, p.responderXpub)), steps).value;
            && (forall r: Role :: r in end.locals && end.locals[r].persisted)
            && c.i.Ok? && c.m.Ok? && c.r.Ok?
            && var t := Persisted(s, p.All(), p.Users(), p.LeftPair(), p.RightPair(), c.i.value, c.m.value, c.r.value);
               && InSyncAt(t, p.All(), p.Users(), p.LeftPair(), p.RightPair())
               && AllGone(s, t, p, PassThroughHeld(s, p).value.IdentityHash())
  {
    HonestUninstall(env, s, p, blocks, steps);
    UninstallRemoves(env, s, p, blocks);
    var c := UninstallComputed(env, s, p, blocks);
    PersistedInSync(s, c.i.value, c.m.value, c.r.value, p.initiatorXpub, p.intermediaryXpub, p.responderXpub);
  }
}
