/** A virtual uninstall undoes the virtual install: every channel is as it was, but for the free balances and the counters. */
module VirtualRoundTrip {
  import opened OrderedMaps
  import opened Models
  import opened FreeBalances
  import opened StateChannels
  import opened DirectTransitions
  import opened VirtualApps
  import opened VirtualRuns
  import Withdrawals
  import Lookup
  import VirtualRemoval
  import VirtualSignatures

  // ---- Updates touch nothing but the app ------------------------------------------------------

  /** The same channel, except for what is stored under `h`. */
  predicate SameBut(c: StateChannel, d: StateChannel, h: AppIdHash) {
    d == c.(apps := d.apps) && Delete(d.apps, h) == Delete(c.apps, h)
  }

  ghost predicate StoreSameBut(a: Store, b: Store, users: seq<Xpub>, h: AppIdHash) {
    && (forall k :: k in a <==> k in b)
    && (forall k :: k in a && k != multiset(users) ==> b[k] == a[k])
    && (multiset(users) in a ==> SameBut(a[multiset(users)], b[multiset(users)], h))
  }

  lemma SetStateSameBut(c: StateChannel, h: AppIdHash, state: AppState)
    requires c.SetState(h, state).Ok?
    ensures SameBut(c, c.SetState(h, state).value, h)
  {
    Withdrawals.DeleteSet(c.apps, h, Get(c.apps, h).SetState(state).value);
  }

  lemma UpdateTouchesOnlyTheApp(s: Stores, p: UninstallParams, state: AppState)
    ensures var t := UsersUpdated(s, p, state);
            StoreSameBut(s.initiator, t.initiator, p.Users(), p.target) && StoreSameBut(s.responder, t.responder, p.Users(), p.target)
            && t.intermediary == s.intermediary
  {
    var users, theirs := Find(s.initiator, p.Users()), Find(s.responder, p.Users());
    if users.Ok? && users.value.SetState(p.target, state).Ok? { SetStateSameBut(users.value, p.target, state); }
    if theirs.Ok? && theirs.value.SetState(p.target, state).Ok? { SetStateSameBut(theirs.value, p.target, state); }
  }

  lemma {:induction false} UpdatesTouchOnlyTheApp(s: Stores, p: UninstallParams, states: seq<AppState>)
    ensures var t := ManyUpdates(s, p, states);
            StoreSameBut(s.initiator, t.initiator, p.Users(), p.target) && StoreSameBut(s.responder, t.responder, p.Users(), p.target)
            && t.intermediary == s.intermediary
  {
    if states != [] {
      UpdatesTouchOnlyTheApp(s, p, states[..|states| - 1]);
      UpdateTouchesOnlyTheApp(ManyUpdates(s, p, states[..|states| - 1]), p, states[|states| - 1]);
    }
  }

  // ---- What is added and taken out again ------------------------------------------------------

  lemma AddedAndRemoved<V>(m: Entries<AppIdHash, V>, h: AppIdHash, v: V)
    requires !Has(m, h)
    ensures Delete(Set(m, h, v), h) == m
  {
    Withdrawals.DeleteSet(m, h, v);
  }

  /** The channel as it was, with its counter one higher. */
  predicate BackWithNumber(c: StateChannel, d: StateChannel) {
    d == c.(numProposedApps := c.numProposedApps + 1)
  }

  /** The channel as it was, except for its free balance. */
  predicate BackWithFreeBalance(c: StateChannel, d: StateChannel) {
    d == c.(freeBalanceApp := d.freeBalanceApp)
  }

  lemma AppComesAndGoes(c: StateChannel, app: AppInstance, d: StateChannel)
    requires !Has(c.apps, app.IdentityHash()) && SameBut(c.AddAppInstance(app), d, app.IdentityHash())
    ensures BackWithNumber(c, d.RemoveAppInstance(app.IdentityHash()))
  {
    AddedAndRemoved(c.apps, app.IdentityHash(), app);
  }

  lemma AgreementComesAndGoes(env: Environment, c: StateChannel, h: AppIdHash, agreement: Agreement, decrements: CoinTransferMap, token: Token,
                              increments: CoinTransferMap, token': Token)
    requires !Has(c.agreements, h) && c.AddAgreement(env, h, agreement, decrements, token).Ok?
    requires c.AddAgreement(env, h, agreement, decrements, token).value.RemoveAgreement(env, h, increments, token').Ok?
    ensures BackWithFreeBalance(c, c.AddAgreement(env, h, agreement, decrements, token).value.RemoveAgreement(env, h, increments, token').value)
  {
    var d := c.AddAgreement(env, h, agreement, decrements, token).value;
    ActivatingChangesOnlyFreeBalance(env, c.(agreements := Set(c.agreements, h, agreement)), h, [(token, Flip(decrements))]);
    VirtualRemoval.DeactivatingChangesOnlyFreeBalance(env, d.(agreements := Delete(d.agreements, h)), h, [(token', increments)]);
    AddedAndRemoved(c.agreements, h, agreement);
  }

  // ---- There and back -------------------------------------------------------------------------

  /** The stores after the install and the updates, and the uninstall that proposes what the app then computes. */
  function Updated(env: Environment, s: Stores, p: VirtualParams, states: seq<AppState>): Stores {
    ManyUpdates(Installed(env, s, p), Undo(env, p, FixedOutcome(0)), states)
  }

  ghost predicate CanInstall(env: Environment, s: Stores, p: VirtualParams, states: seq<AppState>) {
    && InSyncAt(s, p.All(), p.Users(), p.LeftPair(), p.RightPair())
    && ThreePeople(p.initiatorXpub, p.intermediaryXpub, p.responderXpub)
    && p.outcomeType == SingleAssetTwoPartyCoinTransfer
    && !p.initialState.RefundState? && (forall state :: state in states ==> !state.RefundState?)
    && InstallForIntermediary(env, s.intermediary, p, Announced(env, p).0, Announced(env, p).1).Ok?
  }

  /** No app or agreement is stored under the hashes that the virtual app and its pass-through get. */
  ghost predicate Unused(env: Environment, s: Stores, p: VirtualParams) {
    var h, pass := Announced(env, p).0, PassThroughFor(env, s.intermediary, p);
    && pass.Ok? && !Has(GetOrCreate(env, s.intermediary, p.All()).apps, pass.value.IdentityHash())
    && !Has(GetOrCreate(env, s.initiator, p.Users()).apps, h)
    && Find(s.intermediary, p.LeftPair()).Ok? && !Has(Find(s.intermediary, p.LeftPair()).value.agreements, h)
    && Find(s.intermediary, p.RightPair()).Ok? && !Has(Find(s.intermediary, p.RightPair()).value.agreements, h)
  }

  lemma FoundAfter(a: Store, b: Store, users: seq<Xpub>, h: AppIdHash, people: seq<Xpub>)
    requires StoreSameBut(a, b, users, h)
    ensures multiset(people) != multiset(users) ==> Find(b, people) == Find(a, people)
    ensures Find(a, users).Ok? ==> Find(b, users).Ok? && SameBut(Find(a, users).value, Find(b, users).value, h)
  {
  }

  /** A user's channels, after the install and any updates. */
  ghost predicate UserHas(store: Store, u: UserUpdate, all: seq<Xpub>, users: seq<Xpub>, hub: seq<Xpub>, h: AppIdHash) {
    && Find(store, all) == Ok(u.three) && Find(store, hub) == Ok(u.hub)
    && Find(store, users).Ok? && SameBut(u.users, Find(store, users).value, h)
  }

  ghost predicate HubHas(store: Store, m: HubUpdate, all: seq<Xpub>, left: seq<Xpub>, right: seq<Xpub>) {
    Find(store, all) == Ok(m.three) && Find(store, left) == Ok(m.left) && Find(store, right) == Ok(m.right)
  }

  lemma InstalledIs(env: Environment, s: Stores, p: VirtualParams)
    requires InSyncAt(s, p.All(), p.Users(), p.LeftPair(), p.RightPair())
    requires InstallForIntermediary(env, s.intermediary, p, Announced(env, p).0, Announced(env, p).1).Ok?
    ensures var c := InstallComputed(env, s, p);
            && ViewsAgree(c.i, c.m, c.r)
            && Installed(env, s, p) == Persisted(s, p.All(), p.Users(), p.LeftPair(), p.RightPair(), c.i.value, c.m.value, c.r.value)
  {
    InstallViewsAgree(env, s, p);
  }

  /** What the stores hold before the uninstall, channel by channel. */
  lemma HeldBeforeUninstall(env: Environment, s: Stores, p: VirtualParams, states: seq<AppState>)
    requires CanInstall(env, s, p, states)
    ensures var c, t, h := InstallComputed(env, s, p), Updated(env, s, p, states), Announced(env, p).0;
            && ViewsAgree(c.i, c.m, c.r)
            && UserHas(t.initiator, c.i.value, p.All(), p.Users(), p.LeftPair(), h)
            && HubHas(t.intermediary, c.m.value, p.All(), p.LeftPair(), p.RightPair())
            && UserHas(t.responder, c.r.value, p.All(), p.Users(), p.RightPair(), h)
  {
    var c, q, s1 := InstallComputed(env, s, p), Undo(env, p, FixedOutcome(0)), Installed(env, s, p);
    var t := Updated(env, s, p, states);
    FourChannels(p.initiatorXpub, p.intermediaryXpub, p.responderXpub);
    InstalledIs(env, s, p);
    UpdatesTouchOnlyTheApp(s1, q, states);
    VirtualRemoval.UserStoreFinds(s.initiator, p.All(), p.Users(), p.LeftPair(), c.i.value);
    VirtualRemoval.HubStoreFinds(s.intermediary, p.All(), p.LeftPair(), p.RightPair(), c.m.value);
    VirtualRemoval.UserStoreFinds(s.responder, p.All(), p.Users(), p.RightPair(), c.r.value);
    FoundAfter(s1.initiator, t.initiator, p.Users(), q.target, p.All());
    FoundAfter(s1.initiator, t.initiator, p.Users(), q.target, p.LeftPair());
    FoundAfter(s1.responder, t.responder, p.Users(), q.target, p.All());
    FoundAfter(s1.responder, t.responder, p.Users(), q.target, p.RightPair());
  }

  /** The stores hold the app whatever the outcome that is proposed. */
  lemma StillHeld(env: Environment, s: Stores, p: VirtualParams, states: seq<AppState>, outcome: Outcome)
    requires CanInstall(env, s, p, states)
    ensures var t, q := Updated(env, s, p, states), Undo(env, p, outcome);
            && InSyncAt(t, p.All(), p.Users(), p.LeftPair(), p.RightPair()) && HoldVirtualApp(t, q)
            && PassThroughHeld(t, q) == Ok(InstallComputed(env, s, p).m.value.passThrough)
  {
    var q0 := Undo(env, p, FixedOutcome(0));
    InstallIsHeld(env, s, p, FixedOutcome(0));
    InstalledPassThrough(env, s, p);
    InstalledIs(env, s, p);
    UpdatesAreHeld(Installed(env, s, p), q0, states);
    SameHeld(Updated(env, s, p, states), q0, Undo(env, p, outcome));
  }

  // ---- Each party is back ---------------------------------------------------------------------

  /** What the parties compute for the uninstall. */
  function Undone(env: Environment, s: Stores, p: VirtualParams, states: seq<AppState>, outcome: Outcome, blocks: (int, int, int)): Computed {
    UninstallComputed(env, Updated(env, s, p, states), Undo(env, p, outcome), blocks)
  }

  lemma InitiatorUndoes(env: Environment, s: Stores, p: VirtualParams, states: seq<AppState>, outcome: Outcome, blocks: (int, int, int))
    returns (users: StateChannel, increments: CoinTransferMap, token: Token)
    requires CanInstall(env, s, p, states) && Undone(env, s, p, states, outcome, blocks).i.Ok?
    ensures var h, c, u := Announced(env, p).0, InstallComputed(env, s, p), Undone(env, s, p, states, outcome, blocks).i.value;
            && ViewsAgree(c.i, c.m, c.r) && SameBut(c.i.value.users, users, h)
            && u.three == c.i.value.three.RemoveAppInstance(c.i.value.passThrough.IdentityHash()) && u.users == users.RemoveAppInstance(h)
            && c.i.value.hub.RemoveAgreement(env, h, increments, token) == Ok(u.hub)
  {
    var t, q := Updated(env, s, p, states), Undo(env, p, outcome);
    HeldBeforeUninstall(env, s, p, states);
    StillHeld(env, s, p, states, outcome);
    users := Find(t.initiator, p.Users()).value;
    increments, token := VirtualRemoval.InitiatorTakesOut(env, t, q, blocks);
  }

  lemma InitiatorIsBack(env: Environment, s: Stores, p: VirtualParams, states: seq<AppState>, outcome: Outcome, blocks: (int, int, int))
    requires CanInstall(env, s, p, states) && Unused(env, s, p) && Undone(env, s, p, states, outcome, blocks).i.Ok?
    ensures var u := Undone(env, s, p, states, outcome, blocks).i.value;
            && BackWithNumber(GetOrCreate(env, s.initiator, p.All()), u.three)
            && BackWithNumber(GetOrCreate(env, s.initiator, p.Users()), u.users)
            && Find(s.initiator, p.LeftPair()).Ok? && BackWithFreeBalance(Find(s.initiator, p.LeftPair()).value, u.hub)
  {
    var users, increments, token := InitiatorUndoes(env, s, p, states, outcome, blocks);
    UnusedEverywhere(env, s, p);
    InitiatorsChannels(env, s.initiator, p);
    var pass := PassThroughFor(env, s.initiator, p).value;
    AppComesAndGoes(GetOrCreate(env, s.initiator, p.All()), pass, GetOrCreate(env, s.initiator, p.All()).AddAppInstance(pass));
    AppComesAndGoes(GetOrCreate(env, s.initiator, p.Users()), ConstructVirtualApp(env, p).value, users);
    AgreementComesAndGoes(env, Find(s.initiator, p.LeftPair()).value, Announced(env, p).0, LeftAgreementOf(env, p, pass.IdentityHash()),
                          LeftDecrements(env, p), p.token, increments, token);
  }

  lemma InitiatorsChannels(env: Environment, store: Store, p: VirtualParams)
    requires InstallForInitiating(env, store, p).Ok?
    ensures var u, pass, app := InstallForInitiating(env, store, p).value, PassThroughFor(env, store, p), ConstructVirtualApp(env, p);
            && pass.Ok? && app.Ok? && app.value.IdentityHash() == Announced(env, p).0 && u.passThrough == pass.value
            && u.three == GetOrCreate(env, store, p.All()).AddAppInstance(pass.value)
            && u.users == GetOrCreate(env, store, p.Users()).AddAppInstance(app.value)
            && Find(store, p.LeftPair()).Ok?
            && Find(store, p.LeftPair()).value.AddAgreement(env, Announced(env, p).0, LeftAgreementOf(env, p, pass.value.IdentityHash()),
                                                       LeftDecrements(env, p), p.token) == Ok(u.hub)
  {
    InitiatingIs(env, store, p);
    VirtualSignatures.LeftIsAdded(env, store, p, PassThroughFor(env, store, p).value);
  }

  lemma ResponderUndoes(env: Environment, s: Stores, p: VirtualParams, states: seq<AppState>, outcome: Outcome, blocks: (int, int, int))
    returns (users: StateChannel, increments: CoinTransferMap, token: Token)
    requires CanInstall(env, s, p, states) && Undone(env, s, p, states, outcome, blocks).r.Ok?
    ensures var h, c, u := Announced(env, p).0, InstallComputed(env, s, p), Undone(env, s, p, states, outcome, blocks).r.value;
            && ViewsAgree(c.i, c.m, c.r) && SameBut(c.r.value.users, users, h)
            && u.three == c.r.value.three.RemoveAppInstance(c.r.value.passThrough.IdentityHash()) && u.users == users.RemoveAppInstance(h)
            && c.r.value.hub.RemoveAgreement(env, h, increments, token) == Ok(u.hub)
  {
    var t, q := Updated(env, s, p, states), Undo(env, p, outcome);
    HeldBeforeUninstall(env, s, p, states);
    StillHeld(env, s, p, states, outcome);
    users := Find(t.responder, p.Users()).value;
    increments, token := VirtualRemoval.ResponderTakesOut(env, t, q, blocks);
  }

  lemma ResponderIsBack(env: Environment, s: Stores, p: VirtualParams, states: seq<AppState>, outcome: Outcome, blocks: (int, int, int))
    requires CanInstall(env, s, p, states) && Unused(env, s, p) && Undone(env, s, p, states, outcome, blocks).r.Ok?
    ensures var u := Undone(env, s, p, states, outcome, blocks).r.value;
            && BackWithNumber(GetOrCreate(env, s.responder, p.All()), u.three)
            && BackWithNumber(GetOrCreate(env, s.responder, p.Users()), u.users)
            && Find(s.responder, p.RightPair()).Ok? && BackWithFreeBalance(Find(s.responder, p.RightPair()).value, u.hub)
  {
    var users, increments, token := ResponderUndoes(env, s, p, states, outcome, blocks);
    UnusedEverywhere(env, s, p);
    RespondersChannels(env, s.responder, p);
    var pass := PassThroughFor(env, s.responder, p).value;
    AppComesAndGoes(GetOrCreate(env, s.responder, p.All()), pass, GetOrCreate(env, s.responder, p.All()).AddAppInstance(pass));
    AppComesAndGoes(GetOrCreate(env, s.responder, p.Users()), ConstructVirtualApp(env, p).value, users);
    AgreementComesAndGoes(env, Find(s.responder, p.RightPair()).value, Announced(env, p).0, RightAgreementOf(env, p, pass.IdentityHash()),
                          RightDecrements(env, p), p.token, increments, token);
  }

  lemma RespondersChannels(env: Environment, store: Store, p: VirtualParams)
    requires InstallForResponding(env, store, p).Ok?
    ensures var u, pass, app := InstallForResponding(env, store, p).value, PassThroughFor(env, store, p), ConstructVirtualApp(env, p);
            && pass.Ok? && app.Ok? && app.value.IdentityHash() == Announced(env, p).0 && u.passThrough == pass.value
            && u.three == GetOrCreate(env, store, p.All()).AddAppInstance(pass.value)
            && u.users == GetOrCreate(env, store, p.Users()).AddAppInstance(app.value)
            && Find(store, p.RightPair()).Ok?
            && Find(store, p.RightPair()).value.AddAgreement(env, Announced(env, p).0, RightAgreementOf(env, p, pass.value.IdentityHash()),
                                                       RightDecrements(env, p), p.token) == Ok(u.hub)
  {
    RespondingIs(env, store, p);
    VirtualSignatures.RightIsAdded(env, store, p, PassThroughFor(env, store, p).value);
  }

  /** What one of the stores in sync does not hold, none does. */
  lemma UnusedEverywhere(env: Environment, s: Stores, p: VirtualParams)
    requires InSyncAt(s, p.All(), p.Users(), p.LeftPair(), p.RightPair()) && Unused(env, s, p)
    ensures var h, pass := Announced(env, p).0, PassThroughFor(env, s.intermediary, p);
            && PassThroughFor(env, s.initiator, p) == pass && PassThroughFor(env, s.responder, p) == pass
            && !Has(GetOrCreate(env, s.initiator, p.All()).apps, pass.value.IdentityHash())
            && !Has(GetOrCreate(env, s.responder, p.All()).apps, pass.value.IdentityHash())
            && !Has(GetOrCreate(env, s.responder, p.Users()).apps, h)
            && Find(s.initiator, p.LeftPair()).Ok? && !Has(Find(s.initiator, p.LeftPair()).value.agreements, h)
            && Find(s.responder, p.RightPair()).Ok? && !Has(Find(s.responder, p.RightPair()).value.agreements, h)
  {
    PassThroughsEqual(env, s.initiator, s.intermediary, p);
    PassThroughsEqual(env, s.intermediary, s.responder, p);
    GetOrCreateAlike(env, s.initiator, s.intermediary, p.All());
    GetOrCreateAlike(env, s.intermediary, s.responder, p.All());
    GetOrCreateAlike(env, s.initiator, s.responder, p.Users());
  }

  lemma IntermediaryIsBack(env: Environment, s: Stores, p: VirtualParams, states: seq<AppState>, outcome: Outcome, blocks: (int, int, int))
    requires CanInstall(env, s, p, states) && Unused(env, s, p) && Undone(env, s, p, states, outcome, blocks).m.Ok?
    ensures var m := Undone(env, s, p, states, outcome, blocks).m.value;
            && BackWithNumber(GetOrCreate(env, s.intermediary, p.All()), m.three)
            && BackWithFreeBalance(Find(s.intermediary, p.LeftPair()).value, m.left)
            && BackWithFreeBalance(Find(s.intermediary, p.RightPair()).value, m.right)
  {
    var t, q, m := Updated(env, s, p, states), Undo(env, p, outcome), InstallComputed(env, s, p).m.value;
    HeldBeforeUninstall(env, s, p, states);
    StillHeld(env, s, p, states, outcome);
    var increments, token := VirtualRemoval.IntermediaryRemovesIs(env, t.intermediary, q, blocks.1, m.left, m.right, m.three, m.passThrough);
    IntermediarysChannels(env, s.intermediary, p);
    var h, pass := Announced(env, p).0, m.passThrough;
    AppComesAndGoes(GetOrCreate(env, s.intermediary, p.All()), pass, m.three);
    AgreementComesAndGoes(env, Find(s.intermediary, p.LeftPair()).value, h, LeftAgreementOf(env, p, pass.IdentityHash()),
                          LeftDecrements(env, p), p.token, increments.0, token);
    AgreementComesAndGoes(env, Find(s.intermediary, p.RightPair()).value, h, RightAgreementOf(env, p, pass.IdentityHash()),
                          RightDecrements(env, p), p.token, increments.1, token);
  }

  lemma IntermediarysChannels(env: Environment, store: Store, p: VirtualParams)
    requires InstallForIntermediary(env, store, p, Announced(env, p).0, Announced(env, p).1).Ok?
    ensures var m := InstallForIntermediary(env, store, p, Announced(env, p).0, Announced(env, p).1).value;
            && PassThroughFor(env, store, p) == Ok(m.passThrough)
            && m.three == GetOrCreate(env, store, p.All()).AddAppInstance(m.passThrough)
            && Find(store, p.LeftPair()).Ok? && Find(store, p.RightPair()).Ok?
            && Find(store, p.LeftPair()).value.AddAgreement(env, Announced(env, p).0, LeftAgreementOf(env, p, m.passThrough.IdentityHash()),
                                                         LeftDecrements(env, p), p.token) == Ok(m.left)
            && Find(store, p.RightPair()).value.AddAgreement(env, Announced(env, p).0, RightAgreementOf(env, p, m.passThrough.IdentityHash()),
                                                          RightDecrements(env, p), p.token) == Ok(m.right)
  {
    IntermediaryIs(env, store, p);
    VirtualSignatures.LeftIsAdded(env, store, p, PassThroughFor(env, store, p).value);
    VirtualSignatures.RightIsAdded(env, store, p, PassThroughFor(env, store, p).value);
  }

  /**
   From stores in sync, through a virtual install, any updates of the app and its uninstall: each of the channels
   that the three parties share is as it was before the install, except that the counters of the
   users' and the three-party channel are one higher and the free balances of the hub channels have changed.
   */
  lemma UninstallUndoesInstall(env: Environment, s: Stores, p: VirtualParams, states: seq<AppState>, outcome: Outcome, blocks: (int, int, int))
    requires CanInstall(env, s, p, states) && Unused(env, s, p)
    requires var c := Undone(env, s, p, states, outcome, blocks); c.i.Ok? && c.m.Ok? && c.r.Ok?
    ensures var c := Undone(env, s, p, states, outcome, blocks);
            && BackWithNumber(GetOrCreate(env, s.initiator, p.All()), c.i.value.three)
            && BackWithNumber(GetOrCreate(env, s.intermediary, p.All()), c.m.value.three)
            && BackWithNumber(GetOrCreate(env, s.responder, p.All()), c.r.value.three)
            && BackWithNumber(GetOrCreate(env, s.initiator, p.Users()), c.i.value.users)
            && BackWithNumber(GetOrCreate(env, s.responder, p.Users()), c.r.value.users)
            && Find(s.initiator, p.LeftPair()).Ok? && BackWithFreeBalance(Find(s.initiator, p.LeftPair()).value, c.i.value.hub)
            && BackWithFreeBalance(Find(s.intermediary, p.LeftPair()).value, c.m.value.left)
            && BackWithFreeBalance(Find(s.intermediary, p.RightPair()).value, c.m.value.right)
            && Find(s.responder, p.RightPair()).Ok? && BackWithFreeBalance(Find(s.responder, p.RightPair()).value, c.r.value.hub)
  {
    InitiatorIsBack(env, s, p, states, outcome, blocks);
    IntermediaryIsBack(env, s, p, states, outcome, blocks);
    ResponderIsBack(env, s, p, states, outcome, blocks);
  }
}
