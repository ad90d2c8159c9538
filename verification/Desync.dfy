/**
 Two parties share a channel, each with its own store, and run install, uninstall and withdraw one
 after the other. Any run may lose messages and be abandoned by either side at any point. How far can
 the two stores drift apart?
 */
module Desync {
  import opened Models
  import opened OrderedMaps
  import opened FreeBalances
  import opened StateChannels
  import opened DirectTransitions
  import opened Protocols
  import opened Choreography
  import opened Scripts
  import opened ProtocolRuns
  import opened StaticChecks
  import opened Lookup

  datatype Deed =
    | Installs(install: InstallParams)
    | Uninstalls(initiatorXpub: Xpub, responderXpub: Xpub, h: AppIdHash)
    | Withdraws(withdraw: WithdrawParams)
  {
    function Script(): Protocol {
      match this
      case Installs(_) => InstallProtocol()
      case Uninstalls(_, _, _) => UninstallProtocol()
      case Withdraws(_) => WithdrawProtocol()
    }

    function KeyOf(env: Environment, r: Role): Address {
      match this
      case Installs(p) => env.kth(if r == Initiator then p.initiatorXpub else p.responderXpub, 0)
      case Uninstalls(i, q, _) => env.kth(if r == Initiator then i else q, 0)
      case Withdraws(p) => env.kth(if r == Initiator then p.initiatorXpub else p.responderXpub, 0)
    }

    /** The channel a party would persist, computed from the channel it has stored. */
    function Post(env: Environment, c: StateChannel): Result<StateChannel> {
      match this
      case Installs(p) => InstallTransition(env, c, p)
      case Uninstalls(_, _, h) => UninstallTransition(env, c, h)
      case Withdraws(p) => WithdrawTransition(env, c, p)
    }

    /** How many versions the free balance moves ahead. */
    function Versions(): nat {
      if Withdraws? then 4 else 2
    }

    function Final(): Doc {
      if Installs? then FreeBalanceUpdate else UninstallUpdate
    }

    /** The role that persists before it lets the other one persist. */
    function Ahead(): Role {
      if Installs? then Initiator else Responder
    }

    /** The commitment a party signs or checks, from its own stored channel. */
    function View(env: Environment, c: StateChannel, doc: Doc): Digest {
      if doc == Final() then FreeBalanceCommitment(Post(env, c))
      else if doc == ConditionalTx then Conditional(env, if Withdraws? then AddRefundApp(env, c, withdraw) else Post(env, c))
      else if Withdraws? && doc == FreeBalanceUpdate then FreeBalanceCommitment(AddRefundApp(env, c, withdraw))
      else if Withdraws? && doc == Withdrawal then WithdrawalCommitment(env, c, withdraw)
      else OtherDigest(0)
    }
  }

  /** A party that cannot compute the channel signs nothing. */
  function FreeBalanceCommitment(r: Result<StateChannel>): Digest {
    if r.Ok? && r.value.freeBalanceApp.Some? then SetStateCommitment(r.value.freeBalanceApp.value) else OtherDigest(0)
  }

  function Conditional(env: Environment, r: Result<StateChannel>): Digest {
    match r case Ok(c') => ConditionalTransaction(env, c') case Err(_) => OtherDigest(0)
  }

  datatype Stores = Stores(first: StateChannel, second: StateChannel)
  {
    predicate FreeBalancesAgree() {
      first.freeBalanceApp == second.freeBalanceApp
    }

    function Initiators(firstInitiates: bool): StateChannel {
      if firstInitiates then first else second
    }

    function Responders(firstInitiates: bool): StateChannel {
      if firstInitiates then second else first
    }
  }

  /** One run: what is done, who starts it, and the interleaving that happens. */
  datatype Session = Session(deed: Deed, firstInitiates: bool, steps: seq<Step>)
  {
    function RunFrom(env: Environment, s: Stores): Run {
      var i, r := s.Initiators(firstInitiates), s.Responders(firstInitiates);
      Run(deed.Script(),
          (v: Var) => deed.KeyOf(env, v.signer),
          (role, doc) => deed.View(env, if role == Initiator then i else r, doc),
          role => deed.Post(env, if role == Initiator then i else r).Ok?)
    }

    /** The interleaving is possible from these stores; nobody forges messages. */
    ghost predicate Happens(env: Environment, s: Stores) {
      Faithful(steps) && Execute(RunFrom(env, s), steps).Some?
    }

    function Persisted(env: Environment, s: Stores, role: Role): bool {
      match Execute(RunFrom(env, s), steps)
      case None => false
      case Some(end) => role in end.locals && end.locals[role].persisted
    }

    function Keep(env: Environment, s: Stores, role: Role, c: StateChannel): StateChannel {
      match deed.Post(env, c)
      case Ok(c') => if Persisted(env, s, role) then c' else c
      case Err(_) => c
    }

    /** What the stores hold when the run is over. */
    function After(env: Environment, s: Stores): Stores {
      if firstInitiates then Stores(Keep(env, s, Initiator, s.first), Keep(env, s, Responder, s.second))
      else Stores(Keep(env, s, Responder, s.first), Keep(env, s, Initiator, s.second))
    }
  }

  function History(env: Environment, s: Stores, sessions: seq<Session>): Stores {
    if sessions == [] then s else sessions[|sessions| - 1].After(env, History(env, s, sessions[..|sessions| - 1]))
  }

  ghost predicate AllHappen(env: Environment, s: Stores, sessions: seq<Session>) {
    sessions == [] ||
    (&& AllHappen(env, s, sessions[..|sessions| - 1])
     && sessions[|sessions| - 1].Happens(env, History(env, s, sessions[..|sessions| - 1])))
  }

  // ---- Versions -------------------------------------------------------------------------------

  ghost predicate Advances(c: StateChannel, c': StateChannel, n: nat) {
    && c.freeBalanceApp.Some? && c'.freeBalanceApp.Some?
    && c'.freeBalanceApp.value == c.freeBalanceApp.value.(
         latestState := c'.freeBalanceApp.value.latestState,
         latestVersionNumber := Version(c) + n,
         latestTimeout := c.freeBalanceApp.value.defaultTimeout)
  }

  lemma AddActiveAdvances(env: Environment, c: StateChannel, h: AppIdHash, increments: TokenIndexedCoinTransferMap)
    requires c.AddActiveAppAndIncrement(env, h, increments).Ok?
    ensures Advances(c, c.AddActiveAppAndIncrement(env, h, increments).value, 2)
  {
  }

  lemma RemoveActiveAdvances(env: Environment, c: StateChannel, h: AppIdHash, increments: TokenIndexedCoinTransferMap)
    requires c.RemoveActiveAppAndIncrement(env, h, increments).Ok?
    ensures Advances(c, c.RemoveActiveAppAndIncrement(env, h, increments).value, 2)
  {
  }

  lemma InstallAdvances(env: Environment, c: StateChannel, app: AppInstance, decrements: TokenIndexedCoinTransferMap)
    requires c.InstallApp(env, app, decrements).Ok?
    ensures Advances(c, c.InstallApp(env, app, decrements).value, 2)
  {
    var h := app.IdentityHash();
    var proposals := if Has(c.proposals, h) then c.RemoveProposal(h).proposals else c.proposals;
    AddActiveAdvances(env, c.(apps := Set(c.apps, h, app), proposals := proposals), h, FlipTokenIndexed(decrements));
  }

  lemma UninstallAdvances(env: Environment, c: StateChannel, h: AppIdHash, increments: TokenIndexedCoinTransferMap)
    requires c.UninstallApp(env, h, increments).Ok?
    ensures Advances(c, c.UninstallApp(env, h, increments).value, 2)
  {
    RemoveActiveAdvances(env, c.(apps := Delete(c.apps, h)), h, increments);
  }

  /** Whatever the stored channel holds, the new free balance differs from the old only in state, version and timeout. */
  lemma PostAdvances(env: Environment, c: StateChannel, deed: Deed)
    requires deed.Post(env, c).Ok?
    ensures Advances(c, deed.Post(env, c).value, deed.Versions())
  {
    match deed
    case Installs(p) =>
      var i, r := c.FreeBalanceAddrOf(env, p.initiatorXpub).value, c.FreeBalanceAddrOf(env, p.responderXpub).value;
      InstallAdvances(env, c, AppToInstall(p, InterpreterParameters(p, i, r).value), Decrements(p, i, r));
    case Uninstalls(_, _, h) =>
      UninstallAdvances(env, c, h, FreeBalanceIncrements(env, c.GetAppInstance(h).value, None).value);
    case Withdraws(p) =>
      var i := c.FreeBalanceAddrOf(env, p.initiatorXpub).value;
      InstallAdvances(env, c, RefundApp(env, c, p), [(p.token, [(i, p.amount)])]);
      var c1 := AddRefundApp(env, c, p).value;
      AddRefundAppInstalls(env, c, p);
      UninstallAdvances(env, c1, c1.MostRecentlyInstalled().IdentityHash(), []);
  }

  // ---- One run --------------------------------------------------------------------------------

  lemma ScriptFacts(deed: Deed)
    ensures WellFormed(deed.Script()) && forall r: Role :: PersistsCountersigned(deed.Script().Of(r))
    ensures deed.Script().initiator.saves == [Res(deed.Final())] && deed.Script().responder.saves == [Ini(deed.Final())]
    ensures deed.Script().intermediary == NO_ROLE
  {
    EveryProtocolIsWellFormed(deed.Script());
    CountersignedIffNotPropose(deed.Script());
  }

  /** A commitment determines the free balance it was made from, up to what no transition changes. */
  lemma CommitmentIdentifies(c: StateChannel, d: StateChannel, c': StateChannel, d': StateChannel, n: nat)
    requires Advances(c, c', n) && Advances(d, d', n)
    requires SetStateCommitment(c'.freeBalanceApp.value) == SetStateCommitment(d'.freeBalanceApp.value)
    ensures Version(c) == Version(d)
    ensures c.freeBalanceApp == d.freeBalanceApp ==> c'.freeBalanceApp == d'.freeBalanceApp
  {
  }

  /** Whoever persists does so only when both parties compute the same free balance from the same version. */
  lemma PersistingNeedsAgreement(env: Environment, s: Stores, x: Session, role: Role)
    requires x.Happens(env, s) && x.Persisted(env, s, role)
    ensures role != Intermediary
    ensures var i, r := s.Initiators(x.firstInitiates), s.Responders(x.firstInitiates);
            && x.deed.Post(env, i).Ok? && x.deed.Post(env, r).Ok?
            && Advances(i, x.deed.Post(env, i).value, x.deed.Versions())
            && Advances(r, x.deed.Post(env, r).value, x.deed.Versions())
            && SetStateCommitment(x.deed.Post(env, i).value.freeBalanceApp.value)
            == SetStateCommitment(x.deed.Post(env, r).value.freeBalanceApp.value)
  {
    var run, i, r := x.RunFrom(env, s), s.Initiators(x.firstInitiates), s.Responders(x.firstInitiates);
    ScriptFacts(x.deed);
    PersistedComputes(run, x.steps, role);
    var mine, theirs := if role == Initiator then i else r, if role == Initiator then r else i;
    var v := if role == Initiator then Res(x.deed.Final()) else Ini(x.deed.Final());
    PersistedMeansAgreed(run, x.steps, role, v);
    PostAdvances(env, mine, x.deed);
    assert run.view(role, v.doc) == x.deed.View(env, mine, x.deed.Final());
    assert run.view(v.signer, v.doc) == x.deed.View(env, theirs, x.deed.Final());
    PostAdvances(env, theirs, x.deed);
  }

  /** The party that persists second never persists alone. */
  lemma AheadPersistsFirst(env: Environment, s: Stores, x: Session)
    requires x.Happens(env, s)
    ensures x.Persisted(env, s, Other(x.deed.Ahead())) ==> x.Persisted(env, s, x.deed.Ahead())
  {
    var run := x.RunFrom(env, s);
    ScriptFacts(x.deed);
    match x.deed
    case Installs(_) =>
      InstallInitiatorPersistsFirst();
      PersistOrder(run, x.steps, Initiator, Responder, 2);
    case Uninstalls(_, _, _) =>
      UninstallResponderPersistsFirst();
      PersistOrder(run, x.steps, Responder, Initiator, 1);
    case Withdraws(_) =>
      WithdrawResponderPersistsFirst();
      PersistOrder(run, x.steps, Responder, Initiator, 5);
  }

  /** Both sides hold a free balance. */
  ghost predicate BothFunded(s: Stores) {
    s.first.freeBalanceApp.Some? && s.second.freeBalanceApp.Some?
  }

  /** `ahead` is one completed run of the deed past a channel with the free balance of `behind`. */
  ghost predicate OneRunApart(env: Environment, ahead: StateChannel, behind: StateChannel, deed: Deed) {
    && ahead.freeBalanceApp.Some? && behind.freeBalanceApp.Some?
    && Version(ahead) == Version(behind) + deed.Versions()
    && exists c: StateChannel :: c.freeBalanceApp == behind.freeBalanceApp && deed.Post(env, c) == Ok(ahead)
  }

  /** The stores of the run's two roles once it is over. */
  function RoleStore(s: Stores, firstInitiates: bool, role: Role): StateChannel {
    if role == Initiator then s.Initiators(firstInitiates) else s.Responders(firstInitiates)
  }

  /**
   One run from equal free balances leaves them equal, or leaves exactly the role that persists first
   (the initiator of an install, the responder of an uninstall or a withdrawal) one run ahead.
   */
  lemma OneRunFromAgreement(env: Environment, s: Stores, x: Session)
    requires x.Happens(env, s) && BothFunded(s) && s.FreeBalancesAgree()
    ensures var t, q := x.After(env, s), x.deed.Ahead();
            && BothFunded(t)
            && (t.FreeBalancesAgree() || OneRunApart(env, RoleStore(t, x.firstInitiates, q), RoleStore(t, x.firstInitiates, Other(q)), x.deed))
  {
    var q, f := x.deed.Ahead(), x.firstInitiates;
    if x.Persisted(env, s, q) {
      AheadPersisted(env, s, x);
    } else {
      AheadPersistsFirst(env, s, x);
      NothingPersisted(env, s, x);
    }
  }

  function Other(q: Role): Role {
    if q == Initiator then Responder else Initiator
  }

  lemma AheadPersisted(env: Environment, s: Stores, x: Session)
    requires x.Happens(env, s) && BothFunded(s) && s.FreeBalancesAgree() && x.Persisted(env, s, x.deed.Ahead())
    ensures var t, q := x.After(env, s), x.deed.Ahead();
            && BothFunded(t)
            && (if x.Persisted(env, s, Other(q)) then t.FreeBalancesAgree()
                else OneRunApart(env, RoleStore(t, x.firstInitiates, q), RoleStore(t, x.firstInitiates, Other(q)), x.deed))
  {
    var q, f := x.deed.Ahead(), x.firstInitiates;
    PersistingNeedsAgreement(env, s, x, q);
    var t, mine, theirs := x.After(env, s), RoleStore(s, f, q), RoleStore(s, f, Other(q));
    assert RoleStore(t, f, q) == x.deed.Post(env, mine).value;
    assert RoleStore(t, f, Other(q)) == if x.Persisted(env, s, Other(q)) then x.deed.Post(env, theirs).value else theirs;
    CommitmentIdentifies(mine, theirs, x.deed.Post(env, mine).value, x.deed.Post(env, theirs).value, x.deed.Versions());
  }

  lemma NothingPersisted(env: Environment, s: Stores, x: Session)
    requires !x.Persisted(env, s, Initiator) && !x.Persisted(env, s, Responder)
    ensures x.After(env, s) == s
  {
  }

  /** Once the versions differ, a run persists on neither side, whatever it is and whoever starts it. */
  lemma NoRunAcrossVersions(env: Environment, s: Stores, x: Session)
    requires x.Happens(env, s) && BothFunded(s) && Version(s.first) != Version(s.second)
    ensures x.After(env, s) == s
  {
    forall role: Role | role != Intermediary ensures !x.Persisted(env, s, role) {
      if x.Persisted(env, s, role) {
        PersistingNeedsAgreement(env, s, x, role);
        var i, r := s.Initiators(x.firstInitiates), s.Responders(x.firstInitiates);
        CommitmentIdentifies(i, r, x.deed.Post(env, i).value, x.deed.Post(env, r).value, x.deed.Versions());
      }
    }
    NothingPersisted(env, s, x);
  }

  /** Equal free balances, or some earlier run left exactly one side ahead of the other. */
  ghost predicate Bounded(env: Environment, s: Stores) {
    && BothFunded(s)
    && (s.FreeBalancesAgree()
        || exists deed: Deed :: OneRunApart(env, s.first, s.second, deed) || OneRunApart(env, s.second, s.first, deed))
  }

  lemma OneMoreRun(env: Environment, s: Stores, x: Session)
    requires x.Happens(env, s) && Bounded(env, s)
    ensures Bounded(env, x.After(env, s)) && (!s.FreeBalancesAgree() ==> x.After(env, s) == s)
  {
    if s.FreeBalancesAgree() {
      OneRunFromAgreement(env, s, x);
    } else {
      NoRunAcrossVersions(env, s, x);
    }
  }

  /**
   Over every history, with every run abandoned anywhere or not at all, the two stored free balances
   are equal or exactly one run apart; and once they are apart, no later run changes either store.
   */
  lemma {:induction false} DesyncIsBoundedAndFinal(env: Environment, s: Stores, sessions: seq<Session>, n: nat)
    requires AllHappen(env, s, sessions) && BothFunded(s) && s.FreeBalancesAgree() && n <= |sessions|
    ensures Bounded(env, History(env, s, sessions)) && Bounded(env, History(env, s, sessions[..n]))
    ensures !History(env, s, sessions[..n]).FreeBalancesAgree()
            ==> History(env, s, sessions) == History(env, s, sessions[..n])
  {
    if sessions != [] {
      var p, x := sessions[..|sessions| - 1], sessions[|sessions| - 1];
      var t := History(env, s, p);
      if n == |sessions| {
        assert sessions[..n] == sessions;
        DesyncIsBoundedAndFinal(env, s, p, 0);
      } else {
        assert p[..n] == sessions[..n];
        DesyncIsBoundedAndFinal(env, s, p, n);
      }
      OneMoreRun(env, t, x);
    }
  }

  // ---- Undisturbed runs -----------------------------------------------------------------------

  lemma RefundIgnoresKeys(env: Environment, c: StateChannel, keys: seq<Xpub>, p: WithdrawParams)
    requires env.Valid() && multiset(keys) == multiset(c.xpubs)
    ensures AddRefundApp(env, c.(xpubs := keys), p) == Rekeyed(AddRefundApp(env, c, p), keys)
  {
    ChannelIgnoresKeyOrder(env, c, keys, 0);
    if c.FreeBalanceAddrOf(env, p.initiatorXpub).Ok? {
      InstallAppIgnoresKeys(env, c, keys, RefundApp(env, c, p), [(p.token, [(c.FreeBalanceAddrOf(env, p.initiatorXpub).value, p.amount)])]);
    }
  }

  lemma WithdrawIgnoresKeys(env: Environment, c: StateChannel, keys: seq<Xpub>, p: WithdrawParams)
    requires env.Valid() && multiset(keys) == multiset(c.xpubs)
    ensures AddRefundApp(env, c.(xpubs := keys), p) == Rekeyed(AddRefundApp(env, c, p), keys)
    ensures WithdrawTransition(env, c.(xpubs := keys), p) == Rekeyed(WithdrawTransition(env, c, p), keys)
  {
    RefundIgnoresKeys(env, c, keys, p);
    if AddRefundApp(env, c, p).Ok? {
      var c1 := AddRefundApp(env, c, p).value;
      AddRefundAppInstalls(env, c, p);
      UninstallAppIgnoresKeys(env, c1, keys, c1.MostRecentlyInstalled().IdentityHash(), []);
    }
  }

  /** What a party computes does not depend on the order in which its store lists the keys. */
  lemma PostIgnoresKeys(env: Environment, c: StateChannel, keys: seq<Xpub>, deed: Deed)
    requires env.Valid() && multiset(keys) == multiset(c.xpubs)
    ensures deed.Post(env, c.(xpubs := keys)) == Rekeyed(deed.Post(env, c), keys)
  {
    match deed
    case Installs(p) =>
      var i, r := c.FreeBalanceAddrOf(env, p.initiatorXpub), c.FreeBalanceAddrOf(env, p.responderXpub);
      if i.Ok? && r.Ok? && InterpreterParameters(p, i.value, r.value).Ok? {
        InstallAppIgnoresKeys(env, c, keys, AppToInstall(p, InterpreterParameters(p, i.value, r.value).value), Decrements(p, i.value, r.value));
      }
    case Uninstalls(_, _, h) =>
      if c.GetAppInstance(h).Ok? && FreeBalanceIncrements(env, c.GetAppInstance(h).value, None).Ok? {
        UninstallAppIgnoresKeys(env, c, keys, h, FreeBalanceIncrements(env, c.GetAppInstance(h).value, None).value);
      }
    case Withdraws(p) => WithdrawIgnoresKeys(env, c, keys, p);
  }

  lemma CommitmentIgnoresKeys(env: Environment, r: Result<StateChannel>, keys: seq<Xpub>)
    requires env.Valid() && r.Ok? && multiset(keys) == multiset(r.value.xpubs)
    ensures ConditionalTransaction(env, Rekeyed(r, keys).value) == ConditionalTransaction(env, r.value)
  {
    ChannelIgnoresKeyOrder(env, r.value, keys, 0);
  }

  lemma FinalIgnoresKeys(env: Environment, c: StateChannel, keys: seq<Xpub>, deed: Deed)
    requires env.Valid() && multiset(keys) == multiset(c.xpubs)
    ensures FreeBalanceCommitment(deed.Post(env, c.(xpubs := keys))) == FreeBalanceCommitment(deed.Post(env, c))
    ensures deed.Withdraws? ==> FreeBalanceCommitment(AddRefundApp(env, c.(xpubs := keys), deed.withdraw)) == FreeBalanceCommitment(AddRefundApp(env, c, deed.withdraw))
    ensures deed.Withdraws? ==> WithdrawalCommitment(env, c.(xpubs := keys), deed.withdraw) == WithdrawalCommitment(env, c, deed.withdraw)
  {
    PostIgnoresKeys(env, c, keys, deed);
    ChannelIgnoresKeyOrder(env, c, keys, 0);
    if deed.Withdraws? { WithdrawIgnoresKeys(env, c, keys, deed.withdraw); }
  }

  lemma ConditionalIgnoresKeys(env: Environment, c: StateChannel, keys: seq<Xpub>, deed: Deed)
    requires env.Valid() && multiset(keys) == multiset(c.xpubs)
    ensures Conditional(env, deed.Post(env, c.(xpubs := keys))) == Conditional(env, deed.Post(env, c))
  {
    PostIgnoresKeys(env, c, keys, deed);
    PostIgnoresKeys(env, c, c.xpubs, deed);
    if deed.Post(env, c).Ok? { CommitmentIgnoresKeys(env, deed.Post(env, c), keys); }
  }

  lemma RefundConditionalIgnoresKeys(env: Environment, c: StateChannel, keys: seq<Xpub>, p: WithdrawParams)
    requires env.Valid() && multiset(keys) == multiset(c.xpubs)
    ensures Conditional(env, AddRefundApp(env, c.(xpubs := keys), p)) == Conditional(env, AddRefundApp(env, c, p))
  {
    WithdrawIgnoresKeys(env, c, keys, p);
    WithdrawIgnoresKeys(env, c, c.xpubs, p);
    if AddRefundApp(env, c, p).Ok? { CommitmentIgnoresKeys(env, AddRefundApp(env, c, p), keys); }
  }

  lemma WithdrawViewIgnoresKeys(env: Environment, c: StateChannel, keys: seq<Xpub>, deed: Deed, doc: Doc)
    requires env.Valid() && multiset(keys) == multiset(c.xpubs) && deed.Withdraws?
    ensures deed.View(env, c.(xpubs := keys), doc) == deed.View(env, c, doc)
  {
    if doc == ConditionalTx {
      RefundConditionalIgnoresKeys(env, c, keys, deed.withdraw);
    } else {
      FinalIgnoresKeys(env, c, keys, deed);
    }
  }

  lemma ViewIgnoresKeys(env: Environment, c: StateChannel, keys: seq<Xpub>, deed: Deed, doc: Doc)
    requires env.Valid() && multiset(keys) == multiset(c.xpubs)
    ensures deed.View(env, c.(xpubs := keys), doc) == deed.View(env, c, doc)
  {
    if deed.Withdraws? {
      WithdrawViewIgnoresKeys(env, c, keys, deed, doc);
    } else if doc == ConditionalTx {
      ConditionalIgnoresKeys(env, c, keys, deed);
    } else {
      FinalIgnoresKeys(env, c, keys, deed);
    }
  }

  lemma BothSidesKeep(env: Environment, s: Stores, x: Session)
    requires env.Valid() && Alike(s.first, s.second) && x.deed.Post(env, s.first).Ok?
    requires x.Persisted(env, s, Initiator) && x.Persisted(env, s, Responder)
    ensures Ok(x.After(env, s).first) == x.deed.Post(env, s.first) && Alike(x.After(env, s).first, x.After(env, s).second)
  {
    PostIgnoresKeys(env, s.first, s.second.xpubs, x.deed);
    PostIgnoresKeys(env, s.first, s.first.xpubs, x.deed);
  }

  lemma FinishedPersisted(env: Environment, s: Stores, x: Session, end: State)
    requires Execute(x.RunFrom(env, s), x.steps) == Some(end) && Roles(end)
    requires forall r: Role :: Finished(x.RunFrom(env, s), r, end.locals[r])
    ensures x.Persisted(env, s, Initiator) && x.Persisted(env, s, Responder)
  {
    BothRolesAct(x.deed);
    var run := x.RunFrom(env, s);
    assert Finished(run, Initiator, end.locals[Initiator]) && Finished(run, Responder, end.locals[Responder]);
  }

  /**
   From stores that hold the same channel, up to the order of its keys, a run whose deed can be done
   fails no signature check, and when no step is left both sides have persisted what they computed,
   which again is the same channel up to the order of its keys.
   */
  lemma HonestRunPersistsOnBothSides(env: Environment, s: Stores, x: Session)
    requires env.Valid() && Alike(s.first, s.second)
    requires x.deed.Post(env, s.first).Ok? && Faultless(x.steps)
    requires Execute(x.RunFrom(env, s), x.steps).Some?
    ensures var run := x.RunFrom(env, s);
            var end, t := Execute(run, x.steps).value, x.After(env, s);
            && Roles(end) && (forall r: Role :: end.locals[r].phase != Stopped)
            && (!Enabled(run, end) ==> Ok(t.first) == x.deed.Post(env, s.first) && Alike(t.first, t.second))
  {
    var run := x.RunFrom(env, s);
    EveryProtocolIsWellFormed(x.deed.Script());
    ViewsAreShared(env, s, x);
    FaultlessRunCompletes(run, x.steps);
    var end := Execute(run, x.steps).value;
    if !Enabled(run, end) {
      FinishedPersisted(env, s, x, end);
      BothSidesKeep(env, s, x);
    }
  }

  lemma ViewsAreShared(env: Environment, s: Stores, x: Session)
    requires env.Valid() && Alike(s.first, s.second) && x.deed.Post(env, s.first).Ok?
    ensures InSync(x.RunFrom(env, s))
  {
    PostIgnoresKeys(env, s.first, s.second.xpubs, x.deed);
    SharedByAll(x.RunFrom(env, s), env, s, x);
  }

  lemma SharedByAll(run: Run, env: Environment, s: Stores, x: Session)
    requires env.Valid() && Alike(s.first, s.second) && run == x.RunFrom(env, s)
    requires x.deed.Post(env, s.first).Ok? && x.deed.Post(env, s.second).Ok?
    ensures InSync(run)
  {
    forall a: Role, b: Role, doc ensures run.view(a, doc) == run.view(b, doc) {
      SharedView(env, s, x, a, b, doc);
    }
    AgreementIsSync(run);
  }

  lemma ViewOf(env: Environment, s: Stores, x: Session, role: Role, doc: Doc)
    ensures x.RunFrom(env, s).view(role, doc)
         == x.deed.View(env, if role == Initiator then s.Initiators(x.firstInitiates) else s.Responders(x.firstInitiates), doc)
  {
  }

  lemma SharedView(env: Environment, s: Stores, x: Session, a: Role, b: Role, doc: Doc)
    requires env.Valid() && Alike(s.first, s.second)
    ensures x.RunFrom(env, s).view(a, doc) == x.RunFrom(env, s).view(b, doc)
  {
    ViewIgnoresKeys(env, s.first, s.second.xpubs, x.deed, doc);
    ViewOf(env, s, x, a, doc);
    ViewOf(env, s, x, b, doc);
  }

  lemma AgreementIsSync(run: Run)
    requires forall r: Role :: run.computes(r)
    requires forall a: Role, b: Role, doc :: run.view(a, doc) == run.view(b, doc)
    ensures InSync(run)
  {
  }

  lemma BothRolesAct(deed: Deed)
    ensures deed.Script().initiator.code != [] && deed.Script().responder.code != []
  {
  }
}
