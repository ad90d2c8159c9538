/** What becomes of a channel's funds over whole runs: what is free, what is locked, what is withdrawn, and what is lost. */
module Conservation {
  import opened OrderedMaps
  import opened Models
  import opened FreeBalances
  import opened StateChannels
  import opened DirectTransitions
  import opened Withdrawals
  import opened ChannelRuns

  /** A ghost ledger for one token: what each active app has locked, and what has been withdrawn. */
  datatype Ledger = Ledger(locked: Entries<AppIdHash, int>, withdrawn: int)

  /** A withdrawal removes whatever is stored under the refund app's hash, and with it what that has locked. */
  ghost function Booked(env: Environment, c: StateChannel, ledger: Ledger, op: Op, t: Token): Ledger {
    if Apply(env, c, op).Err? then ledger else
      match op
      case Install(h) => ledger.(locked := Set(ledger.locked, h, Sum(InstallDecrements(env, c, h), t)))
      case Uninstall(h, _) => ledger.(locked := Delete(ledger.locked, h))
      case AddAgreement(users, seqNo, _, decrements, token) =>
        ledger.(locked := Set(ledger.locked, VirtualHash(env, users, seqNo), if token == t then Total(decrements) else 0))
      case RemoveAgreement(h, _, _) => ledger.(locked := Delete(ledger.locked, h))
      case Withdraw(p) =>
        Ledger(Delete(ledger.locked, RefundHash(env, c)), ledger.withdrawn + if p.token == t then p.amount else 0)
      case _ => ledger
  }

  /**
   What a transition makes disappear: what was locked and is not paid back, what a second agreement for
   the same target overwrites, and what the app that a withdrawal drops had locked.
   */
  ghost function Lost(env: Environment, c: StateChannel, ledger: Ledger, op: Op, t: Token): int {
    if Apply(env, c, op).Err? then 0 else
      match op
      case Uninstall(h, payout) => GetOr(ledger.locked, h, 0) - Sum(payout, t)
      case AddAgreement(users, seqNo, _, _, _) => GetOr(ledger.locked, VirtualHash(env, users, seqNo), 0)
      case RemoveAgreement(h, increments, token) => GetOr(ledger.locked, h, 0) - if token == t then Total(increments) else 0
      case Withdraw(_) => GetOr(ledger.locked, RefundHash(env, c), 0)
      case _ => 0
  }

  ghost function Books(env: Environment, c: StateChannel, ops: seq<Op>, t: Token, start: Ledger): Ledger {
    if ops == [] then start else
      var p := ops[..|ops| - 1];
      Booked(env, Run(env, c, p), Books(env, c, p, t, start), ops[|ops| - 1], t)
  }

  ghost function TotalLost(env: Environment, c: StateChannel, ops: seq<Op>, t: Token, start: Ledger): int {
    if ops == [] then 0 else
      var p := ops[..|ops| - 1];
      TotalLost(env, c, p, t, start) + Lost(env, Run(env, c, p), Books(env, c, p, t, start), ops[|ops| - 1], t)
  }

  /** Everything the channel accounts for: free, locked and withdrawn. */
  ghost function Accounted(env: Environment, c: StateChannel, ledger: Ledger, t: Token): int {
    HeldBy(env, c, t) + Total(ledger.locked) + ledger.withdrawn
  }

  /** Only active apps have funds locked. */
  ghost predicate LedgerFits(c: StateChannel, ledger: Ledger) {
    Unique(ledger.locked) && forall h :: Has(ledger.locked, h) ==> Has(c.apps, h) || Has(c.agreements, h)
  }

  lemma SingleTokenSum(token: Token, m: CoinTransferMap, t: Token)
    ensures Sum([(token, m)], t) == if t == token then Total(m) else 0
    ensures Unique(m) ==> UniqueIncrements([(token, m)])
  {
    if t == token { IndexIs([(token, m)], t, 0); }
  }

  lemma InstallHeld(env: Environment, c: StateChannel, h: AppIdHash, t: Token)
    requires ChannelOk(env, c) && Has(c.proposals, h) && Legal(env, c, Install(h)) && Apply(env, c, Install(h)).Ok?
    ensures HeldBy(env, Apply(env, c, Install(h)).value, t) == HeldBy(env, c, t) - Sum(InstallDecrements(env, c, h), t)
  {
    var d := InstallDecrements(env, c, h);
    InstallFb(env, c, h);
    InstallDecrementsUnique(env, c, h);
    FlipUnique(d);
    FlipTokens(d, t, 0);
    IncrementEffect(Fb(env, c), FlipTokenIndexed(d), t, 0);
  }

  lemma NewAppHasNothingLocked(env: Environment, c: StateChannel, ledger: Ledger, h: AppIdHash)
    requires ChannelOk(env, c) && LedgerFits(c, ledger) && Has(c.proposals, h)
    ensures !Has(ledger.locked, h)
  {
    OwnAppsAreNotForeign(env, c, h);
  }

  lemma InstallAccounts(env: Environment, c: StateChannel, ledger: Ledger, h: AppIdHash, t: Token)
    requires ChannelOk(env, c) && Legal(env, c, Install(h)) && LedgerFits(c, ledger) && Apply(env, c, Install(h)).Ok?
    ensures Accounts(env, c, ledger, Install(h), t)
  {
    InstallFb(env, c, h);
    InstallHeld(env, c, h, t);
    NewAppHasNothingLocked(env, c, ledger, h);
    OpenedAppAccount(env, c, Apply(env, c, Install(h)).value, ledger, h, Sum(InstallDecrements(env, c, h), t), InstalledApp(env, c, h).value, t);
    InstallIsBooked(env, c, ledger, h, t);
  }

  lemma InstallIsBooked(env: Environment, c: StateChannel, ledger: Ledger, h: AppIdHash, t: Token)
    requires Apply(env, c, Install(h)).Ok?
    ensures Has(c.proposals, h)
    ensures Booked(env, c, ledger, Install(h), t) == ledger.(locked := Set(ledger.locked, h, Sum(InstallDecrements(env, c, h), t)))
    ensures Lost(env, c, ledger, Install(h), t) == 0
  {
  }

  lemma OpenedAppAccount(env: Environment, c: StateChannel, c': StateChannel, ledger: Ledger, h: AppIdHash, sum: int, app: AppInstance, t: Token)
    requires LedgerFits(c, ledger) && !Has(ledger.locked, h)
    requires c'.apps == Set(c.apps, h, app) && c'.agreements == c.agreements
    requires HeldBy(env, c', t) == HeldBy(env, c, t) - sum
    ensures var l' := ledger.(locked := Set(ledger.locked, h, sum));
            LedgerFits(c', l') && Accounted(env, c', l', t) == Accounted(env, c, ledger, t)
  {
    TotalSet(ledger.locked, h, sum);
    SetFits(ledger.locked, c.apps, h, sum, app);
  }

  lemma InstallDecrementsUnique(env: Environment, c: StateChannel, h: AppIdHash)
    requires Has(c.proposals, h)
    ensures UniqueIncrements(InstallDecrements(env, c, h))
  {
  }

  lemma DeleteFits<V>(locked: Entries<AppIdHash, int>, m: Entries<AppIdHash, V>, h: AppIdHash)
    requires Unique(locked) && Unique(m)
    ensures forall k :: Has(Delete(locked, h), k) <==> k != h && Has(locked, k)
    ensures forall k :: Has(Delete(m, h), k) <==> k != h && Has(m, k)
  {
    forall k ensures Has(Delete(locked, h), k) <==> k != h && Has(locked, k) { DeleteGet(locked, h, k); }
    forall k ensures Has(Delete(m, h), k) <==> k != h && Has(m, k) { DeleteGet(m, h, k); }
  }

  /** Closing the account of a hash that is no longer active. */
  lemma ClosedAccount(env: Environment, c: StateChannel, c': StateChannel, ledger: Ledger, h: AppIdHash, withdrawn: int, t: Token)
    requires LedgerFits(c, ledger) && Unique(c.apps) && Unique(c.agreements)
    requires c'.apps == Delete(c.apps, h) || c'.apps == c.apps
    requires c'.agreements == Delete(c.agreements, h) || c'.agreements == c.agreements
    ensures var l' := Ledger(Delete(ledger.locked, h), ledger.withdrawn + withdrawn);
            && LedgerFits(c', l')
            && Accounted(env, c', l', t) - Accounted(env, c, ledger, t)
            == HeldBy(env, c', t) - HeldBy(env, c, t) - GetOr(ledger.locked, h, 0) + withdrawn
  {
    TotalDelete(ledger.locked, h);
    DeleteFits(ledger.locked, c.apps, h);
    DeleteFits(ledger.locked, c.agreements, h);
  }

  lemma UninstallHeld(env: Environment, c: StateChannel, h: AppIdHash, payout: TokenIndexedCoinTransferMap, t: Token)
    requires ChannelOk(env, c) && Legal(env, c, Uninstall(h, payout)) && c.UninstallApp(env, h, payout).Ok?
    ensures var c' := c.UninstallApp(env, h, payout).value;
            && HeldBy(env, c', t) == HeldBy(env, c, t) + Sum(payout, t)
            && c'.apps == Delete(c.apps, h) && c'.agreements == c.agreements
  {
    var fb1 := Fb(env, c).(activeApps := RemoveActive(Fb(env, c).activeApps, h));
    UninstallAppEffect(env, c, Fb(env, c), h, payout);
    HoldsIsDirect(env, c.UninstallApp(env, h, payout).value, Incremented(fb1, payout).value);
    IncrementEffect(fb1, payout, t, 0);
  }

  lemma UninstallAccounts(env: Environment, c: StateChannel, ledger: Ledger, h: AppIdHash, payout: TokenIndexedCoinTransferMap, t: Token)
    requires ChannelOk(env, c) && Legal(env, c, Uninstall(h, payout)) && LedgerFits(c, ledger)
    requires Apply(env, c, Uninstall(h, payout)).Ok?
    ensures Accounts(env, c, ledger, Uninstall(h, payout), t)
  {
    UninstallHeld(env, c, h, payout, t);
    ClosedAccount(env, c, c.UninstallApp(env, h, payout).value, ledger, h, 0, t);
    UninstallIsBooked(env, c, ledger, h, payout, t);
  }

  lemma UninstallIsBooked(env: Environment, c: StateChannel, ledger: Ledger, h: AppIdHash, payout: TokenIndexedCoinTransferMap, t: Token)
    requires Apply(env, c, Uninstall(h, payout)).Ok?
    ensures c.UninstallApp(env, h, payout) == Ok(After(env, c, Uninstall(h, payout)))
    ensures Booked(env, c, ledger, Uninstall(h, payout), t) == Ledger(Delete(ledger.locked, h), ledger.withdrawn + 0)
    ensures Lost(env, c, ledger, Uninstall(h, payout), t) == GetOr(ledger.locked, h, 0) - Sum(payout, t)
  {
  }

  /** The free balance that holds after an agreement is added. */
  lemma AgreementFb(env: Environment, c: StateChannel, op: Op, t: Token)
    requires ChannelOk(env, c) && op.AddAgreement? && Legal(env, c, op) && Apply(env, c, op).Ok?
    ensures var c' := Apply(env, c, op).value;
            && c'.agreements == Set(c.agreements, VirtualHash(env, op.users, op.seqNo), op.agreement) && c'.apps == c.apps
            && HeldBy(env, c', t) == HeldBy(env, c, t) - if op.token == t then Total(op.decrements) else 0
  {
    var fb, h := Fb(env, c), VirtualHash(env, op.users, op.seqNo);
    var c1, incs := c.(agreements := Set(c.agreements, h, op.agreement)), [(op.token, Flip(op.decrements))];
    AddActiveEffect(env, c1, fb, h, incs);
    HoldsIsDirect(env, After(env, c, op), Incremented(fb, incs).value.(activeApps := AddActive(fb.activeApps, h)));
    FlipNegates(op.decrements, 0);
    FlipTotal(op.decrements);
    SingleTokenSum(op.token, Flip(op.decrements), t);
    IncrementEffect(fb, incs, t, 0);
  }

  lemma SetFits<V>(locked: Entries<AppIdHash, int>, m: Entries<AppIdHash, V>, h: AppIdHash, n: int, v: V)
    ensures forall k :: Has(Set(locked, h, n), k) <==> k == h || Has(locked, k)
    ensures forall k :: Has(Set(m, h, v), k) <==> k == h || Has(m, k)
  {
    forall k ensures Has(Set(locked, h, n), k) <==> k == h || Has(locked, k) { SetGet(locked, h, n, k); }
    forall k ensures Has(Set(m, h, v), k) <==> k == h || Has(m, k) { SetGet(m, h, v, k); }
  }

  /** Opening an account, or overwriting the one that the hash already has. */
  lemma OpenedAccount(env: Environment, c: StateChannel, c': StateChannel, ledger: Ledger, h: AppIdHash, sum: int, agreement: Agreement, t: Token)
    requires LedgerFits(c, ledger)
    requires c'.agreements == Set(c.agreements, h, agreement) && c'.apps == c.apps
    requires HeldBy(env, c', t) == HeldBy(env, c, t) - sum
    ensures var l' := ledger.(locked := Set(ledger.locked, h, sum));
            LedgerFits(c', l') && Accounted(env, c', l', t) == Accounted(env, c, ledger, t) - GetOr(ledger.locked, h, 0)
  {
    TotalSet(ledger.locked, h, sum);
    SetFits(ledger.locked, c.agreements, h, sum, agreement);
  }

  lemma AgreementAccounts(env: Environment, c: StateChannel, ledger: Ledger, op: Op, t: Token)
    requires ChannelOk(env, c) && Legal(env, c, op) && LedgerFits(c, ledger) && Apply(env, c, op).Ok? && op.AddAgreement?
    ensures Accounts(env, c, ledger, op, t)
  {
    AgreementFb(env, c, op, t);
    OpenedAccount(env, c, Apply(env, c, op).value, ledger, VirtualHash(env, op.users, op.seqNo),
                  if op.token == t then Total(op.decrements) else 0, op.agreement, t);
  }

  lemma RemovalHeld(env: Environment, c: StateChannel, h: AppIdHash, increments: CoinTransferMap, token: Token, t: Token)
    requires ChannelOk(env, c) && env.checksum(token) == token && Unique(increments) && c.RemoveAgreement(env, h, increments, token).Ok?
    ensures var c' := c.RemoveAgreement(env, h, increments, token).value;
            && HeldBy(env, c', t) == HeldBy(env, c, t) + (if token == t then Total(increments) else 0)
            && c'.apps == c.apps && c'.agreements == Delete(c.agreements, h)
  {
    var fb1, incs := Fb(env, c).(activeApps := RemoveActive(Fb(env, c).activeApps, h)), [(token, increments)];
    RemoveActiveEffect(env, c.(agreements := Delete(c.agreements, h)), Fb(env, c), h, incs);
    HoldsIsDirect(env, c.RemoveAgreement(env, h, increments, token).value, Incremented(fb1, incs).value);
    SingleTokenSum(token, increments, t);
    IncrementEffect(fb1, incs, t, 0);
  }

  lemma RemovalAccounts(env: Environment, c: StateChannel, ledger: Ledger, op: Op, t: Token)
    requires ChannelOk(env, c) && Legal(env, c, op) && LedgerFits(c, ledger) && Apply(env, c, op).Ok? && op.RemoveAgreement?
    ensures Accounts(env, c, ledger, op, t)
  {
    RemovalHeld(env, c, op.h, op.increments, op.token, t);
    ClosedAccount(env, c, c.RemoveAgreement(env, op.h, op.increments, op.token).value, ledger, op.h, 0, t);
    RemovalIsBooked(env, c, ledger, op, t);
  }

  lemma RemovalIsBooked(env: Environment, c: StateChannel, ledger: Ledger, op: Op, t: Token)
    requires Apply(env, c, op).Ok? && op.RemoveAgreement?
    ensures c.RemoveAgreement(env, op.h, op.increments, op.token) == Ok(After(env, c, op))
    ensures Booked(env, c, ledger, op, t) == Ledger(Delete(ledger.locked, op.h), ledger.withdrawn + 0)
    ensures Lost(env, c, ledger, op, t) == GetOr(ledger.locked, op.h, 0) - if op.token == t then Total(op.increments) else 0
  {
  }

  lemma WithdrawHeld(env: Environment, c: StateChannel, p: WithdrawParams, t: Token)
    requires ChannelOk(env, c) && env.checksum(p.token) == p.token && WithdrawTransition(env, c, p).Ok?
    ensures var c' := WithdrawTransition(env, c, p).value;
            && HeldBy(env, c', t) == HeldBy(env, c, t) - (if t == p.token then p.amount else 0)
            && c'.apps == Delete(c.apps, RefundHash(env, c)) && c'.agreements == c.agreements
  {
    WithdrawEffect(env, c, p, c.FreeBalanceAddrOf(env, p.initiatorXpub).value, t, 0);
  }

  lemma WithdrawAccounts(env: Environment, c: StateChannel, ledger: Ledger, p: WithdrawParams, t: Token)
    requires ChannelOk(env, c) && Legal(env, c, Withdraw(p)) && LedgerFits(c, ledger) && WithdrawTransition(env, c, p).Ok?
    ensures Accounts(env, c, ledger, Withdraw(p), t)
  {
    WithdrawHeld(env, c, p, t);
    ClosedAccount(env, c, WithdrawTransition(env, c, p).value, ledger, RefundHash(env, c), if p.token == t then p.amount else 0, t);
    WithdrawIsBooked(env, c, ledger, p, t);
  }

  lemma WithdrawIsBooked(env: Environment, c: StateChannel, ledger: Ledger, p: WithdrawParams, t: Token)
    requires Apply(env, c, Withdraw(p)).Ok?
    ensures Booked(env, c, ledger, Withdraw(p), t)
         == Ledger(Delete(ledger.locked, RefundHash(env, c)), ledger.withdrawn + if p.token == t then p.amount else 0)
    ensures Lost(env, c, ledger, Withdraw(p), t) == GetOr(ledger.locked, RefundHash(env, c), 0)
  {
  }

  /** After the transition the ledger fits again, and what the channel accounts for has fallen by what was lost. */
  ghost predicate Accounts(env: Environment, c: StateChannel, ledger: Ledger, op: Op, t: Token) {
    var c', l' := After(env, c, op), Booked(env, c, ledger, op, t);
    LedgerFits(c', l') && Accounted(env, c', l', t) == Accounted(env, c, ledger, t) - Lost(env, c, ledger, op, t)
  }

  /** Every transition accounts for every unit, whatever it does. */
  lemma StepAccounts(env: Environment, c: StateChannel, ledger: Ledger, op: Op, t: Token)
    requires ChannelOk(env, c) && Legal(env, c, op) && LedgerFits(c, ledger)
    ensures Accounts(env, c, ledger, op, t)
  {
    if Apply(env, c, op).Ok? {
      match op
      case Install(h) => InstallAccounts(env, c, ledger, h, t);
      case Uninstall(h, payout) => UninstallAccounts(env, c, ledger, h, payout, t);
      case AddAgreement(_, _, _, _, _) => AgreementAccounts(env, c, ledger, op, t);
      case RemoveAgreement(_, _, _) => RemovalAccounts(env, c, ledger, op, t);
      case Withdraw(p) => WithdrawAccounts(env, c, ledger, p, t);
      case UpdateState(h, state) => UpdateAccounts(env, c, ledger, h, state, t);
      case _ =>
    }
  }

  lemma UpdateAccounts(env: Environment, c: StateChannel, ledger: Ledger, h: AppIdHash, state: AppState, t: Token)
    requires LedgerFits(c, ledger) && c.SetState(h, state).Ok?
    ensures Accounts(env, c, ledger, UpdateState(h, state), t)
  {
    forall k ensures Has(c.SetState(h, state).value.apps, k) <==> Has(c.apps, k) {
      SetGet(c.apps, h, Get(c.apps, h).SetState(state).value, k);
    }
  }

  /**
   Over every run, what is free, locked and withdrawn falls by exactly the sum of what the single
   transitions lose, token by token.
   */
  lemma {:induction false} FundsAreAccountedFor(env: Environment, c: StateChannel, ops: seq<Op>, t: Token, start: Ledger)
    requires env.Valid() && ChannelOk(env, c) && AllLegal(env, c, ops) && LedgerFits(c, start)
    ensures LedgerFits(Run(env, c, ops), Books(env, c, ops, t, start))
    ensures Accounted(env, Run(env, c, ops), Books(env, c, ops, t, start), t)
         == Accounted(env, c, start, t) - TotalLost(env, c, ops, t, start)
  {
    if ops != [] {
      var p := ops[..|ops| - 1];
      FundsAreAccountedFor(env, c, p, t, start);
      EveryRunKeeps(env, c, p);
      StepAccounts(env, Run(env, c, p), Books(env, c, p, t, start), ops[|ops| - 1], t);
    }
  }

  /** No transition of the run loses anything. */
  ghost predicate NothingLost(env: Environment, c: StateChannel, ops: seq<Op>, t: Token, start: Ledger) {
    forall n :: 0 <= n < |ops| ==> Lost(env, Run(env, c, ops[..n]), Books(env, c, ops[..n], t, start), ops[n], t) == 0
  }

  lemma {:induction false} NothingLostInTotal(env: Environment, c: StateChannel, ops: seq<Op>, t: Token, start: Ledger)
    requires NothingLost(env, c, ops, t, start)
    ensures TotalLost(env, c, ops, t, start) == 0
  {
    if ops != [] {
      var p := ops[..|ops| - 1];
      forall n | 0 <= n < |p| ensures Lost(env, Run(env, c, p[..n]), Books(env, c, p[..n], t, start), p[n], t) == 0 {
        assert p[..n] == ops[..n];
      }
      NothingLostInTotal(env, c, p, t, start);
    }
  }

  ghost function AccountedAt(env: Environment, c: StateChannel, ops: seq<Op>, t: Token, start: Ledger, n: nat): int
    requires n <= |ops|
  {
    Accounted(env, Run(env, c, ops[..n]), Books(env, c, ops[..n], t, start), t)
  }

  lemma AccountedAfter(env: Environment, c: StateChannel, ops: seq<Op>, t: Token, start: Ledger, n: nat)
    requires env.Valid() && ChannelOk(env, c) && AllLegal(env, c, ops) && LedgerFits(c, start) && n <= |ops|
    ensures AccountedAt(env, c, ops, t, start, n) == Accounted(env, c, start, t) - TotalLost(env, c, ops[..n], t, start)
    ensures n < |ops| ==>
              TotalLost(env, c, ops[..n + 1], t, start)
              == TotalLost(env, c, ops[..n], t, start) + Lost(env, Run(env, c, ops[..n]), Books(env, c, ops[..n], t, start), ops[n], t)
  {
    PrefixIsLegal(env, c, ops, n);
    FundsAreAccountedFor(env, c, ops[..n], t, start);
    assert n < |ops| ==> ops[..n + 1][..n] == ops[..n];
  }

  lemma NothingLostBefore(env: Environment, c: StateChannel, ops: seq<Op>, t: Token, start: Ledger, n: nat)
    requires NothingLost(env, c, ops, t, start) && n <= |ops|
    ensures TotalLost(env, c, ops[..n], t, start) == 0
  {
    forall m | 0 <= m < n ensures ops[..n][..m] == ops[..m] {}
    NothingLostInTotal(env, c, ops[..n], t, start);
  }

  lemma ConservedWhenNothingIsLost(env: Environment, c: StateChannel, ops: seq<Op>, t: Token, start: Ledger, n: nat)
    requires env.Valid() && ChannelOk(env, c) && AllLegal(env, c, ops) && LedgerFits(c, start)
    requires NothingLost(env, c, ops, t, start) && n <= |ops|
    ensures AccountedAt(env, c, ops, t, start, n) == Accounted(env, c, start, t)
  {
    AccountedAfter(env, c, ops, t, start, n);
    NothingLostBefore(env, c, ops, t, start, n);
  }

  lemma NothingIsLostWhenConserved(env: Environment, c: StateChannel, ops: seq<Op>, t: Token, start: Ledger, n: nat)
    requires env.Valid() && ChannelOk(env, c) && AllLegal(env, c, ops) && LedgerFits(c, start) && n < |ops|
    requires AccountedAt(env, c, ops, t, start, n + 1) == AccountedAt(env, c, ops, t, start, n)
    ensures Lost(env, Run(env, c, ops[..n]), Books(env, c, ops[..n], t, start), ops[n], t) == 0
  {
    AccountedAfter(env, c, ops, t, start, n);
    AccountedAfter(env, c, ops, t, start, n + 1);
  }

  /** The total is the same at every point of a run exactly when no transition of the run loses anything. */
  lemma FundsAreConservedIff(env: Environment, c: StateChannel, ops: seq<Op>, t: Token, start: Ledger)
    requires env.Valid() && ChannelOk(env, c) && AllLegal(env, c, ops) && LedgerFits(c, start)
    ensures NothingLost(env, c, ops, t, start)
            <==> forall n :: 0 <= n <= |ops| ==> AccountedAt(env, c, ops, t, start, n) == Accounted(env, c, start, t)
  {
    if NothingLost(env, c, ops, t, start) {
      forall n | 0 <= n <= |ops| ensures AccountedAt(env, c, ops, t, start, n) == Accounted(env, c, start, t) {
        ConservedWhenNothingIsLost(env, c, ops, t, start, n);
      }
    }
    if forall n :: 0 <= n <= |ops| ==> AccountedAt(env, c, ops, t, start, n) == Accounted(env, c, start, t) {
      forall n | 0 <= n < |ops| ensures Lost(env, Run(env, c, ops[..n]), Books(env, c, ops[..n], t, start), ops[n], t) == 0 {
        NothingIsLostWhenConserved(env, c, ops, t, start, n);
      }
    }
  }

  lemma {:induction false} PrefixIsLegal(env: Environment, c: StateChannel, ops: seq<Op>, n: nat)
    requires AllLegal(env, c, ops) && n <= |ops|
    ensures AllLegal(env, c, ops[..n])
  {
    if n < |ops| {
      var p := ops[..|ops| - 1];
      PrefixIsLegal(env, c, p, n);
      assert p[..n] == ops[..n];
    } else {
      assert ops[..n] == ops;
    }
  }

  /**
   A withdrawal keeps the total exactly when nothing is locked under the hash that the refund app
   shares with the latest proposal: that proposal may be gone or still pending, or its app may have
   locked nothing.
   */
  lemma WithdrawConservesIff(env: Environment, c: StateChannel, ledger: Ledger, p: WithdrawParams, t: Token)
    requires ChannelOk(env, c) && Legal(env, c, Withdraw(p)) && LedgerFits(c, ledger) && WithdrawTransition(env, c, p).Ok?
    ensures Accounted(env, After(env, c, Withdraw(p)), Booked(env, c, ledger, Withdraw(p), t), t) == Accounted(env, c, ledger, t)
            <==> GetOr(ledger.locked, RefundHash(env, c), 0) == 0
    ensures !Has(c.apps, RefundHash(env, c)) ==> GetOr(ledger.locked, RefundHash(env, c), 0) == 0
  {
    WithdrawLosesItsHash(env, c, ledger, p, t);
    assert !Foreign(env, c, RefundHash(env, c));
  }

  /**
   Installing the latest proposal and then withdrawing loses exactly the deposits of that install, for
   every channel, proposal and withdrawal.
   */
  lemma WithdrawAfterInstallLoses(env: Environment, c: StateChannel, ledger: Ledger, h: AppIdHash, p: WithdrawParams, t: Token)
    requires ChannelOk(env, c) && LedgerFits(c, ledger) && Legal(env, c, Install(h)) && env.checksum(p.token) == p.token
    requires Has(c.proposals, h) && Get(c.proposals, h).appSeqNo == c.numProposedApps && Apply(env, c, Install(h)).Ok?
    requires WithdrawTransition(env, Apply(env, c, Install(h)).value, p).Ok?
    ensures var c1, l1 := After(env, c, Install(h)), Booked(env, c, ledger, Install(h), t);
            var c2, l2 := After(env, c1, Withdraw(p)), Booked(env, c1, l1, Withdraw(p), t);
            && !Has(c2.apps, h) && !Has(c2.agreements, h)
            && Accounted(env, c2, l2, t) == Accounted(env, c, ledger, t) - Sum(InstallDecrements(env, c, h), t)
  {
    var c1, l1 := Apply(env, c, Install(h)).value, Booked(env, c, ledger, Install(h), t);
    InstallFb(env, c, h);
    InstallKeeps(env, c, h);
    InstallAccounts(env, c, ledger, h, t);
    assert RefundHash(env, c1) == h;
    SetGet(ledger.locked, h, Sum(InstallDecrements(env, c, h), t), h);
    WithdrawLosesItsHash(env, c1, l1, p, t);
  }

  /** A withdrawal loses what is locked under the refund app's hash, and leaves nothing active under it. */
  lemma WithdrawLosesItsHash(env: Environment, c: StateChannel, ledger: Ledger, p: WithdrawParams, t: Token)
    requires ChannelOk(env, c) && Legal(env, c, Withdraw(p)) && LedgerFits(c, ledger) && WithdrawTransition(env, c, p).Ok?
    ensures var c', l' := After(env, c, Withdraw(p)), Booked(env, c, ledger, Withdraw(p), t);
            && !Has(c'.apps, RefundHash(env, c)) && !Has(c'.agreements, RefundHash(env, c))
            && Accounted(env, c', l', t) == Accounted(env, c, ledger, t) - GetOr(ledger.locked, RefundHash(env, c), 0)
  {
    WithdrawHeld(env, c, p, t);
    WithdrawAccounts(env, c, ledger, p, t);
    DeleteGet(c.apps, RefundHash(env, c), RefundHash(env, c));
    assert !Foreign(env, c, RefundHash(env, c));
  }
}
