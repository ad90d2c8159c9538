/** The channel transitions computed by the install, uninstall and withdraw protocols. */
module DirectTransitions {
  import opened OrderedMaps
  import opened Models
  import opened FreeBalances
  import opened StateChannels

  // ---- Install --------------------------------------------------------------------------------

  datatype InstallParams = InstallParams(
    initiatorXpub: Xpub,
    responderXpub: Xpub,
    participants: seq<Address>,
    initialState: AppState,
    appInterface: AppInterface,
    defaultTimeout: nat,
    appSeqNo: nat,
    outcomeType: OutcomeType,
    initiatorDecrement: int,
    responderDecrement: int,
    initiatorToken: Token,
    responderToken: Token,
    disableLimit: bool)

  function InterpreterParameters(p: InstallParams, initiator: Address, responder: Address): Result<InterpreterParams> {
    var sameToken, sum := p.initiatorToken == p.responderToken, p.initiatorDecrement + p.responderDecrement;
    match p.outcomeType
    case TwoPartyFixedOutcome =>
      if !sameToken then Err(DifferentAssets)
      else Ok(TwoPartyParams(p.initiatorToken, initiator, responder, sum))
    case MultiAssetMultiPartyCoinTransfer =>
      if sameToken then Ok(MultiAssetParams([sum], [p.initiatorToken]))
      else Ok(MultiAssetParams([p.initiatorDecrement, p.responderDecrement], [p.initiatorToken, p.responderToken]))
    case SingleAssetTwoPartyCoinTransfer =>
      if !sameToken then Err(DifferentAssets)
      else Ok(SingleAssetParams(if p.disableLimit then MAX_UINT256 else sum, p.initiatorToken))
  }

  function Decrements(p: InstallParams, initiator: Address, responder: Address): TokenIndexedCoinTransferMap {
    if p.initiatorToken != p.responderToken then
      [(p.initiatorToken, [(initiator, p.initiatorDecrement)]), (p.responderToken, [(responder, p.responderDecrement)])]
    else
      [(p.initiatorToken, FromEntries([(initiator, p.initiatorDecrement), (responder, p.responderDecrement)]))]
  }

  function AppToInstall(p: InstallParams, params: InterpreterParams): AppInstance {
    AppInstance(p.participants, p.defaultTimeout, p.appInterface, false, p.appSeqNo, p.initialState, 0,
                p.defaultTimeout, p.outcomeType, params)
  }

  function InstallTransition(env: Environment, c: StateChannel, p: InstallParams): Result<StateChannel> {
    var initiator :- c.FreeBalanceAddrOf(env, p.initiatorXpub);
    var responder :- c.FreeBalanceAddrOf(env, p.responderXpub);
    var params :- InterpreterParameters(p, initiator, responder);
    c.InstallApp(env, AppToInstall(p, params), Decrements(p, initiator, responder))
  }

  /** The most a token's payout can be under the interpreter parameters. */
  function Limit(params: InterpreterParams, t: Token): int {
    match params
    case NoParams => 0
    case TwoPartyParams(token, _, _, amount) => if t == token then amount else 0
    case SingleAssetParams(limit, token) => if t == token then limit else 0
    case MultiAssetParams(limits, tokens) => LimitOf(limits, tokens, t)
  }

  function LimitOf(limits: seq<int>, tokens: seq<Token>, t: Token): int {
    if limits == [] || tokens == [] then 0
    else (if tokens[0] == t then limits[0] else 0) + LimitOf(limits[1..], tokens[1..], t)
  }

  lemma DecrementAmounts(p: InstallParams, i: Address, r: Address, t: Token, a: Address)
    requires i != r
    ensures UniqueIncrements(Decrements(p, i, r))
    ensures Amount(Decrements(p, i, r), t, a)
         == (if t == p.initiatorToken && a == i then p.initiatorDecrement else 0)
          + (if t == p.responderToken && a == r then p.responderDecrement else 0)
    ensures Sum(Decrements(p, i, r), t)
         == (if t == p.initiatorToken then p.initiatorDecrement else 0)
          + (if t == p.responderToken then p.responderDecrement else 0)
  {
    var both := [(i, p.initiatorDecrement), (r, p.responderDecrement)];
    FromEntriesOfUnique(both);
    assert both[1..] == [(r, p.responderDecrement)];
    SingleTotal(i, p.initiatorDecrement);
    SingleTotal(r, p.responderDecrement);
    var d := Decrements(p, i, r);
    assert d[1..] == if p.initiatorToken != p.responderToken then [d[1]] else [];
    PairLookup(i, p.initiatorDecrement, r, p.responderDecrement, a);
  }

  lemma SingleTotal(a: Address, n: int)
    ensures Total([(a, n)]) == n
  {
    assert [(a, n)][1..] == [];
  }

  lemma PairLookup(i: Address, m: int, r: Address, n: int, a: Address)
    requires i != r
    ensures GetOr([(i, m), (r, n)], a, 0) == if a == i then m else if a == r then n else 0
    ensures GetOr([(i, m)], a, 0) == if a == i then m else 0
    ensures GetOr([(r, n)], a, 0) == if a == r then n else 0
  {
    var both, one, other := [(i, m), (r, n)], [(i, m)], [(r, n)];
    if a == i {
      IndexIs(both, a, 0);
      IndexIs(one, a, 0);
    } else if a == r {
      IndexIs(both, a, 1);
      IndexIs(other, a, 0);
    }
  }

  /** What an install takes from the depositors is, per token, exactly what its interpreter may pay out. */
  lemma InstallLocksItsLimit(p: InstallParams, i: Address, r: Address, t: Token)
    requires i != r && InterpreterParameters(p, i, r).Ok?
    ensures var limit := Limit(InterpreterParameters(p, i, r).value, t);
            if p.disableLimit && p.outcomeType == SingleAssetTwoPartyCoinTransfer
            then limit == if t == p.initiatorToken then MAX_UINT256 else 0
            else limit == Sum(Decrements(p, i, r), t)
  {
    DecrementAmounts(p, i, r, t, i);
    if p.outcomeType == MultiAssetMultiPartyCoinTransfer {
      if p.initiatorToken == p.responderToken {
        var limits, tokens := [p.initiatorDecrement + p.responderDecrement], [p.initiatorToken];
        assert limits[1..] == [] && tokens[1..] == [];
      } else {
        var limits, tokens := [p.initiatorDecrement, p.responderDecrement], [p.initiatorToken, p.responderToken];
        assert limits[1..] == [p.responderDecrement] && tokens[1..] == [p.responderToken];
        assert [p.responderDecrement][1..] == [] && [p.responderToken][1..] == [];
        assert LimitOf([p.responderDecrement], [p.responderToken], t) == if p.responderToken == t then p.responderDecrement else 0;
        assert LimitOf(limits, tokens, t) == (if p.initiatorToken == t then p.initiatorDecrement else 0)
                                             + LimitOf([p.responderDecrement], [p.responderToken], t);
      }
    }
  }

  /** `installApp` in one piece: which fields change, and when it fails. */
  lemma InstallAppEffect(env: Environment, c: StateChannel, fb: FreeBalance, app: AppInstance, decrements: TokenIndexedCoinTransferMap)
    requires Holds(env, c, fb) && ChecksummedIncrements(env, decrements)
    ensures var r, i := c.InstallApp(env, app, decrements), Incremented(fb, FlipTokenIndexed(decrements));
            var h := app.IdentityHash();
            && (r.Ok? <==> c.SigningKeysFor(env, app.appSeqNo) <= app.participants && i.Ok?)
            && (r.Ok? ==>
                  var fb' := i.value.(activeApps := AddActive(fb.activeApps, h));
                  && Canonical(env, fb')
                  && r.value == WithFreeBalance(c, fb', 2).(apps := Set(c.apps, h, app), proposals := Delete(c.proposals, h)))
  {
    var h := app.IdentityHash();
    var c1 := c.(apps := Set(c.apps, h, app), proposals := Delete(c.proposals, h));
    assert ChecksummedIncrements(env, FlipTokenIndexed(decrements));
    AddActiveEffect(env, c1, fb, h, FlipTokenIndexed(decrements));
  }

  ghost predicate Installs(env: Environment, c: StateChannel, p: InstallParams, i: Address, r: Address) {
    && Direct(env, c) && i != r
    && env.checksum(p.initiatorToken) == p.initiatorToken && env.checksum(p.responderToken) == p.responderToken
    && c.FreeBalanceAddrOf(env, p.initiatorXpub) == Ok(i) && c.FreeBalanceAddrOf(env, p.responderXpub) == Ok(r)
  }

  lemma InstallIsInstallApp(env: Environment, c: StateChannel, p: InstallParams, i: Address, r: Address)
    requires Installs(env, c, p, i, r)
    ensures var params := InterpreterParameters(p, i, r);
            && (params.Ok? ==> InstallTransition(env, c, p) == c.InstallApp(env, AppToInstall(p, params.value), Decrements(p, i, r)))
            && (params.Err? ==> InstallTransition(env, c, p).Err?)
    ensures ChecksummedIncrements(env, Decrements(p, i, r))
  {
  }

  lemma InstallAppHolds(env: Environment, c: StateChannel, app: AppInstance, d: TokenIndexedCoinTransferMap)
    requires Direct(env, c) && ChecksummedIncrements(env, d)
    ensures var r, i := c.InstallApp(env, app, d), Incremented(Fb(env, c), FlipTokenIndexed(d));
            && (r.Ok? <==> c.SigningKeysFor(env, app.appSeqNo) <= app.participants && i.Ok?)
            && (r.Ok? ==>
                  && Holds(env, r.value, i.value.(activeApps := AddActive(Fb(env, c).activeApps, app.IdentityHash())))
                  && Version(r.value) == Version(c) + 2)
  {
    InstallAppEffect(env, c, Fb(env, c), app, d);
  }

  /**
   An install succeeds exactly when the outcome type admits the tokens, the participants are the
   channel's signing keys and both depositors can afford their deposit.
   */
  lemma InstallSucceedsIff(env: Environment, c: StateChannel, p: InstallParams, i: Address, r: Address)
    requires Installs(env, c, p, i, r)
    ensures InstallTransition(env, c, p).Ok? <==>
              && (p.outcomeType != MultiAssetMultiPartyCoinTransfer ==> p.initiatorToken == p.responderToken)
              && c.SigningKeysFor(env, p.appSeqNo) <= p.participants
              && BalanceOf(env, c, p.initiatorToken, i) >= p.initiatorDecrement
              && BalanceOf(env, c, p.responderToken, r) >= p.responderDecrement
  {
    InstallIsInstallApp(env, c, p, i, r);
    if InterpreterParameters(p, i, r).Ok? {
      InstallAppHolds(env, c, AppToInstall(p, InterpreterParameters(p, i, r).value), Decrements(p, i, r));
      InstallAffordable(env, Fb(env, c), p, i, r);
    }
  }

  lemma DepositsTaken(fb: FreeBalance, p: InstallParams, i: Address, r: Address, t: Token, a: Address)
    requires i != r && Incremented(fb, FlipTokenIndexed(Decrements(p, i, r))).Ok?
    ensures var fb' := Incremented(fb, FlipTokenIndexed(Decrements(p, i, r))).value;
            && Balance(fb', t, a) == Balance(fb, t, a)
                 - (if t == p.initiatorToken && a == i then p.initiatorDecrement else 0)
                 - (if t == p.responderToken && a == r then p.responderDecrement else 0)
            && Held(fb', t) == Held(fb, t) - Sum(Decrements(p, i, r), t)
  {
    var d := Decrements(p, i, r);
    DecrementAmounts(p, i, r, t, a);
    FlipUnique(d);
    FlipTokens(d, t, a);
    IncrementEffect(fb, FlipTokenIndexed(d), t, a);
  }

  /** An install moves exactly the two deposits out of the depositors' balances, and its limit out of the channel's. */
  lemma InstallMovesDeposits(env: Environment, c: StateChannel, p: InstallParams, i: Address, r: Address, t: Token, a: Address)
    requires Installs(env, c, p, i, r) && InstallTransition(env, c, p).Ok?
    ensures var c' := InstallTransition(env, c, p).value;
            && Direct(env, c') && Version(c') == Version(c) + 2
            && BalanceOf(env, c', t, a) == BalanceOf(env, c, t, a)
                 - (if t == p.initiatorToken && a == i then p.initiatorDecrement else 0)
                 - (if t == p.responderToken && a == r then p.responderDecrement else 0)
            && HeldBy(env, c', t) == HeldBy(env, c, t) - Sum(Decrements(p, i, r), t)
  {
    InstallHolds(env, c, p, i, r);
    DepositsTaken(Fb(env, c), p, i, r, t, a);
    InstalledReads(env, c, InstallTransition(env, c, p).value, p, i, r);
  }

  /** The free balance that the channel holds after an install. */
  function FreeBalanceAfter(fb: FreeBalance, p: InstallParams, i: Address, r: Address): FreeBalance
    requires InterpreterParameters(p, i, r).Ok? && Incremented(fb, FlipTokenIndexed(Decrements(p, i, r))).Ok?
  {
    var h := AppToInstall(p, InterpreterParameters(p, i, r).value).IdentityHash();
    Incremented(fb, FlipTokenIndexed(Decrements(p, i, r))).value.(activeApps := AddActive(fb.activeApps, h))
  }

  lemma InstallHolds(env: Environment, c: StateChannel, p: InstallParams, i: Address, r: Address)
    requires Installs(env, c, p, i, r) && InstallTransition(env, c, p).Ok?
    ensures InterpreterParameters(p, i, r).Ok? && Incremented(Fb(env, c), FlipTokenIndexed(Decrements(p, i, r))).Ok?
    ensures var c' := InstallTransition(env, c, p).value;
            Holds(env, c', FreeBalanceAfter(Fb(env, c), p, i, r)) && Version(c') == Version(c) + 2
  {
    InstallIsInstallApp(env, c, p, i, r);
    InstallAppHolds(env, c, AppToInstall(p, InterpreterParameters(p, i, r).value), Decrements(p, i, r));
  }

  lemma InstalledReads(env: Environment, c: StateChannel, c': StateChannel, p: InstallParams, i: Address, r: Address)
    requires InterpreterParameters(p, i, r).Ok? && Incremented(Fb(env, c), FlipTokenIndexed(Decrements(p, i, r))).Ok?
    requires Holds(env, c', FreeBalanceAfter(Fb(env, c), p, i, r))
    ensures Direct(env, c') && Fb(env, c').balances == Incremented(Fb(env, c), FlipTokenIndexed(Decrements(p, i, r))).value.balances
  {
    HoldsIsDirect(env, c', FreeBalanceAfter(Fb(env, c), p, i, r));
  }

  lemma InstallAffordable(env: Environment, fb: FreeBalance, p: InstallParams, i: Address, r: Address)
    requires Canonical(env, fb) && i != r
    requires env.checksum(p.initiatorToken) == p.initiatorToken && env.checksum(p.responderToken) == p.responderToken
    ensures Incremented(fb, FlipTokenIndexed(Decrements(p, i, r))).Ok? <==>
              Balance(fb, p.initiatorToken, i) >= p.initiatorDecrement && Balance(fb, p.responderToken, r) >= p.responderDecrement
  {
    var d := Decrements(p, i, r);
    DecrementAmounts(p, i, r, 0, i);
    FlipUnique(d);
    assert ChecksummedIncrements(env, FlipTokenIndexed(d));
    IncrementSucceedsIff(env, fb, FlipTokenIndexed(d));
    forall t, a ensures Balance(fb, t, a) + Amount(FlipTokenIndexed(d), t, a) ==
        Balance(fb, t, a) - (if t == p.initiatorToken && a == i then p.initiatorDecrement else 0)
                          - (if t == p.responderToken && a == r then p.responderDecrement else 0)
      ensures Balance(fb, t, a) >= 0
    {
      DecrementAmounts(p, i, r, t, a);
      FlipTokens(d, t, a);
      BalanceNonNegative(env, fb, t, a);
    }
    assert Balance(fb, p.initiatorToken, i) + Amount(FlipTokenIndexed(d), p.initiatorToken, i)
        == Balance(fb, p.initiatorToken, i) - p.initiatorDecrement;
    assert Balance(fb, p.responderToken, r) + Amount(FlipTokenIndexed(d), p.responderToken, r)
        == Balance(fb, p.responderToken, r) - p.responderDecrement;
  }

  /** The transaction an install signs is built from the app with the largest sequence number. */
  function ConditionalTransaction(env: Environment, c: StateChannel): Digest {
    if c.apps == [] || c.freeBalanceApp.None? then OtherDigest(0) else
      var app := c.MostRecentlyInstalled();
      ConditionalTransactionDigest(c.multisigAddress, c.MultisigOwners(env), app.IdentityHash(),
                                   c.freeBalanceApp.value.IdentityHash(), app.outcomeType, app.params)
  }

  // ---- Uninstall ------------------------------------------------------------------------------

  /** `BigNumber.div(2)` truncates toward zero. */
  function Half(n: int): int {
    if n >= 0 then n / 2 else -(-n / 2)
  }

  function TransfersAt(transfers: seq<seq<CoinTransfer>>, i: nat): seq<CoinTransfer> {
    if i < |transfers| then transfers[i] else []
  }

  function MultiAssetIncrements(tokens: seq<Token>, transfers: seq<seq<CoinTransfer>>): TokenIndexedCoinTransferMap {
    FromEntries(seq(|tokens|, i requires 0 <= i < |tokens| => (tokens[i], ToMap(TransfersAt(transfers, i)))))
  }

  /** The balance increments an outcome stands for, read with the app's interpreter parameters. */
  function OutcomeIncrements(outcomeType: OutcomeType, params: InterpreterParams, outcome: Outcome): Result<TokenIndexedCoinTransferMap> {
    match (outcomeType, params, outcome)
    case (TwoPartyFixedOutcome, TwoPartyParams(token, one, two, amount), FixedOutcome(code)) =>
      if code == 0 then Ok([(token, [(one, amount)])])
      else if code == 1 then Ok([(token, [(two, amount)])])
      else Ok([(token, FromEntries([(one, Half(amount)), (two, amount - Half(amount))]))])
    case (SingleAssetTwoPartyCoinTransfer, SingleAssetParams(_, token), SingleAssetOutcome(first, second)) =>
      Ok([(token, FromEntries([(first.to, first.amount), (second.to, second.amount)]))])
    case (MultiAssetMultiPartyCoinTransfer, MultiAssetParams(_, tokens), MultiAssetOutcome(transfers)) =>
      Ok(MultiAssetIncrements(tokens, transfers))
    case _ => Err(UndecodableOutcome)
  }

  function FreeBalanceIncrements(env: Environment, app: AppInstance, override: Option<Outcome>): Result<TokenIndexedCoinTransferMap> {
    var outcome := if override.Some? then override.value else env.outcome(app.appInterface.addr, app.latestState);
    if app.latestState.RefundState? then Err(UndecodableOutcome)
    else OutcomeIncrements(app.outcomeType, app.params, outcome)
  }

  function UninstallTransition(env: Environment, c: StateChannel, h: AppIdHash): Result<StateChannel> {
    var app :- c.GetAppInstance(h);
    var increments :- FreeBalanceIncrements(env, app, None);
    c.UninstallApp(env, h, increments)
  }

  /** A two-party fixed outcome pays out exactly the amount locked, whichever of the three it is. */
  lemma FixedOutcomePaysTheLimit(params: InterpreterParams, outcome: Outcome, t: Token)
    requires OutcomeIncrements(TwoPartyFixedOutcome, params, outcome).Ok?
    requires params.playerOne != params.playerTwo
    ensures Sum(OutcomeIncrements(TwoPartyFixedOutcome, params, outcome).value, t) == Limit(params, t)
  {
    var one, two, amount := params.playerOne, params.playerTwo, params.amount;
    var split := [(one, Half(amount)), (two, amount - Half(amount))];
    FromEntriesOfUnique(split);
    assert split[1..] == [(two, amount - Half(amount))];
    SingleTotal(one, amount);
    SingleTotal(two, amount);
    SingleTotal(two, amount - Half(amount));
    var r := OutcomeIncrements(TwoPartyFixedOutcome, params, outcome).value;
    assert r[1..] == [];
  }

  /**
   Who is paid by a two-party fixed outcome: all to the first player for zero, all to the second for one, and
   otherwise half to the first, rounded toward zero, and the rest to the second.
   */
  ghost predicate PlayersShare(code: nat, amount: int, first: int, second: int) {
    && first + second == amount
    && (code == 0 ==> second == 0)
    && (code == 1 ==> first == 0)
    && (code > 1 && amount >= 0 ==> first == amount / 2)
    && (code > 1 && amount < 0 ==> -first == -amount / 2)
  }

  lemma FixedOutcomePaysEachPlayer(token: Token, one: Address, two: Address, amount: int, code: nat, t: Token, a: Address)
    requires one != two
    ensures var r := OutcomeIncrements(TwoPartyFixedOutcome, TwoPartyParams(token, one, two, amount), FixedOutcome(code));
            && r.Ok? && UniqueIncrements(r.value) && Keys(r.value) == [token]
            && (t != token || (a != one && a != two) ==> Amount(r.value, t, a) == 0)
            && PlayersShare(code, amount, Amount(r.value, token, one), Amount(r.value, token, two))
  {
    FixedOutcomeAmount(token, one, two, amount, code, t, a);
    FixedOutcomeAmount(token, one, two, amount, code, token, one);
    FixedOutcomeAmount(token, one, two, amount, code, token, two);
  }

  lemma FixedOutcomeAmount(token: Token, one: Address, two: Address, amount: int, code: nat, t: Token, a: Address)
    requires one != two
    ensures var r := OutcomeIncrements(TwoPartyFixedOutcome, TwoPartyParams(token, one, two, amount), FixedOutcome(code));
            && r.Ok? && UniqueIncrements(r.value) && Keys(r.value) == [token]
            && Amount(r.value, t, a) ==
               if t != token then 0
               else if a == one then (if code == 0 then amount else if code == 1 then 0 else Half(amount))
               else if a == two then (if code == 0 then 0 else if code == 1 then amount else amount - Half(amount))
               else 0
  {
    var r := OutcomeIncrements(TwoPartyFixedOutcome, TwoPartyParams(token, one, two, amount), FixedOutcome(code)).value;
    if t == token { IndexIs(r, t, 0); }
    if code > 1 {
      FromEntriesOfUnique([(one, Half(amount)), (two, amount - Half(amount))]);
      PairLookup(one, Half(amount), two, amount - Half(amount), a);
    } else {
      PairLookup(one, amount, two, amount, a);
    }
  }

  /** What a two-party fixed app pays out when it is uninstalled is what its install took, token by token. */
  lemma FixedAppReturnsItsDeposits(p: InstallParams, i: Address, r: Address, outcome: Outcome, t: Token)
    requires i != r && p.outcomeType == TwoPartyFixedOutcome && InterpreterParameters(p, i, r).Ok?
    requires OutcomeIncrements(TwoPartyFixedOutcome, InterpreterParameters(p, i, r).value, outcome).Ok?
    ensures Sum(OutcomeIncrements(TwoPartyFixedOutcome, InterpreterParameters(p, i, r).value, outcome).value, t) == Sum(Decrements(p, i, r), t)
  {
    InstallLocksItsLimit(p, i, r, t);
    FixedOutcomePaysTheLimit(InterpreterParameters(p, i, r).value, outcome, t);
  }

  lemma UninstallAppEffect(env: Environment, c: StateChannel, fb: FreeBalance, h: AppIdHash, increments: TokenIndexedCoinTransferMap)
    requires Holds(env, c, fb) && ChecksummedIncrements(env, increments)
    requires Has(c.apps, h) && Get(c.apps, h).IdentityHash() == h
    ensures var fb1 := fb.(activeApps := RemoveActive(fb.activeApps, h));
            var r, i := c.UninstallApp(env, h, increments), Incremented(fb1, increments);
            && (r.Ok? <==> i.Ok?)
            && (r.Ok? ==>
                  Canonical(env, i.value) && r.value == WithFreeBalance(c, i.value, 2).(apps := Delete(c.apps, h)))
  {
    RemoveActiveEffect(env, c.(apps := Delete(c.apps, h)), fb, h, increments);
  }

  /** An uninstall succeeds exactly when the app is there, under its own hash, and the increments overdraw nobody. */
  lemma UninstallAppSucceedsIff(env: Environment, c: StateChannel, h: AppIdHash, increments: TokenIndexedCoinTransferMap)
    requires Direct(env, c) && ChecksummedIncrements(env, increments) && UniqueIncrements(increments)
    ensures c.UninstallApp(env, h, increments).Ok? <==>
              && Has(c.apps, h) && Get(c.apps, h).IdentityHash() == h
              && forall t, a {:trigger Amount(increments, t, a)} :: BalanceOf(env, c, t, a) + Amount(increments, t, a) >= 0
  {
    var fb1 := Fb(env, c).(activeApps := RemoveActive(Fb(env, c).activeApps, h));
    if Has(c.apps, h) && Get(c.apps, h).IdentityHash() == h {
      UninstallAppEffect(env, c, Fb(env, c), h, increments);
      ActiveKeepsCanonical(env, Fb(env, c), h);
      IncrementSucceedsIff(env, fb1, increments);
      CoversIff(Fb(env, c), fb1, increments);
    }
  }

  lemma CoversIff(fb: FreeBalance, fb1: FreeBalance, increments: TokenIndexedCoinTransferMap)
    requires fb1.balances == fb.balances
    ensures Covers(fb1, increments) <==> forall t, a {:trigger Amount(increments, t, a)} :: Balance(fb, t, a) + Amount(increments, t, a) >= 0
  {
    if Covers(fb1, increments) {
      forall t, a ensures Balance(fb, t, a) + Amount(increments, t, a) >= 0 {
        assert Balance(fb1, t, a) == Balance(fb, t, a);
      }
    } else {
      var t, a :| Balance(fb1, t, a) + Amount(increments, t, a) < 0;
      assert Balance(fb, t, a) + Amount(increments, t, a) < 0;
    }
  }

  /** An uninstall adds exactly the increments to the free balance and two to its version. */
  lemma UninstallMovesPayout(env: Environment, c: StateChannel, h: AppIdHash, t: Token, a: Address)
    requires Direct(env, c) && Has(c.apps, h) && Get(c.apps, h).IdentityHash() == h && UninstallTransition(env, c, h).Ok?
    requires var increments := FreeBalanceIncrements(env, Get(c.apps, h), None).value;
             ChecksummedIncrements(env, increments) && UniqueIncrements(increments)
    ensures var c', increments := UninstallTransition(env, c, h).value, FreeBalanceIncrements(env, Get(c.apps, h), None).value;
            && Direct(env, c') && Version(c') == Version(c) + 2 && c'.apps == Delete(c.apps, h)
            && BalanceOf(env, c', t, a) == BalanceOf(env, c, t, a) + Amount(increments, t, a)
            && HeldBy(env, c', t) == HeldBy(env, c, t) + Sum(increments, t)
  {
    var fb, increments := Fb(env, c), FreeBalanceIncrements(env, Get(c.apps, h), None).value;
    var fb1 := fb.(activeApps := RemoveActive(fb.activeApps, h));
    UninstallAppEffect(env, c, fb, h, increments);
    IncrementEffect(fb1, increments, t, a);
    HoldsIsDirect(env, UninstallTransition(env, c, h).value, Incremented(fb1, increments).value);
  }

  /** The app under `h` has at most moved to another state, and the free balance has not changed. */
  ghost predicate OnlyStateMoved(c: StateChannel, c': StateChannel, h: AppIdHash) {
    && c'.freeBalanceApp == c.freeBalanceApp && Has(c.apps, h) && Has(c'.apps, h)
    && Get(c'.apps, h) == Get(c.apps, h).(latestState := Get(c'.apps, h).latestState,
                                          latestVersionNumber := Get(c'.apps, h).latestVersionNumber,
                                          latestTimeout := Get(c'.apps, h).latestTimeout)
  }

  /** The app that an install stores. */
  lemma InstallStores(env: Environment, c: StateChannel, p: InstallParams, i: Address, r: Address)
    requires Installs(env, c, p, i, r) && InstallTransition(env, c, p).Ok?
    ensures InterpreterParameters(p, i, r).Ok?
    ensures var c', h := InstallTransition(env, c, p).value, AppIdHash(p.appSeqNo, p.participants);
            Has(c'.apps, h) && Get(c'.apps, h) == AppToInstall(p, InterpreterParameters(p, i, r).value)
  {
    InstallIsInstallApp(env, c, p, i, r);
    var app := AppToInstall(p, InterpreterParameters(p, i, r).value);
    InstallAppStores(env, c, app, Decrements(p, i, r));
    SetGet(c.apps, app.IdentityHash(), app, app.IdentityHash());
  }

  lemma FixedOutcomeIsRead(env: Environment, c: StateChannel, h: AppIdHash)
    requires Has(c.apps, h) && Get(c.apps, h).outcomeType == TwoPartyFixedOutcome && UninstallTransition(env, c, h).Ok?
    ensures var app := Get(c.apps, h);
            var outcome := env.outcome(app.appInterface.addr, app.latestState);
            && outcome.FixedOutcome?
            && FreeBalanceIncrements(env, app, None) == OutcomeIncrements(TwoPartyFixedOutcome, app.params, outcome)
            && FreeBalanceIncrements(env, app, None).Ok?
  {
  }

  lemma FixedUninstallPays(env: Environment, c: StateChannel, h: AppIdHash, token: Token, one: Address, two: Address, amount: int, t: Token, a: Address)
    requires Direct(env, c) && env.checksum(token) == token && one != two && Has(c.apps, h) && Get(c.apps, h).IdentityHash() == h
    requires Get(c.apps, h).outcomeType == TwoPartyFixedOutcome && Get(c.apps, h).params == TwoPartyParams(token, one, two, amount)
    requires UninstallTransition(env, c, h).Ok?
    ensures var c', outcome := UninstallTransition(env, c, h).value, env.outcome(Get(c.apps, h).appInterface.addr, Get(c.apps, h).latestState);
            && outcome.FixedOutcome?
            && (t != token || (a != one && a != two) ==> BalanceOf(env, c', t, a) == BalanceOf(env, c, t, a))
            && PlayersShare(outcome.code, amount, BalanceOf(env, c', token, one) - BalanceOf(env, c, token, one),
                            BalanceOf(env, c', token, two) - BalanceOf(env, c, token, two))
  {
    var outcome := env.outcome(Get(c.apps, h).appInterface.addr, Get(c.apps, h).latestState);
    FixedOutcomeIsRead(env, c, h);
    FixedOutcomePaysEachPlayer(token, one, two, amount, outcome.code, t, a);
    UninstallMovesPayout(env, c, h, t, a);
    UninstallMovesPayout(env, c, h, token, one);
    UninstallMovesPayout(env, c, h, token, two);
  }

  /**
   From install to uninstall, whatever states a two-party fixed app has gone through: the initiator pays its
   deposit and gets the first player's share of the two deposits, the responder the second player's, as
   the app's contract decides from its last state; nobody else's balance changes, in no token.
   */
  lemma FixedAppPaysItsPlayers(env: Environment, c: StateChannel, p: InstallParams, i: Address, r: Address, d: StateChannel, t: Token, a: Address)
    requires Installs(env, c, p, i, r) && InstallTransition(env, c, p).Ok? && p.outcomeType == TwoPartyFixedOutcome
    requires var h := AppIdHash(p.appSeqNo, p.participants);
             OnlyStateMoved(InstallTransition(env, c, p).value, d, h) && UninstallTransition(env, d, h).Ok?
    ensures var h, token := AppIdHash(p.appSeqNo, p.participants), p.initiatorToken;
            var e, outcome := UninstallTransition(env, d, h).value, env.outcome(p.appInterface.addr, Get(d.apps, h).latestState);
            && outcome.FixedOutcome?
            && (t != token || (a != i && a != r) ==> BalanceOf(env, e, t, a) == BalanceOf(env, c, t, a))
            && PlayersShare(outcome.code, p.initiatorDecrement + p.responderDecrement,
                            BalanceOf(env, e, token, i) - BalanceOf(env, c, token, i) + p.initiatorDecrement,
                            BalanceOf(env, e, token, r) - BalanceOf(env, c, token, r) + p.responderDecrement)
  {
    var h, token, c1 := AppIdHash(p.appSeqNo, p.participants), p.initiatorToken, InstallTransition(env, c, p).value;
    InstallStores(env, c, p, i, r);
    InstallMovesDeposits(env, c, p, i, r, t, a);
    InstallMovesDeposits(env, c, p, i, r, token, i);
    InstallMovesDeposits(env, c, p, i, r, token, r);
    SameFreeBalance(env, c1, d);
    FixedUninstallPays(env, d, h, token, i, r, p.initiatorDecrement + p.responderDecrement, t, a);
  }

  lemma SameFreeBalance(env: Environment, c: StateChannel, d: StateChannel)
    requires d.freeBalanceApp == c.freeBalanceApp && Direct(env, c)
    ensures Direct(env, d) && Fb(env, d) == Fb(env, c)
  {
  }

  /**
   A coin-transfer outcome pays out the sum of its two amounts exactly when its recipients differ (or the
   first amount is zero): with one recipient the second entry replaces the first.
   */
  lemma CoinTransferPaysItsSumIff(limit: int, token: Token, first: CoinTransfer, second: CoinTransfer)
    ensures var r := OutcomeIncrements(SingleAssetTwoPartyCoinTransfer, SingleAssetParams(limit, token), SingleAssetOutcome(first, second));
            && r.Ok?
            && (Sum(r.value, token) == first.amount + second.amount <==> first.to != second.to || first.amount == 0)
  {
    var m := FromEntries([(first.to, first.amount), (second.to, second.amount)]);
    var r := [(token, m)];
    IndexIs(r, token, 0);
    var one := Set([], first.to, first.amount);
    assert one == [(first.to, first.amount)];
    assert [(first.to, first.amount), (second.to, second.amount)][..1] == [(first.to, first.amount)];
    FromEntriesOfUnique([(first.to, first.amount)]);
    SingleTotal(first.to, first.amount);
    SingleTotal(second.to, second.amount);
    TotalSet(one, second.to, second.amount);
    PairLookup(first.to, first.amount, first.to + 1, 0, second.to);
  }

  /** A multi-asset outcome pays, for each of the app's tokens, that token's own list of transfers. */
  lemma MultiAssetPays(limits: seq<int>, tokens: seq<Token>, transfers: seq<seq<CoinTransfer>>, i: nat)
    requires i < |tokens| && Distinct(tokens)
    ensures var r := OutcomeIncrements(MultiAssetMultiPartyCoinTransfer, MultiAssetParams(limits, tokens), MultiAssetOutcome(transfers));
            && r.Ok? && Has(r.value, tokens[i])
            && Get(r.value, tokens[i]) == ToMap(if i < |transfers| then transfers[i] else [])
            && Keys(r.value) == tokens
  {
    var s := seq(|tokens|, i requires 0 <= i < |tokens| => (tokens[i], ToMap(TransfersAt(transfers, i))));
    FromEntriesOfUnique(s);
    assert MultiAssetIncrements(tokens, transfers) == s;
    IndexIs(s, tokens[i], i);
  }

  // ---- Withdraw -------------------------------------------------------------------------------

  datatype WithdrawParams = WithdrawParams(
    initiatorXpub: Xpub,
    responderXpub: Xpub,
    multisigAddress: Address,
    recipient: Address,
    amount: int,
    token: Token,
    coinBalanceRefundApp: Address)

  const REFUND_TIMEOUT: nat := 1008

  function RefundApp(env: Environment, c: StateChannel, p: WithdrawParams): AppInstance {
    AppInstance(c.NextSigningKeys(env), REFUND_TIMEOUT, AppInterface(p.coinBalanceRefundApp, RefundEncoding), false,
                c.numProposedApps, RefundState(p.recipient, p.multisigAddress, p.amount), 0, REFUND_TIMEOUT,
                SingleAssetTwoPartyCoinTransfer, SingleAssetParams(MAX_UINT256, p.token))
  }

  function AddRefundApp(env: Environment, c: StateChannel, p: WithdrawParams): Result<StateChannel> {
    var initiator :- c.FreeBalanceAddrOf(env, p.initiatorXpub);
    c.InstallApp(env, RefundApp(env, c, p), [(p.token, [(initiator, p.amount)])])
  }

  function WithdrawalCommitment(env: Environment, c: StateChannel, p: WithdrawParams): Digest {
    WithdrawalDigest(c.multisigAddress, c.MultisigOwners(env), p.recipient, p.amount, p.token)
  }

  lemma ActivatingChangesOnlyFreeBalance(env: Environment, c: StateChannel, h: AppIdHash, increments: TokenIndexedCoinTransferMap)
    requires c.AddActiveAppAndIncrement(env, h, increments).Ok?
    ensures var r := c.AddActiveAppAndIncrement(env, h, increments).value;
            r.freeBalanceApp.Some? && r == c.(freeBalanceApp := r.freeBalanceApp)
  {
  }

  lemma InstallAppStores(env: Environment, c: StateChannel, app: AppInstance, decrements: TokenIndexedCoinTransferMap)
    requires c.InstallApp(env, app, decrements).Ok?
    ensures c.InstallApp(env, app, decrements).value.apps == Set(c.apps, app.IdentityHash(), app)
  {
    var h := app.IdentityHash();
    var proposals := if Has(c.proposals, h) then c.RemoveProposal(h).proposals else c.proposals;
    ActivatingChangesOnlyFreeBalance(env, c.(apps := Set(c.apps, h, app), proposals := proposals), h, FlipTokenIndexed(decrements));
  }

  lemma AddRefundAppInstalls(env: Environment, c: StateChannel, p: WithdrawParams)
    requires AddRefundApp(env, c, p).Ok?
    ensures AddRefundApp(env, c, p).value.apps == Set(c.apps, RefundApp(env, c, p).IdentityHash(), RefundApp(env, c, p))
    ensures AddRefundApp(env, c, p).value.apps != []
  {
    InstallAppStores(env, c, RefundApp(env, c, p), [(p.token, [(c.FreeBalanceAddrOf(env, p.initiatorXpub).value, p.amount)])]);
  }

  /** Install the refund app, then uninstall the app with the largest sequence number, paying nothing. */
  function WithdrawTransition(env: Environment, c: StateChannel, p: WithdrawParams): Result<StateChannel> {
    var c1 :- AddRefundApp(env, c, p);
    AddRefundAppInstalls(env, c, p);
    c1.UninstallApp(env, c1.MostRecentlyInstalled().IdentityHash(), [])
  }
}
