/** Channels and their transitions. A channel is a value: every transition builds a new one. */
module StateChannels {
  import opened OrderedMaps
  import opened Models
  import opened FreeBalances
  import Sorting

  datatype Proposal = Proposal(
    identityHash: AppIdHash,
    appDefinition: Address,
    stateEncoding: StateEncoding,
    initiatorDeposit: int,
    initiatorDepositToken: Token,
    responderDeposit: int,
    responderDepositToken: Token,
    timeout: nat,
    initialState: AppState,
    appSeqNo: nat,
    proposedBy: Xpub,
    proposedTo: Xpub,
    outcomeType: OutcomeType)

  datatype Agreement = Agreement(
    token: Token,
    timeLockedPassThroughIdentityHash: AppIdHash,
    capitalProvided: int,
    capitalProvider: Address,
    virtualAppUser: Address)

  datatype StateChannel = StateChannel(
    multisigAddress: Address,
    xpubs: seq<Xpub>,
    proposals: Entries<AppIdHash, Proposal>,
    apps: Entries<AppIdHash, AppInstance>,
    agreements: Entries<AppIdHash, Agreement>,
    freeBalanceApp: Option<AppInstance>,
    numProposedApps: nat)
  {
    function SigningKeysFor(env: Environment, k: nat): seq<Address> {
      env.SortedKthAddresses(xpubs, k)
    }

    function NextSigningKeys(env: Environment): seq<Address> {
      SigningKeysFor(env, numProposedApps)
    }

    function MultisigOwners(env: Environment): seq<Address> {
      SigningKeysFor(env, 0)
    }

    function GetAppInstance(h: AppIdHash): Result<AppInstance> {
      if Has(apps, h) then Ok(Get(apps, h)) else Err(AppDoesNotExist)
    }

    /** The installed app with the largest sequence number; the earliest of them on a tie. */
    function MostRecentlyInstalled(): AppInstance
      requires apps != []
    {
      MostRecentApp(apps)
    }

    function MostRecentlyProposed(): Proposal
      requires proposals != []
    {
      MostRecentProposal(proposals)
    }

    function FreeBalanceAddrOf(env: Environment, xpub: Xpub): Result<Address> {
      if freeBalanceApp.None? then Err(FreeBalanceMissing)
      else
        var key, owners := env.kth(xpub, 0), freeBalanceApp.value.participants;
        if (|owners| > 0 && key == owners[0]) || (|owners| > 1 && key == owners[1]) then Ok(key)
        else Err(UnknownXpub)
    }

    function GetFreeBalance(env: Environment): Result<FreeBalance> {
      if freeBalanceApp.None? then Err(FreeBalanceMissing)
      else if !freeBalanceApp.value.latestState.FreeBalanceState? then Err(FreeBalanceCorrupt)
      else Deserialize(env, freeBalanceApp.value.latestState.json)
    }

    function SetFreeBalance(fb: FreeBalance): Result<StateChannel> {
      if freeBalanceApp.None? then Err(FreeBalanceMissing)
      else
        var app :- freeBalanceApp.value.SetState(FreeBalanceState(Serialize(fb)));
        Ok(this.(freeBalanceApp := Some(app)))
    }

    function IncrementFreeBalance(env: Environment, increments: TokenIndexedCoinTransferMap): Result<StateChannel> {
      var fb :- GetFreeBalance(env);
      var fb' :- Incremented(fb, increments);
      SetFreeBalance(fb')
    }

    function AddActiveApp(env: Environment, h: AppIdHash): Result<StateChannel> {
      var fb :- GetFreeBalance(env);
      SetFreeBalance(fb.(activeApps := AddActive(fb.activeApps, h)))
    }

    function RemoveActiveApp(env: Environment, h: AppIdHash): Result<StateChannel> {
      var fb :- GetFreeBalance(env);
      SetFreeBalance(fb.(activeApps := RemoveActive(fb.activeApps, h)))
    }

    function AddActiveAppAndIncrement(env: Environment, h: AppIdHash, increments: TokenIndexedCoinTransferMap): Result<StateChannel> {
      var c :- IncrementFreeBalance(env, increments);
      c.AddActiveApp(env, h)
    }

    function RemoveActiveAppAndIncrement(env: Environment, h: AppIdHash, increments: TokenIndexedCoinTransferMap): Result<StateChannel> {
      var c :- RemoveActiveApp(env, h);
      c.IncrementFreeBalance(env, increments)
    }

    function AddProposal(p: Proposal): StateChannel {
      this.(proposals := Set(proposals, p.identityHash, p), numProposedApps := numProposedApps + 1)
    }

    function RemoveProposal(h: AppIdHash): StateChannel {
      this.(proposals := Delete(proposals, h))
    }

    function AddAppInstance(app: AppInstance): StateChannel {
      this.(apps := Set(apps, app.IdentityHash(), app), numProposedApps := numProposedApps + 1)
    }

    function RemoveAppInstance(h: AppIdHash): StateChannel {
      this.(apps := Delete(apps, h))
    }

    function SetState(h: AppIdHash, state: AppState): Result<StateChannel> {
      var app :- GetAppInstance(h);
      var app' :- app.SetState(state);
      Ok(this.(apps := Set(apps, h, app')))
    }

    function GetAgreement(h: AppIdHash): Result<Agreement> {
      if Has(agreements, h) then Ok(Get(agreements, h)) else Err(AgreementMissing)
    }

    function AddAgreement(env: Environment, target: AppIdHash, agreement: Agreement, decrements: CoinTransferMap, token: Token): Result<StateChannel> {
      this.(agreements := Set(agreements, target, agreement))
      .AddActiveAppAndIncrement(env, target, [(token, Flip(decrements))])
    }

    function RemoveAgreement(env: Environment, target: AppIdHash, increments: CoinTransferMap, token: Token): Result<StateChannel> {
      if !Has(agreements, target) then Err(AgreementMissing)
      else
        this.(agreements := Delete(agreements, target))
        .RemoveActiveAppAndIncrement(env, target, [(token, increments)])
    }

    function InstallApp(env: Environment, app: AppInstance, decrements: TokenIndexedCoinTransferMap): Result<StateChannel> {
      if !(SigningKeysFor(env, app.appSeqNo) <= app.participants) then Err(WrongParticipants)
      else
        var h := app.IdentityHash();
        this.(apps := Set(apps, h, app),
              proposals := if Has(proposals, h) then RemoveProposal(h).proposals else proposals)
        .AddActiveAppAndIncrement(env, h, FlipTokenIndexed(decrements))
    }

    function UninstallApp(env: Environment, h: AppIdHash, increments: TokenIndexedCoinTransferMap): Result<StateChannel> {
      var app :- GetAppInstance(h);
      if app.IdentityHash() != h then Err(Inconsistent)
      else this.(apps := Delete(apps, h)).RemoveActiveAppAndIncrement(env, h, increments)
    }
  }

  function MostRecentApp(apps: Entries<AppIdHash, AppInstance>): AppInstance
    requires apps != []
  {
    if |apps| == 1 then apps[0].1
    else
      var prev, current := MostRecentApp(apps[..|apps| - 1]), apps[|apps| - 1].1;
      if current.appSeqNo > prev.appSeqNo then current else prev
  }

  function MostRecentProposal(proposals: Entries<AppIdHash, Proposal>): Proposal
    requires proposals != []
  {
    if |proposals| == 1 then proposals[0].1
    else
      var prev, current := MostRecentProposal(proposals[..|proposals| - 1]), proposals[|proposals| - 1].1;
      if current.appSeqNo > prev.appSeqNo then current else prev
  }

  function CreateEmptyChannel(multisigAddress: Address, xpubs: seq<Xpub>): StateChannel {
    StateChannel(multisigAddress, xpubs, [], [], [], None, 1)
  }

  const FREE_BALANCE_TIMEOUT: nat := 172800

  function CreateFreeBalance(env: Environment, xpubs: seq<Xpub>, coinBucket: Address, timeout: nat): AppInstance
    requires |xpubs| == 2
  {
    var keys := env.SortedKthAddresses(xpubs, 0);
    Sorting.SortSorts(env.rank, env.KthAddresses(xpubs, 0));
    var initial := FreeBalance([], [(ETH_TOKEN, [CoinTransfer(keys[0], 0), CoinTransfer(keys[1], 0)])]);
    AppInstance(keys, timeout, AppInterface(coinBucket, FreeBalanceEncoding), false, 0,
                FreeBalanceState(Serialize(initial)), 0, FREE_BALANCE_TIMEOUT,
                MultiAssetMultiPartyCoinTransfer, NoParams)
  }

  function SetupChannel(env: Environment, coinBucket: Address, multisigAddress: Address, xpubs: seq<Xpub>): StateChannel
    requires |xpubs| == 2
  {
    StateChannel(multisigAddress, xpubs, [], [], [],
                 Some(CreateFreeBalance(env, xpubs, coinBucket, FREE_BALANCE_TIMEOUT)), 1)
  }

  /** The channel's free-balance app stores exactly `fb`, in canonical form. */
  ghost predicate Holds(env: Environment, c: StateChannel, fb: FreeBalance) {
    && c.freeBalanceApp.Some?
    && c.freeBalanceApp.value.appInterface.stateEncoding == FreeBalanceEncoding
    && c.freeBalanceApp.value.latestState == FreeBalanceState(Serialize(fb))
    && Canonical(env, fb)
  }

  /** The free-balance app `n` versions later, storing `fb`. */
  function Advanced(app: AppInstance, fb: FreeBalance, n: nat): AppInstance {
    app.(latestState := FreeBalanceState(Serialize(fb)),
         latestVersionNumber := app.latestVersionNumber + n,
         latestTimeout := app.defaultTimeout)
  }

  function WithFreeBalance(c: StateChannel, fb: FreeBalance, n: nat): StateChannel
    requires c.freeBalanceApp.Some?
  {
    c.(freeBalanceApp := Some(Advanced(c.freeBalanceApp.value, fb, n)))
  }

  lemma ReadsWhatItHolds(env: Environment, c: StateChannel, fb: FreeBalance)
    requires Holds(env, c, fb)
    ensures c.GetFreeBalance(env) == Ok(fb)
  {
    SerializationRoundTrip(env, fb);
  }

  /** The free balance a channel's app state reads back to. */
  ghost function Fb(env: Environment, c: StateChannel): FreeBalance {
    match c.GetFreeBalance(env) case Ok(fb) => fb case Err(_) => FreeBalance([], [])
  }

  /** A channel with a free balance in canonical form. */
  ghost predicate Direct(env: Environment, c: StateChannel) {
    Holds(env, c, Fb(env, c))
  }

  ghost function BalanceOf(env: Environment, c: StateChannel, t: Token, a: Address): int {
    Balance(Fb(env, c), t, a)
  }

  ghost function HeldBy(env: Environment, c: StateChannel, t: Token): int {
    Held(Fb(env, c), t)
  }

  function Version(c: StateChannel): nat
    requires c.freeBalanceApp.Some?
  {
    c.freeBalanceApp.value.latestVersionNumber
  }

  lemma HoldsIsDirect(env: Environment, c: StateChannel, fb: FreeBalance)
    requires Holds(env, c, fb)
    ensures Direct(env, c) && Fb(env, c) == fb
  {
    ReadsWhatItHolds(env, c, fb);
  }

  lemma ActiveKeepsCanonical(env: Environment, fb: FreeBalance, h: AppIdHash)
    requires Canonical(env, fb)
    ensures Canonical(env, fb.(activeApps := AddActive(fb.activeApps, h)))
    ensures Canonical(env, fb.(activeApps := RemoveActive(fb.activeApps, h)))
  {
    ActiveSets(fb.activeApps, h, h);
  }

  /** Activating an app moves the free balance two versions ahead, or fails when it overdraws. */
  lemma AddActiveEffect(env: Environment, c: StateChannel, fb: FreeBalance, h: AppIdHash, increments: TokenIndexedCoinTransferMap)
    requires Holds(env, c, fb) && ChecksummedIncrements(env, increments)
    ensures var r, i := c.AddActiveAppAndIncrement(env, h, increments), Incremented(fb, increments);
            && (r.Ok? <==> i.Ok?)
            && (i.Ok? ==>
                  var fb' := i.value.(activeApps := AddActive(fb.activeApps, h));
                  Canonical(env, fb') && r == Ok(WithFreeBalance(c, fb', 2)))
  {
    ReadsWhatItHolds(env, c, fb);
    if Incremented(fb, increments).Ok? {
      IncrementKeepsCanonical(env, fb, increments);
      IncrementKeepsActive(fb, increments);
      var fb1 := Incremented(fb, increments).value;
      ReadsWhatItHolds(env, WithFreeBalance(c, fb1, 1), fb1);
      ActiveKeepsCanonical(env, fb1, h);
    }
  }

  lemma {:induction false} IncrementKeepsActive(fb: FreeBalance, increments: TokenIndexedCoinTransferMap)
    requires Incremented(fb, increments).Ok?
    ensures Incremented(fb, increments).value.activeApps == fb.activeApps
  {
    if increments != [] {
      IncrementKeepsActive(fb, increments[..|increments| - 1]);
    }
  }

  lemma RemoveActiveEffect(env: Environment, c: StateChannel, fb: FreeBalance, h: AppIdHash, increments: TokenIndexedCoinTransferMap)
    requires Holds(env, c, fb) && ChecksummedIncrements(env, increments)
    ensures var fb1 := fb.(activeApps := RemoveActive(fb.activeApps, h));
            var r, i := c.RemoveActiveAppAndIncrement(env, h, increments), Incremented(fb1, increments);
            && (r.Ok? <==> i.Ok?)
            && (i.Ok? ==> Canonical(env, i.value) && r == Ok(WithFreeBalance(c, i.value, 2)))
  {
    var fb1 := fb.(activeApps := RemoveActive(fb.activeApps, h));
    ReadsWhatItHolds(env, c, fb);
    ActiveKeepsCanonical(env, fb, h);
    ReadsWhatItHolds(env, WithFreeBalance(c, fb1, 1), fb1);
    if Incremented(fb1, increments).Ok? {
      IncrementKeepsCanonical(env, fb1, increments);
    }
  }

  /**
   The free balance is changed through a mutable object read from the channel. A failing increment
   leaves that object half written; the channel it was read from is a value and keeps every balance.
   */
  method IncrementThroughObject(env: Environment, c: StateChannel, increments: TokenIndexedCoinTransferMap)
    returns (r: Result<StateChannel>)
    ensures r == c.IncrementFreeBalance(env, increments)
  {
    var read := c.GetFreeBalance(env);
    if read.Err? {
      return Err(read.error);
    }
    var mutable := new FreeBalanceClass(read.value);
    var thrown := mutable.Increment(increments);
    if thrown {
      OnlyNegativeBalance(read.value, increments);
      return Err(NegativeBalance);
    }
    var app := mutable.ToAppInstance(c.freeBalanceApp.value);
    if app.Err? {
      return Err(app.error);
    }
    return Ok(c.(freeBalanceApp := Some(app.value)));
  }

  lemma {:induction false} OnlyNegativeBalance(fb: FreeBalance, increments: TokenIndexedCoinTransferMap)
    requires Incremented(fb, increments).Err?
    ensures Incremented(fb, increments) == Err(NegativeBalance)
  {
    if Incremented(fb, increments[..|increments| - 1]).Err? {
      OnlyNegativeBalance(fb, increments[..|increments| - 1]);
    }
  }
}
