/** The plain form in which channels are stored. A store may hand arrays back with nulls in them, or not at all. */
module Persistence {
  import opened OrderedMaps
  import opened Models
  import opened StateChannels

  datatype TwoPartyFields = TwoPartyFields(playerAddrs: (Address, Address), amount: int, token: Token)
  datatype MultiAssetFields = MultiAssetFields(limits: seq<int>, tokens: seq<Token>)
  datatype SingleAssetFields = SingleAssetFields(limit: int, token: Token)

  datatype AppInstanceJson = AppInstanceJson(
    participants: seq<Address>,
    defaultTimeout: nat,
    appInterface: AppInterface,
    isVirtualApp: bool,
    appSeqNo: nat,
    latestState: AppState,
    latestVersionNumber: nat,
    latestTimeout: nat,
    outcomeType: OutcomeType,
    twoPartyOutcome: Option<TwoPartyFields>,
    multiAsset: Option<MultiAssetFields>,
    singleAsset: Option<SingleAssetFields>,
    identityHash: AppIdHash)

  function AppToJson(app: AppInstance): AppInstanceJson {
    AppInstanceJson(
      app.participants, app.defaultTimeout, app.appInterface, app.isVirtualApp, app.appSeqNo, app.latestState,
      app.latestVersionNumber, app.latestTimeout, app.outcomeType,
      match app.params case TwoPartyParams(token, one, two, amount) => Some(TwoPartyFields((one, two), amount, token)) case _ => None,
      match app.params case MultiAssetParams(limits, tokens) => Some(MultiAssetFields(limits, tokens)) case _ => None,
      match app.params case SingleAssetParams(limit, token) => Some(SingleAssetFields(limit, token)) case _ => None,
      app.IdentityHash())
  }

  /** The stored identity hash is not read back: it is computed again. */
  function AppFromJson(j: AppInstanceJson): AppInstance {
    AppInstance(
      j.participants, j.defaultTimeout, j.appInterface, j.isVirtualApp, j.appSeqNo, j.latestState,
      j.latestVersionNumber, j.latestTimeout, j.outcomeType,
      if j.twoPartyOutcome.Some? then
        var f := j.twoPartyOutcome.value; TwoPartyParams(f.token, f.playerAddrs.0, f.playerAddrs.1, f.amount)
      else if j.multiAsset.Some? then MultiAssetParams(j.multiAsset.value.limits, j.multiAsset.value.tokens)
      else if j.singleAsset.Some? then SingleAssetParams(j.singleAsset.value.limit, j.singleAsset.value.token)
      else NoParams)
  }

  lemma AppRoundTrip(app: AppInstance)
    ensures AppFromJson(AppToJson(app)) == app
    ensures AppToJson(app).identityHash == AppFromJson(AppToJson(app)).IdentityHash()
  {
  }

  /** `setState` builds the new instance by overwriting three fields of the plain form. */
  function SetStateThroughJson(app: AppInstance, state: AppState): Result<AppInstance> {
    if !Encodes(app.appInterface.stateEncoding, state) then Err(InvalidState)
    else Ok(AppFromJson(AppToJson(app).(
      latestState := state, latestVersionNumber := app.latestVersionNumber + 1, latestTimeout := app.defaultTimeout)))
  }

  lemma SetStateIsDirect(app: AppInstance, state: AppState)
    ensures SetStateThroughJson(app, state) == app.SetState(state)
  {
  }

  type JsonArray<T> = Option<seq<Option<T>>>

  datatype StateChannelJson = StateChannelJson(
    multisigAddress: Address,
    userNeuteredExtendedKeys: seq<Xpub>,
    proposedAppInstances: JsonArray<(AppIdHash, Proposal)>,
    appInstances: JsonArray<(AppIdHash, AppInstanceJson)>,
    freeBalanceAppInstance: Option<AppInstanceJson>,
    monotonicNumProposedApps: nat,
    agreements: JsonArray<(AppIdHash, Agreement)>)

  function Present<T>(s: seq<T>): (r: seq<Option<T>>)
    ensures |r| == |s| && forall i :: 0 <= i < |s| ==> r[i] == Some(s[i])
  {
    seq(|s|, i requires 0 <= i < |s| => Some(s[i]))
  }

  function AppEntriesToJson(apps: Entries<AppIdHash, AppInstance>): (r: seq<(AppIdHash, AppInstanceJson)>)
    ensures |r| == |apps| && forall i :: 0 <= i < |r| ==> r[i] == (apps[i].0, AppToJson(apps[i].1))
  {
    seq(|apps|, i requires 0 <= i < |apps| => (apps[i].0, AppToJson(apps[i].1)))
  }

  function AppEntriesFromJson(s: seq<(AppIdHash, AppInstanceJson)>): (r: Entries<AppIdHash, AppInstance>)
    ensures |r| == |s| && forall i :: 0 <= i < |r| ==> r[i] == (s[i].0, AppFromJson(s[i].1))
  {
    seq(|s|, i requires 0 <= i < |s| => (s[i].0, AppFromJson(s[i].1)))
  }

  function ToJson(c: StateChannel): StateChannelJson {
    StateChannelJson(
      c.multisigAddress, c.xpubs, Some(Present(c.proposals)), Some(Present(AppEntriesToJson(c.apps))),
      if c.freeBalanceApp.Some? then Some(AppToJson(c.freeBalanceApp.value)) else None,
      c.numProposedApps, Some(Present(c.agreements)))
  }

  function DropNulls<T>(s: seq<Option<T>>): seq<T> {
    if s == [] then [] else (if s[0].Some? then [s[0].value] else []) + DropNulls(s[1..])
  }

  function Elements<T>(a: JsonArray<T>): seq<T> {
    if a.Some? then DropNulls(a.value) else []
  }

  predicate HasNull<T>(a: JsonArray<T>) {
    a.Some? && exists i :: 0 <= i < |a.value| && a.value[i].None?
  }

  /** Nulls are dropped from proposals and apps; a null agreement makes the `Map` constructor throw. */
  function FromJson(j: StateChannelJson): Result<StateChannel> {
    if HasNull(j.agreements) then Err(InvalidState)
    else Ok(StateChannel(
      j.multisigAddress, j.userNeuteredExtendedKeys, FromEntries(Elements(j.proposedAppInstances)),
      FromEntries(AppEntriesFromJson(Elements(j.appInstances))), FromEntries(Elements(j.agreements)),
      if j.freeBalanceAppInstance.Some? then Some(AppFromJson(j.freeBalanceAppInstance.value)) else None,
      j.monotonicNumProposedApps))
  }

  /** A null among proposals or apps is as good as absent; one among agreements makes reading throw, and nothing else does. */
  lemma NullsAreDropped(j: StateChannelJson, a: seq<Option<(AppIdHash, Proposal)>>, b: seq<Option<(AppIdHash, Proposal)>>,
                        c: seq<Option<(AppIdHash, AppInstanceJson)>>, d: seq<Option<(AppIdHash, AppInstanceJson)>>)
    ensures FromJson(j.(proposedAppInstances := Some(a + [None] + b))) == FromJson(j.(proposedAppInstances := Some(a + b)))
    ensures FromJson(j.(appInstances := Some(c + [None] + d))) == FromJson(j.(appInstances := Some(c + d)))
    ensures FromJson(j).Err? <==> j.agreements.Some? && None in j.agreements.value
  {
    DropNullIn(a, b);
    DropNullIn(c, d);
  }

  lemma {:induction false} DropNullIn<T>(a: seq<Option<T>>, b: seq<Option<T>>)
    ensures DropNulls(a + [None] + b) == DropNulls(a + b)
  {
    if a == [] {
      assert a + [None] + b == [None] + b && a + b == b && ([None] + b)[1..] == b;
    } else {
      assert (a + [None] + b)[1..] == a[1..] + [None] + b && (a + b)[1..] == a[1..] + b;
      DropNullIn(a[1..], b);
    }
  }

  lemma {:induction false} DropNothing<T>(s: seq<T>)
    ensures DropNulls(Present(s)) == s
  {
    if s != [] {
      assert Present(s)[1..] == Present(s[1..]);
      DropNothing(s[1..]);
    }
  }

  /** The same stored channel, except that the store may have put nulls among proposals and apps. */
  predicate SameButNulls(j: StateChannelJson, k: StateChannelJson) {
    && Elements(j.proposedAppInstances) == Elements(k.proposedAppInstances)
    && Elements(j.appInstances) == Elements(k.appInstances)
    && j.(proposedAppInstances := k.proposedAppInstances, appInstances := k.appInstances) == k
  }

  lemma ReadsElements(c: StateChannel)
    ensures var k := ToJson(c);
            && Elements(k.proposedAppInstances) == c.proposals && Elements(k.agreements) == c.agreements
            && AppEntriesFromJson(Elements(k.appInstances)) == c.apps && !HasNull(k.agreements)
  {
    DropNothing(c.proposals);
    DropNothing(AppEntriesToJson(c.apps));
    DropNothing(c.agreements);
    AppsRoundTrip(c.apps);
  }

  lemma ReadsFreeBalance(c: StateChannel)
    ensures var f := ToJson(c).freeBalanceAppInstance;
            (if f.Some? then Some(AppFromJson(f.value)) else None) == c.freeBalanceApp
  {
    if c.freeBalanceApp.Some? { AppRoundTrip(c.freeBalanceApp.value); }
  }

  /** What a stored channel reads back as. */
  lemma ReadsBack(c: StateChannel, j: StateChannelJson)
    requires SameButNulls(j, ToJson(c))
    ensures FromJson(j) == Ok(c.(proposals := FromEntries(c.proposals), apps := FromEntries(c.apps), agreements := FromEntries(c.agreements)))
  {
    ReadsElements(c);
    ReadsFreeBalance(c);
    assert j.agreements == ToJson(c).agreements && j.freeBalanceAppInstance == ToJson(c).freeBalanceAppInstance;
  }

  /**
   A channel reads back as it was written, with or without a free balance and however many nulls the
   store adds, exactly when none of its maps repeats a key.
   */
  lemma RoundTripIff(c: StateChannel, j: StateChannelJson)
    requires SameButNulls(j, ToJson(c))
    ensures FromJson(j) == Ok(c) <==> Unique(c.proposals) && Unique(c.apps) && Unique(c.agreements)
  {
    ReadsBack(c, j);
    UniqueIffRebuilt(c.proposals);
    UniqueIffRebuilt(c.apps);
    UniqueIffRebuilt(c.agreements);
  }

  lemma UniqueIffRebuilt<V>(m: Entries<AppIdHash, V>)
    ensures FromEntries(m) == m <==> Unique(m)
  {
    if Unique(m) { FromEntriesOfUnique(m); }
  }

  lemma AppsRoundTrip(apps: Entries<AppIdHash, AppInstance>)
    ensures AppEntriesFromJson(AppEntriesToJson(apps)) == apps
  {
    var s := AppEntriesToJson(apps);
    forall i | 0 <= i < |apps| ensures AppEntriesFromJson(s)[i] == apps[i] {
      AppRoundTrip(apps[i].1);
    }
  }
}
