/**
 Two parties move an installed app from state to state by update and take-action, each over its own
 store, with any run abandoned at any point by either side.
 */
module AppDesync {
  import opened OrderedMaps
  import opened Models
  import opened StateChannels
  import opened Protocols
  import opened Choreography
  import opened Scripts
  import opened ProtocolRuns
  import opened StaticChecks

  /** `update` names the new state; `take-action` names an action and each side computes the state itself. */
  datatype Change = Update(state: AppState) | TakeAction(action: Action)

  function NextState(env: Environment, app: AppInstance, change: Change): Result<AppState> {
    match change
    case Update(state) => Ok(state)
    case TakeAction(action) =>
      match env.applyAction(app.appInterface.addr, app.latestState, action)
      case Some(state) => Ok(state)
      case None => Err(InvalidState)
  }

  function Post(env: Environment, c: StateChannel, h: AppIdHash, change: Change): Result<StateChannel> {
    var app :- c.GetAppInstance(h);
    var state :- NextState(env, app, change);
    c.SetState(h, state)
  }

  function Commitment(r: Result<StateChannel>, h: AppIdHash): Digest {
    if r.Ok? && r.value.GetAppInstance(h).Ok? then SetStateCommitment(r.value.GetAppInstance(h).value) else OtherDigest(0)
  }

  datatype Session = Session(change: Change, users: (Xpub, Xpub), firstInitiates: bool, steps: seq<Step>)

  datatype Stores = Stores(first: StateChannel, second: StateChannel)

  function StoreOf(s: Stores, x: Session, role: Role): StateChannel {
    if (role == Initiator) == x.firstInitiates then s.first else s.second
  }

  /** Signatures on an app's state are made with the key of its sequence number. */
  function RunFrom(env: Environment, s: Stores, h: AppIdHash, x: Session): Run {
    Run(UpdateProtocol(),
        (v: Var) => env.kth(if v.signer == Initiator then x.users.0 else x.users.1, h.channelNonce),
        (role: Role, doc) => if doc == Doc.AppState then Commitment(Post(env, StoreOf(s, x, role), h, x.change), h) else OtherDigest(0),
        (role: Role) => Post(env, StoreOf(s, x, role), h, x.change).Ok?)
  }

  ghost predicate Happens(env: Environment, s: Stores, h: AppIdHash, x: Session) {
    Faithful(x.steps) && Execute(RunFrom(env, s, h, x), x.steps).Some?
  }

  function Persisted(env: Environment, s: Stores, h: AppIdHash, x: Session, role: Role): bool {
    match Execute(RunFrom(env, s, h, x), x.steps)
    case None => false
    case Some(end) => role in end.locals && end.locals[role].persisted
  }

  function Kept(env: Environment, s: Stores, h: AppIdHash, x: Session, role: Role): StateChannel {
    match Post(env, StoreOf(s, x, role), h, x.change)
    case Ok(c) => if Persisted(env, s, h, x, role) then c else StoreOf(s, x, role)
    case Err(_) => StoreOf(s, x, role)
  }

  function After(env: Environment, s: Stores, h: AppIdHash, x: Session): Stores {
    if x.firstInitiates then Stores(Kept(env, s, h, x, Initiator), Kept(env, s, h, x, Responder))
    else Stores(Kept(env, s, h, x, Responder), Kept(env, s, h, x, Initiator))
  }

  function History(env: Environment, s: Stores, h: AppIdHash, xs: seq<Session>): Stores {
    if xs == [] then s else After(env, History(env, s, h, xs[..|xs| - 1]), h, xs[|xs| - 1])
  }

  ghost predicate AllHappen(env: Environment, s: Stores, h: AppIdHash, xs: seq<Session>) {
    xs == [] || (AllHappen(env, s, h, xs[..|xs| - 1]) && Happens(env, History(env, s, h, xs[..|xs| - 1]), h, xs[|xs| - 1]))
  }

  predicate BothHave(s: Stores, h: AppIdHash) {
    Has(s.first.apps, h) && Has(s.second.apps, h)
  }

  function VersionOf(c: StateChannel, h: AppIdHash): nat
    requires Has(c.apps, h)
  {
    Get(c.apps, h).latestVersionNumber
  }

  predicate AppsAgree(s: Stores, h: AppIdHash)
    requires BothHave(s, h)
  {
    Get(s.first.apps, h) == Get(s.second.apps, h)
  }

  /** A change moves the app one version ahead; the commitment fixes the new copy up to what no change touches. */
  lemma PostEffect(env: Environment, c: StateChannel, h: AppIdHash, change: Change)
    requires Post(env, c, h, change).Ok?
    ensures var c' := Post(env, c, h, change).value;
            && Has(c.apps, h) && Has(c'.apps, h)
            && Get(c'.apps, h) == Get(c.apps, h).(
                 latestState := Get(c'.apps, h).latestState,
                 latestVersionNumber := VersionOf(c, h) + 1,
                 latestTimeout := Get(c.apps, h).defaultTimeout)
            && (match change
                case Update(state) => Get(c'.apps, h).latestState == state
                case TakeAction(action) =>
                  Some(Get(c'.apps, h).latestState) == env.applyAction(Get(c.apps, h).appInterface.addr, Get(c.apps, h).latestState, action))
            && Commitment(Post(env, c, h, change), h) == SetStateCommitment(Get(c'.apps, h))
  {
    ChangeEffect(env, c, h, change, h);
    SetGet(c.apps, h, Get(c.apps, h).SetState(NextState(env, Get(c.apps, h), change).value).value, h);
  }

  /**
   A change fails exactly when there is no such app, the action is not allowed, or the new state does not
   encode. Otherwise the app's state is the one the update names, or the one the app's contract computes
   from its old state and the action; no other app and nothing else in the channel is touched.
   */
  lemma ChangeEffect(env: Environment, c: StateChannel, h: AppIdHash, change: Change, k: AppIdHash)
    ensures Post(env, c, h, change).Ok? <==> Has(c.apps, h) && EncodesNext(env, Get(c.apps, h), change)
    ensures Post(env, c, h, change).Ok? ==>
              var c', app := Post(env, c, h, change).value, Get(c.apps, h);
              && Has(c'.apps, h) && c' == c.(apps := c'.apps)
              && (match change
                  case Update(state) => Get(c'.apps, h).latestState == state
                  case TakeAction(action) => Some(Get(c'.apps, h).latestState) == env.applyAction(app.appInterface.addr, app.latestState, action))
              && (k != h ==> (Has(c'.apps, k) <==> Has(c.apps, k)) && (Has(c.apps, k) ==> Get(c'.apps, k) == Get(c.apps, k)))
  {
    if Post(env, c, h, change).Ok? {
      var app := Get(c.apps, h).SetState(NextState(env, Get(c.apps, h), change).value).value;
      SetGet(c.apps, h, app, h);
      SetGet(c.apps, h, app, k);
    }
  }

  /** The app admits the change, and its new state encodes. */
  predicate EncodesNext(env: Environment, app: AppInstance, change: Change) {
    match change
    case Update(state) => Encodes(app.appInterface.stateEncoding, state)
    case TakeAction(action) =>
      var next := env.applyAction(app.appInterface.addr, app.latestState, action);
      next.Some? && Encodes(app.appInterface.stateEncoding, next.value)
  }

  lemma PersistingNeedsAgreement(env: Environment, s: Stores, h: AppIdHash, x: Session, role: Role)
    requires Happens(env, s, h, x) && Persisted(env, s, h, x, role)
    ensures role != Intermediary
    ensures var a, b := Post(env, StoreOf(s, x, Initiator), h, x.change), Post(env, StoreOf(s, x, Responder), h, x.change);
            a.Ok? && b.Ok? && Commitment(a, h) == Commitment(b, h)
  {
    var run := RunFrom(env, s, h, x);
    ScriptFacts();
    PersistedComputes(run, x.steps, role);
    var v := if role == Initiator then Res(Doc.AppState) else Ini(Doc.AppState);
    PersistedMeansAgreed(run, x.steps, role, v);
    SharedCommitment(env, StoreOf(s, x, role), StoreOf(s, x, v.signer), h, x.change);
  }

  lemma ScriptFacts()
    ensures WellFormed(UpdateProtocol()) && forall r: Role :: PersistsCountersigned(UpdateProtocol().Of(r))
    ensures UpdateProtocol().initiator.saves == [Res(Doc.AppState)] && UpdateProtocol().responder.saves == [Ini(Doc.AppState)]
    ensures UpdateProtocol().intermediary == NO_ROLE
  {
    EveryProtocolIsWellFormed(UpdateProtocol());
    OneRoundIsCountersigned(Doc.AppState);
  }

  lemma SharedCommitment(env: Environment, mine: StateChannel, theirs: StateChannel, h: AppIdHash, change: Change)
    requires Post(env, mine, h, change).Ok?
    ensures Commitment(Post(env, mine, h, change), h) == Commitment(Post(env, theirs, h, change), h) ==> Post(env, theirs, h, change).Ok?
  {
    PostEffect(env, mine, h, change);
  }

  lemma ResponderPersistsFirst(env: Environment, s: Stores, h: AppIdHash, x: Session)
    requires Happens(env, s, h, x) && Persisted(env, s, h, x, Initiator)
    ensures Persisted(env, s, h, x, Responder)
  {
    ScriptFacts();
    UpdateResponderPersistsFirst();
    PersistOrder(RunFrom(env, s, h, x), x.steps, Responder, Initiator, 1);
  }

  /** One run from equal copies leaves them equal, or puts the responder's exactly one version ahead. */
  lemma OneRunFromAgreement(env: Environment, s: Stores, h: AppIdHash, x: Session)
    requires Happens(env, s, h, x) && BothHave(s, h) && AppsAgree(s, h)
    ensures var t := After(env, s, h, x);
            && BothHave(t, h)
            && (AppsAgree(t, h) || VersionOf(StoreOf(t, x, Responder), h) == VersionOf(StoreOf(t, x, Initiator), h) + 1)
  {
    if Persisted(env, s, h, x, Responder) {
      PersistingNeedsAgreement(env, s, h, x, Responder);
      PostEffect(env, StoreOf(s, x, Initiator), h, x.change);
      PostEffect(env, StoreOf(s, x, Responder), h, x.change);
    } else if Persisted(env, s, h, x, Initiator) {
      ResponderPersistsFirst(env, s, h, x);
    }
  }

  lemma NoRunAcrossVersions(env: Environment, s: Stores, h: AppIdHash, x: Session)
    requires Happens(env, s, h, x) && BothHave(s, h) && VersionOf(s.first, h) != VersionOf(s.second, h)
    ensures After(env, s, h, x) == s
  {
    forall role: Role | role != Intermediary ensures !Persisted(env, s, h, x, role) {
      if Persisted(env, s, h, x, role) {
        PersistingNeedsAgreement(env, s, h, x, role);
        PostEffect(env, StoreOf(s, x, Initiator), h, x.change);
        PostEffect(env, StoreOf(s, x, Responder), h, x.change);
      }
    }
  }

  /**
   Over every history of updates and actions the two copies of the app are equal or one version apart,
   and once they are apart no later update or action is persisted on either side.
   */
  lemma {:induction false} AppDesyncIsBoundedAndFinal(env: Environment, s: Stores, h: AppIdHash, xs: seq<Session>, n: nat)
    requires AllHappen(env, s, h, xs) && BothHave(s, h) && AppsAgree(s, h) && n <= |xs|
    ensures var t, early := History(env, s, h, xs), History(env, s, h, xs[..n]);
            && BothHave(t, h) && BothHave(early, h)
            && (AppsAgree(t, h) || VersionOf(t.first, h) == VersionOf(t.second, h) + 1 || VersionOf(t.second, h) == VersionOf(t.first, h) + 1)
            && (VersionOf(early.first, h) != VersionOf(early.second, h) ==> t == early)
  {
    if xs != [] {
      var p, x := xs[..|xs| - 1], xs[|xs| - 1];
      var t := History(env, s, h, p);
      if n == |xs| {
        assert xs[..n] == xs;
        AppDesyncIsBoundedAndFinal(env, s, h, p, 0);
      } else {
        assert p[..n] == xs[..n];
        AppDesyncIsBoundedAndFinal(env, s, h, p, n);
      }
      if AppsAgree(t, h) {
        OneRunFromAgreement(env, t, h, x);
      } else {
        NoRunAcrossVersions(env, t, h, x);
      }
    }
  }

  // ---- Undisturbed runs -----------------------------------------------------------------------

  lemma SameAppSameCommitment(env: Environment, c: StateChannel, d: StateChannel, h: AppIdHash, change: Change)
    requires Has(c.apps, h) && Has(d.apps, h) && Get(c.apps, h) == Get(d.apps, h) && Post(env, c, h, change).Ok?
    ensures Post(env, d, h, change).Ok? && Commitment(Post(env, c, h, change), h) == Commitment(Post(env, d, h, change), h)
    ensures var c', d' := Post(env, c, h, change).value, Post(env, d, h, change).value;
            Has(c'.apps, h) && Has(d'.apps, h) && Get(c'.apps, h) == Get(d'.apps, h)
  {
    PostEffect(env, c, h, change);
    PostEffect(env, d, h, change);
  }

  /**
   From equal copies of the app, an undisturbed update or action that is possible fails no check, and when
   no step is left both sides have stored it and hold equal copies again.
   */
  lemma HonestChange(env: Environment, s: Stores, h: AppIdHash, x: Session)
    requires BothHave(s, h) && AppsAgree(s, h) && Post(env, s.first, h, x.change).Ok?
    requires Faultless(x.steps) && Execute(RunFrom(env, s, h, x), x.steps).Some?
    ensures var run, t := RunFrom(env, s, h, x), After(env, s, h, x);
            var end := Execute(run, x.steps).value;
            && Roles(end) && (forall r: Role :: end.locals[r].phase != Stopped)
            && (!Enabled(run, end) ==>
                  && Ok(t.first) == Post(env, s.first, h, x.change) && Ok(t.second) == Post(env, s.second, h, x.change)
                  && BothHave(t, h) && AppsAgree(t, h))
  {
    var run := RunFrom(env, s, h, x);
    SameAppSameCommitment(env, s.first, s.second, h, x.change);
    ScriptFacts();
    OneRoundPersists(Doc.AppState);
    FaultlessRunCompletes(run, x.steps);
    var end := Execute(run, x.steps).value;
    if !Enabled(run, end) { FinishedPersisted(env, s, h, x, end); }
  }

  lemma FinishedPersisted(env: Environment, s: Stores, h: AppIdHash, x: Session, end: State)
    requires Execute(RunFrom(env, s, h, x), x.steps) == Some(end) && Roles(end)
    requires forall r: Role :: Finished(RunFrom(env, s, h, x), r, end.locals[r])
    ensures Persisted(env, s, h, x, Initiator) && Persisted(env, s, h, x, Responder)
  {
    var run := RunFrom(env, s, h, x);
    assert Finished(run, Initiator, end.locals[Initiator]) && Finished(run, Responder, end.locals[Responder]);
  }
}
