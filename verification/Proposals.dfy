/**
 Proposals over two stores. The proposer persists before it has sent anything, so an abandoned run
 leaves it one proposal ahead, and both sides number proposals by what they have stored.
 */
module Proposals {
  import opened OrderedMaps
  import opened Models
  import opened StateChannels
  import opened Withdrawals
  import opened Protocols
  import opened Choreography
  import opened Scripts
  import opened ProtocolRuns
  import opened StaticChecks
  import Lookup

  /** What both parties sign: the proposed app's initial state under the identity it will have. */
  function ProposalCommitment(env: Environment, c: StateChannel, p: ProposeParams): Digest {
    SetStateDigest(HashFor(env, c, c.numProposedApps + 1), 0, p.timeout, p.initialState)
  }

  /** One run of propose: what is proposed, which of the two stores proposes it, and the interleaving that happens. */
  datatype Session = Session(params: ProposeParams, firstInitiates: bool, steps: seq<Step>)

  function RunFrom(env: Environment, proposer: StateChannel, other: StateChannel, p: ProposeParams): Run {
    Run(ProposeProtocol(),
        (v: Var) => env.kth(if v.signer == Initiator then p.initiatorXpub else p.responderXpub, 0),
        (role: Role, doc) => if doc == InitialState then ProposalCommitment(env, if role == Initiator then proposer else other, p) else OtherDigest(0),
        role => true)
  }

  function Persisted(env: Environment, proposer: StateChannel, other: StateChannel, x: Session, role: Role): bool {
    match Execute(RunFrom(env, proposer, other, x.params), x.steps)
    case None => false
    case Some(end) => role in end.locals && end.locals[role].persisted
  }

  ghost predicate Happens(env: Environment, proposer: StateChannel, other: StateChannel, x: Session) {
    Faithful(x.steps) && Execute(RunFrom(env, proposer, other, x.params), x.steps).Some?
  }

  function ProposerAfter(env: Environment, proposer: StateChannel, other: StateChannel, x: Session): StateChannel {
    if Persisted(env, proposer, other, x, Initiator) then proposer.AddProposal(InitiatorProposal(env, proposer, x.params)) else proposer
  }

  function OtherAfter(env: Environment, proposer: StateChannel, other: StateChannel, x: Session): StateChannel {
    if Persisted(env, proposer, other, x, Responder) then other.AddProposal(ResponderProposal(env, other, x.params)) else other
  }

  // ---- The proposer persists first ------------------------------------------------------------

  ghost predicate Opened(s: State, r: Role)
    requires r in s.locals
  {
    s.locals[r].persisted || (s.locals[r].phase != NotStarted && s.locals[r].phase != Stopped) ==> s.sent > 0
  }

  lemma OpenedNext(run: Run, s: State, step: Step, r: Role)
    requires Roles(s) && NetOk(run, s) && Opened(s, r) && !step.Forge? && Next(run, s, step).Some?
    ensures r in Next(run, s, step).value.locals && Opened(Next(run, s, step).value, r)
  {
  }

  lemma {:induction false} RespondersAreOpened(run: Run, steps: seq<Step>)
    requires WellFormed(run.protocol) && Faithful(steps) && Execute(run, steps).Some?
    ensures Responder in Execute(run, steps).value.locals && Opened(Execute(run, steps).value, Responder)
  {
    if steps == [] {
      InitHasRoles(run);
    } else {
      var p := steps[..|steps| - 1];
      AlwaysInv(run, p);
      RespondersAreOpened(run, p);
      OpenedNext(run, Execute(run, p).value, steps[|steps| - 1], Responder);
    }
  }

  lemma {:induction false} ProposerIsFirst(run: Run, steps: seq<Step>)
    requires run.protocol == ProposeProtocol() && Faithful(steps) && Execute(run, steps).Some?
    ensures Inv(run, Execute(run, steps).value) && FirstOk(run, Execute(run, steps).value, Initiator, 0)
  {
    ProposeIsWellFormed();
    AlwaysInv(run, steps);
    if steps != [] {
      var p := steps[..|steps| - 1];
      ProposerIsFirst(run, p);
      FirstNext(run, Execute(run, p).value, steps[|steps| - 1], Initiator, 0);
    }
  }

  lemma ResponderSaves(run: Run, steps: seq<Step>)
    requires run.protocol == ProposeProtocol() && Faithful(steps) && Execute(run, steps).Some?
    ensures Responder in Execute(run, steps).value.locals
    ensures Execute(run, steps).value.locals[Responder].persisted ==> run.view(Responder, InitialState) == run.view(Initiator, InitialState)
  {
    ProposeIsWellFormed();
    assert run.protocol.Of(Responder).code[0] == Check(Ini(InitialState));
    PersistedMeansAgreed(run, steps, Responder, Ini(InitialState));
  }

  lemma AcceptedOnlyFromEqualCounters(env: Environment, proposer: StateChannel, other: StateChannel, x: Session)
    requires Happens(env, proposer, other, x) && Persisted(env, proposer, other, x, Responder)
    ensures proposer.numProposedApps == other.numProposedApps && Persisted(env, proposer, other, x, Initiator)
  {
    var run := RunFrom(env, proposer, other, x.params);
    ProposeIsWellFormed();
    ProposerIsFirst(run, x.steps);
    RespondersAreOpened(run, x.steps);
    ResponderSaves(run, x.steps);
    SameCommitmentSameCounter(env, proposer, other, x.params);
    var end := Execute(run, x.steps).value;
    assert end.locals[Responder].persisted;
    assert Opened(end, Responder) && FirstOk(run, end, Initiator, 0);
    assert end.locals[Initiator].persisted;
  }

  lemma SameCommitmentSameCounter(env: Environment, a: StateChannel, b: StateChannel, p: ProposeParams)
    ensures ProposalCommitment(env, a, p) == ProposalCommitment(env, b, p) ==> a.numProposedApps == b.numProposedApps
  {
  }

  /**
   The responder of a proposal persists only when both counters are equal, and never without the
   proposer; so a run leaves equal counters equal, or puts the proposer exactly one ahead.
   */
  lemma OneProposal(env: Environment, proposer: StateChannel, other: StateChannel, x: Session)
    requires Happens(env, proposer, other, x)
    ensures var a, b := ProposerAfter(env, proposer, other, x), OtherAfter(env, proposer, other, x);
            && proposer.numProposedApps <= a.numProposedApps <= proposer.numProposedApps + 1
            && (proposer.numProposedApps != other.numProposedApps ==> b == other)
            && (proposer.numProposedApps == other.numProposedApps ==>
                  a.numProposedApps == b.numProposedApps || (b == other && a.numProposedApps == b.numProposedApps + 1))
  {
    if Persisted(env, proposer, other, x, Responder) {
      AcceptedOnlyFromEqualCounters(env, proposer, other, x);
    }
  }

  lemma CopiesMirror(env: Environment, proposer: StateChannel, other: StateChannel, p: ProposeParams)
    requires env.Valid() && multiset(proposer.xpubs) == multiset(other.xpubs)
    requires proposer.numProposedApps == other.numProposedApps
    ensures ProposalCommitment(env, proposer, p) == ProposalCommitment(env, other, p)
    ensures var a, b := InitiatorProposal(env, proposer, p), ResponderProposal(env, other, p);
            && a.identityHash == b.identityHash && a.appSeqNo == b.appSeqNo
            && b == a.(initiatorDeposit := a.responderDeposit, responderDeposit := a.initiatorDeposit,
                       initiatorDepositToken := a.responderDepositToken, responderDepositToken := a.initiatorDepositToken)
  {
    Lookup.SigningKeysIgnoreOrder(env, proposer.xpubs, other.xpubs, proposer.numProposedApps + 1);
  }

  lemma EqualCountersAreInSync(env: Environment, proposer: StateChannel, other: StateChannel, p: ProposeParams)
    requires ProposalCommitment(env, proposer, p) == ProposalCommitment(env, other, p)
    ensures InSync(RunFrom(env, proposer, other, p))
  {
  }

  /** With equal counters and the same people, an undisturbed run is accepted by both, and their copies mirror each other. */
  lemma HonestProposal(env: Environment, proposer: StateChannel, other: StateChannel, x: Session)
    requires env.Valid() && multiset(proposer.xpubs) == multiset(other.xpubs) && Faultless(x.steps)
    requires proposer.numProposedApps == other.numProposedApps
    requires var run := RunFrom(env, proposer, other, x.params);
             Execute(run, x.steps).Some? && !Enabled(run, Execute(run, x.steps).value)
    ensures Persisted(env, proposer, other, x, Initiator) && Persisted(env, proposer, other, x, Responder)
    ensures InitiatorProposal(env, proposer, x.params).identityHash == ResponderProposal(env, other, x.params).identityHash
  {
    var run := RunFrom(env, proposer, other, x.params);
    CopiesMirror(env, proposer, other, x.params);
    EqualCountersAreInSync(env, proposer, other, x.params);
    ProposeIsWellFormed();
    ProposePersists();
    FaultlessRunCompletes(run, x.steps);
    BothRolesPropose(run, Execute(run, x.steps).value);
  }

  lemma BothRolesPropose(run: Run, end: State)
    requires run.protocol == ProposeProtocol() && Roles(end) && forall r: Role :: Finished(run, r, end.locals[r])
    ensures end.locals[Initiator].persisted && end.locals[Responder].persisted
  {
    assert Finished(run, Initiator, end.locals[Initiator]) && Finished(run, Responder, end.locals[Responder]);
  }

  // ---- Two stores, either side proposing ------------------------------------------------------

  datatype Stores = Stores(first: StateChannel, second: StateChannel)
  {
    function Proposer(x: Session): StateChannel {
      if x.firstInitiates then first else second
    }

    function Other(x: Session): StateChannel {
      if x.firstInitiates then second else first
    }

    /** How far the first store's counter is ahead of the second's. */
    function Drift(): int {
      first.numProposedApps - second.numProposedApps
    }

    predicate SamePeople() {
      multiset(first.xpubs) == multiset(second.xpubs)
    }
  }

  function After(env: Environment, s: Stores, x: Session): Stores {
    var a, b := ProposerAfter(env, s.Proposer(x), s.Other(x), x), OtherAfter(env, s.Proposer(x), s.Other(x), x);
    if x.firstInitiates then Stores(a, b) else Stores(b, a)
  }

  /** Accepted: both sides have stored the proposal. */
  function Accepted(env: Environment, s: Stores, x: Session): bool {
    Persisted(env, s.Proposer(x), s.Other(x), x, Responder)
  }

  /** Only the proposer has stored it. */
  function Lone(env: Environment, s: Stores, x: Session): bool {
    Persisted(env, s.Proposer(x), s.Other(x), x, Initiator) && !Accepted(env, s, x)
  }

  /** No message is lost, nobody stops, and no step is left. */
  ghost predicate Undisturbed(env: Environment, s: Stores, x: Session) {
    var run := RunFrom(env, s.Proposer(x), s.Other(x), x.params);
    Faultless(x.steps) && Execute(run, x.steps).Some? && !Enabled(run, Execute(run, x.steps).value)
  }

  /**
   Every run of propose moves the difference of the counters by one towards its proposer's side when
   only the proposer stores the proposal, and not at all otherwise; both store it only from equal counters.
   */
  lemma DriftMoves(env: Environment, s: Stores, x: Session)
    requires Happens(env, s.Proposer(x), s.Other(x), x)
    ensures After(env, s, x).Drift() == s.Drift() + if !Lone(env, s, x) then 0 else if x.firstInitiates then 1 else -1
    ensures Accepted(env, s, x) ==> s.Drift() == 0
    ensures s.SamePeople() ==> After(env, s, x).SamePeople()
  {
    if Accepted(env, s, x) {
      AcceptedOnlyFromEqualCounters(env, s.Proposer(x), s.Other(x), x);
    }
  }

  ghost predicate NotYetOrPersisted(s: State) {
    Initiator in s.locals
    && (s.locals[Initiator].persisted || (s.locals[Initiator].phase == Running && s.locals[Initiator].pc == 0))
  }

  lemma {:induction false} ProposerActs(run: Run, steps: seq<Step>)
    requires run.protocol == ProposeProtocol() && run.computes(Initiator) && Faultless(steps) && Execute(run, steps).Some?
    ensures NotYetOrPersisted(Execute(run, steps).value)
  {
    if steps != [] {
      ProposerActs(run, steps[..|steps| - 1]);
    }
  }

  lemma FaultlessIsFaithful(steps: seq<Step>)
    requires Faultless(steps)
    ensures Faithful(steps)
  {
  }

  lemma UndisturbedPersists(env: Environment, s: Stores, x: Session)
    requires Undisturbed(env, s, x)
    ensures Happens(env, s.Proposer(x), s.Other(x), x) && Persisted(env, s.Proposer(x), s.Other(x), x, Initiator)
  {
    var run := RunFrom(env, s.Proposer(x), s.Other(x), x.params);
    FaultlessIsFaithful(x.steps);
    ProposerActs(run, x.steps);
    var end := Execute(run, x.steps).value;
    assert !end.locals[Initiator].persisted ==> Next(run, end, Exec(Initiator)).Some?;
  }

  /**
   An undisturbed proposal is accepted if and only if the counters are equal; otherwise it moves the
   difference by one towards the side of its proposer.
   */
  lemma UndisturbedIsAcceptedIff(env: Environment, s: Stores, x: Session)
    requires env.Valid() && s.SamePeople() && Undisturbed(env, s, x)
    ensures Accepted(env, s, x) <==> s.Drift() == 0
    ensures After(env, s, x).Drift() == if s.Drift() == 0 then 0 else s.Drift() + if x.firstInitiates then 1 else -1
  {
    UndisturbedPersists(env, s, x);
    DriftMoves(env, s, x);
    if s.Drift() == 0 {
      HonestProposal(env, s.Proposer(x), s.Other(x), x);
    }
  }

  // ---- Histories ------------------------------------------------------------------------------

  function History(env: Environment, s: Stores, xs: seq<Session>): Stores {
    if xs == [] then s else After(env, History(env, s, xs[..|xs| - 1]), xs[|xs| - 1])
  }

  ghost predicate AllHappen(env: Environment, s: Stores, xs: seq<Session>) {
    xs == [] ||
    (&& AllHappen(env, s, xs[..|xs| - 1])
     && var t, x := History(env, s, xs[..|xs| - 1]), xs[|xs| - 1];
        Happens(env, t.Proposer(x), t.Other(x), x))
  }

  /** How many proposals of one side only that side has stored. */
  function LoneCount(env: Environment, s: Stores, xs: seq<Session>, byFirst: bool): (n: nat)
    ensures n <= |xs|
  {
    if xs == [] then 0 else
      var p, x := xs[..|xs| - 1], xs[|xs| - 1];
      LoneCount(env, s, p, byFirst) + if x.firstInitiates == byFirst && Lone(env, History(env, s, p), x) then 1 else 0
  }

  /** Over every history the difference of the counters changes by the lone proposals of one side less those of the other. */
  lemma {:induction false} DriftOverHistories(env: Environment, s: Stores, xs: seq<Session>)
    requires AllHappen(env, s, xs)
    ensures History(env, s, xs).Drift() == s.Drift() + LoneCount(env, s, xs, true) - LoneCount(env, s, xs, false)
    ensures s.SamePeople() ==> History(env, s, xs).SamePeople()
  {
    if xs != [] {
      var p := xs[..|xs| - 1];
      DriftOverHistories(env, s, p);
      DriftMoves(env, History(env, s, p), xs[|xs| - 1]);
    }
  }

  /**
   After any history the next undisturbed proposal, of either side, is accepted if and only if the side
   behind has made up with lone proposals for what it was behind and for the other side's lone proposals.
   */
  lemma AcceptedAfterHistoryIff(env: Environment, s: Stores, xs: seq<Session>, x: Session)
    requires env.Valid() && s.SamePeople() && AllHappen(env, s, xs) && Undisturbed(env, History(env, s, xs), x)
    ensures Accepted(env, History(env, s, xs), x) <==> s.Drift() + LoneCount(env, s, xs, true) == LoneCount(env, s, xs, false)
  {
    DriftOverHistories(env, s, xs);
    UndisturbedIsAcceptedIff(env, History(env, s, xs), x);
  }

  lemma {:induction false} NoneByOthers(env: Environment, s: Stores, xs: seq<Session>, byFirst: bool)
    requires forall x :: x in xs ==> x.firstInitiates != byFirst
    ensures LoneCount(env, s, xs, byFirst) == 0
  {
    if xs != [] {
      NoneByOthers(env, s, xs[..|xs| - 1], byFirst);
    }
  }

  /** A side that is ahead does not recover by its own proposals: none of them is accepted, and it only gets further ahead. */
  lemma {:induction false} OwnProposalsNeverRecover(env: Environment, s: Stores, xs: seq<Session>)
    requires s.Drift() > 0 && AllHappen(env, s, xs) && forall x :: x in xs ==> x.firstInitiates
    ensures History(env, s, xs).second == s.second && History(env, s, xs).Drift() >= s.Drift()
  {
    if xs != [] {
      var p, x := xs[..|xs| - 1], xs[|xs| - 1];
      OwnProposalsNeverRecover(env, s, p);
      DriftMoves(env, History(env, s, p), x);
    }
  }

  ghost predicate AllUndisturbed(env: Environment, s: Stores, xs: seq<Session>) {
    xs == [] || (AllUndisturbed(env, s, xs[..|xs| - 1]) && Undisturbed(env, History(env, s, xs[..|xs| - 1]), xs[|xs| - 1]))
  }

  /** The side that is behind recovers with its own proposals, each of them refused: exactly as many as it is behind. */
  lemma {:induction false} SideBehindRecovers(env: Environment, s: Stores, xs: seq<Session>)
    requires env.Valid() && s.SamePeople() && AllUndisturbed(env, s, xs) && forall x :: x in xs ==> !x.firstInitiates
    requires |xs| <= s.Drift()
    ensures History(env, s, xs).Drift() == s.Drift() - |xs|
    ensures History(env, s, xs).first == s.first && History(env, s, xs).SamePeople()
  {
    if xs != [] {
      var p, x := xs[..|xs| - 1], xs[|xs| - 1];
      SideBehindRecovers(env, s, p);
      UndisturbedPersists(env, History(env, s, p), x);
      UndisturbedIsAcceptedIff(env, History(env, s, p), x);
      DriftMoves(env, History(env, s, p), x);
    }
  }

  /** Fewer runs than the counters differ by never make them equal. */
  lemma RecoveryTakesAsManyRuns(env: Environment, s: Stores, xs: seq<Session>)
    requires AllHappen(env, s, xs) && History(env, s, xs).Drift() == 0
    ensures |xs| >= s.Drift() && |xs| >= -s.Drift()
  {
    DriftOverHistories(env, s, xs);
  }

  // ---- Abandoned proposals --------------------------------------------------------------------

  /** A proposal abandoned before it is sent. */
  function Abandoned(p: ProposeParams, firstInitiates: bool): Session {
    Session(p, firstInitiates, [Exec(Initiator)])
  }

  lemma AbandonedIsLone(env: Environment, s: Stores, p: ProposeParams, firstInitiates: bool)
    ensures var x := Abandoned(p, firstInitiates);
            && Happens(env, s.Proposer(x), s.Other(x), x) && Lone(env, s, x)
            && After(env, s, x).Drift() == s.Drift() + if firstInitiates then 1 else -1
  {
    var x := Abandoned(p, firstInitiates);
    var run := RunFrom(env, s.Proposer(x), s.Other(x), p);
    ProposerPersistsUnsigned(run);
    AbandonedLeavesResponder(run);
    DriftMoves(env, s, x);
  }

  lemma AbandonedLeavesResponder(run: Run)
    requires run.protocol == ProposeProtocol() && Execute(run, [Exec(Initiator)]).Some?
    ensures Responder in Execute(run, [Exec(Initiator)]).value.locals
    ensures !Execute(run, [Exec(Initiator)]).value.locals[Responder].persisted
  {
    var steps := [Exec(Initiator)];
    assert steps[..0] == [] && Execute(run, []) == Some(Init(run));
  }

  function ManyAbandoned(p: ProposeParams, firstInitiates: bool, n: nat): (xs: seq<Session>)
    ensures |xs| == n && forall i :: 0 <= i < n ==> xs[i] == Abandoned(p, firstInitiates)
  {
    seq(n, i => Abandoned(p, firstInitiates))
  }

  /** Unlike in the other protocols, abandoned runs add up: n of them put the proposer n further ahead. */
  lemma {:induction false} DriftGrows(env: Environment, s: Stores, p: ProposeParams, n: nat)
    ensures AllHappen(env, s, ManyAbandoned(p, true, n))
    ensures History(env, s, ManyAbandoned(p, true, n)).Drift() == s.Drift() + n
  {
    if n > 0 {
      var xs := ManyAbandoned(p, true, n);
      assert xs[..n - 1] == ManyAbandoned(p, true, n - 1);
      DriftGrows(env, s, p, n - 1);
      AbandonedIsLone(env, History(env, s, ManyAbandoned(p, true, n - 1)), p, true);
    }
  }

  function BothAbandoned(env: Environment, s: Stores, p: ProposeParams, q: ProposeParams): Stores {
    After(env, After(env, s, Abandoned(p, true)), Abandoned(q, false))
  }

  lemma AfterBothAbandoned(env: Environment, s: Stores, p: ProposeParams, q: ProposeParams)
    ensures BothAbandoned(env, s, p, q)
         == Stores(s.first.AddProposal(InitiatorProposal(env, s.first, p)), s.second.AddProposal(InitiatorProposal(env, s.second, q)))
  {
    AfterAbandoned(env, s, p, true);
    AfterAbandoned(env, After(env, s, Abandoned(p, true)), q, false);
  }

  /** One abandoned proposal of each side leaves the counters equal, so that the next undisturbed one is accepted. */
  lemma OneAbandonedEachRecovers(env: Environment, s: Stores, p: ProposeParams, q: ProposeParams, x: Session)
    requires env.Valid() && s.SamePeople() && s.Drift() == 0 && Undisturbed(env, BothAbandoned(env, s, p, q), x)
    ensures After(env, s, Abandoned(p, true)).Drift() == 1 && BothAbandoned(env, s, p, q).Drift() == 0
    ensures Accepted(env, BothAbandoned(env, s, p, q), x)
  {
    AfterAbandoned(env, s, p, true);
    AfterBothAbandoned(env, s, p, q);
    UndisturbedIsAcceptedIff(env, BothAbandoned(env, s, p, q), x);
  }

  lemma DifferentUnderOneHash(env: Environment, a: StateChannel, b: StateChannel, p: ProposeParams, q: ProposeParams)
    requires env.Valid() && multiset(a.xpubs) == multiset(b.xpubs) && a.numProposedApps == b.numProposedApps
    requires p.initiatorXpub != q.initiatorXpub
    ensures var c, d, h := a.AddProposal(InitiatorProposal(env, a, p)), b.AddProposal(InitiatorProposal(env, b, q)), HashFor(env, a, a.numProposedApps + 1);
            && c.numProposedApps == d.numProposedApps && Has(c.proposals, h) && Has(d.proposals, h)
            && Get(c.proposals, h) != Get(d.proposals, h)
  {
    Lookup.SigningKeysIgnoreOrder(env, a.xpubs, b.xpubs, a.numProposedApps + 1);
    StoresItsProposal(env, a, p);
    StoresItsProposal(env, b, q);
  }

  /** But the two stores then hold different proposals under the same hash. */
  lemma EqualCountersHideDifferentProposals(env: Environment, s: Stores, p: ProposeParams, q: ProposeParams)
    requires env.Valid() && s.SamePeople() && s.Drift() == 0 && p.initiatorXpub != q.initiatorXpub
    ensures var t, h := BothAbandoned(env, s, p, q), HashFor(env, s.first, s.first.numProposedApps + 1);
            && t.Drift() == 0 && Has(t.first.proposals, h) && Has(t.second.proposals, h)
            && Get(t.first.proposals, h) != Get(t.second.proposals, h)
  {
    AfterBothAbandoned(env, s, p, q);
    DifferentUnderOneHash(env, s.first, s.second, p, q);
  }

  /** What the stores hold after a proposal that was abandoned before it was sent. */
  lemma AfterAbandoned(env: Environment, s: Stores, p: ProposeParams, firstInitiates: bool)
    ensures After(env, s, Abandoned(p, firstInitiates))
         == if firstInitiates then Stores(s.first.AddProposal(InitiatorProposal(env, s.first, p)), s.second)
            else Stores(s.first, s.second.AddProposal(InitiatorProposal(env, s.second, p)))
  {
    AbandonedIsLone(env, s, p, firstInitiates);
  }

  lemma StoresItsProposal(env: Environment, c: StateChannel, p: ProposeParams)
    ensures var q, h := InitiatorProposal(env, c, p), HashFor(env, c, c.numProposedApps + 1);
            && Has(c.AddProposal(q).proposals, h) && Get(c.AddProposal(q).proposals, h) == q
            && q.proposedBy == p.initiatorXpub && c.AddProposal(q).numProposedApps == c.numProposedApps + 1
  {
    SetGet(c.proposals, HashFor(env, c, c.numProposedApps + 1), InitiatorProposal(env, c, p), HashFor(env, c, c.numProposedApps + 1));
  }
}
