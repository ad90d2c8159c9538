/**
 Who signed what. A role that has persisted holds the other parties' signatures, made with their own
 keys, on every document the run exchanges before it persists.
 */
module Countersigning {
  import opened OrderedMaps
  import opened Models
  import opened Protocols
  import opened Scripts
  import opened ProtocolRuns
  import opened StaticChecks
  import opened FreeBalances
  import opened StateChannels
  import opened DirectTransitions
  import Desync
  import AppDesync
  import Proposals
  import Lookup
  import opened Withdrawals

  /** The generator receives the signature, in the message that starts it or as a reply. */
  ghost predicate Receives(g: Generator, v: Var) {
    v in g.opens || exists j :: 0 <= j < |g.code| && Answers(g.code[j], v)
  }

  predicate Answers(instr: Instr, v: Var) {
    instr.SendAndWait? && v in instr.binds
  }

  ghost predicate ChecksAllReceived(g: Generator) {
    forall v :: Receives(g, v) ==> ChecksBeforePersisting(g, v)
  }

  lemma OneRoundChecksAll(d: Doc)
    ensures ChecksAllReceived(OneRound(d).initiator) && ChecksAllReceived(OneRound(d).responder)
  {
    assert OneRound(d).initiator.code[2] == Check(Res(d));
    assert OneRound(d).responder.code[0] == Check(Ini(d));
  }

  lemma InstallChecksAll()
    ensures ChecksAllReceived(InstallProtocol().initiator) && ChecksAllReceived(InstallProtocol().responder)
  {
    var i, r := InstallProtocol().initiator, InstallProtocol().responder;
    assert i.code[2] == Check(Res(ConditionalTx)) && i.code[3] == Check(Res(FreeBalanceUpdate));
    assert r.code[0] == Check(Ini(ConditionalTx)) && r.code[4] == Check(Ini(FreeBalanceUpdate));
  }

  lemma WithdrawInitiatorChecksAll()
    ensures ChecksAllReceived(WithdrawProtocol().initiator)
  {
    var i := WithdrawProtocol().initiator;
    assert i.code[2] == Check(Res(ConditionalTx)) && i.code[3] == Check(Res(FreeBalanceUpdate));
    assert i.code[7] == Check(Res(Withdrawal)) && i.code[8] == Check(Res(UninstallUpdate));
  }

  lemma WithdrawResponderChecksAll()
    ensures ChecksAllReceived(WithdrawProtocol().responder)
  {
    var r := WithdrawProtocol().responder;
    assert r.code[0] == Check(Ini(ConditionalTx)) && r.code[4] == Check(Ini(FreeBalanceUpdate));
    assert r.code[5] == Check(Ini(Withdrawal)) && r.code[9] == Check(Ini(UninstallUpdate));
  }

  /** After these steps the role holds the signature, checked. */
  ghost predicate RoleHolds(run: Run, steps: seq<Step>, role: Role, signature: Signature) {
    && Execute(run, steps).Some? && role in Execute(run, steps).value.locals
    && exists v :: v in Execute(run, steps).value.locals[role].held && Execute(run, steps).value.locals[role].held[v] == signature
  }

  lemma ReceivedIsHeld(run: Run, steps: seq<Step>, role: Role, v: Var)
    requires Execute(run, steps).Some? && ChecksAllReceived(run.protocol.Of(role)) && Receives(run.protocol.Of(role), v)
    requires role in Execute(run, steps).value.locals && Execute(run, steps).value.locals[role].persisted
    ensures RoleHolds(run, steps, role, Signature(run.signer(v), run.view(role, v.doc)))
  {
    PersistedHoldsWhatItChecks(run, steps, role, v);
  }

  // ---- Install, uninstall and withdraw --------------------------------------------------------

  /** Who starts the deed, and with whom. */
  predicate Between(deed: Desync.Deed, i: Xpub, r: Xpub) {
    match deed
    case Installs(p) => (i, r) == (p.initiatorXpub, p.responderXpub)
    case Uninstalls(x, y, _) => (i, r) == (x, y)
    case Withdraws(p) => (i, r) == (p.initiatorXpub, p.responderXpub)
  }

  /** The party has persisted `role`'s side of the run from the channel `c`, where the two parties have the free-balance accounts `a` and `b`. */
  ghost predicate PersistedFrom(env: Environment, s: Desync.Stores, x: Desync.Session, role: Role, c: StateChannel,
                                i: Xpub, r: Xpub, a: Address, b: Address) {
    && x.Happens(env, s) && x.Persisted(env, s, role) && c == Desync.RoleStore(s, x.firstInitiates, role)
    && Between(x.deed, i, r) && c.FreeBalanceAddrOf(env, i) == Ok(a) && c.FreeBalanceAddrOf(env, r) == Ok(b)
  }

  lemma ScriptChecksAll(deed: Desync.Deed, role: Role)
    requires role != Intermediary
    ensures ChecksAllReceived(deed.Script().Of(role))
  {
    InstallChecksAll();
    OneRoundChecksAll(UninstallUpdate);
    WithdrawInitiatorChecksAll();
    WithdrawResponderChecksAll();
  }

  /** The other party's signature on `doc`, which the role has received. */
  lemma HoldsOthers(env: Environment, s: Desync.Stores, x: Desync.Session, role: Role, c: StateChannel,
                    i: Xpub, r: Xpub, a: Address, b: Address, doc: Doc)
    requires PersistedFrom(env, s, x, role, c, i, r, a, b) && role != Intermediary
    requires Receives(x.deed.Script().Of(role), if role == Initiator then Res(doc) else Ini(doc))
    ensures RoleHolds(x.RunFrom(env, s), x.steps, role, Signature(if role == Initiator then b else a, x.deed.View(env, c, doc)))
  {
    ScriptChecksAll(x.deed, role);
    ReceivedIsHeld(x.RunFrom(env, s), x.steps, role, if role == Initiator then Res(doc) else Ini(doc));
  }

  lemma ReceivesFinal(deed: Desync.Deed)
    ensures Receives(deed.Script().initiator, Res(deed.Final())) && Receives(deed.Script().responder, Ini(deed.Final()))
  {
    match deed
    case Installs(_) =>
      assert Answers(InstallProtocol().initiator.code[1], Res(FreeBalanceUpdate));
      assert Answers(InstallProtocol().responder.code[3], Ini(FreeBalanceUpdate));
    case Uninstalls(_, _, _) =>
      assert Answers(UninstallProtocol().initiator.code[1], Res(UninstallUpdate));
    case Withdraws(_) =>
      assert Answers(WithdrawProtocol().initiator.code[6], Res(UninstallUpdate));
      assert Answers(WithdrawProtocol().responder.code[8], Ini(UninstallUpdate));
  }

  /**
   Whoever has persisted an install, uninstall or withdrawal holds a signature on the commitment to the
   free balance it persisted, made by the free-balance account of the other party; with different
   keys, that is not its own account.
   */
  lemma DeedIsCountersigned(env: Environment, s: Desync.Stores, x: Desync.Session, role: Role, c: StateChannel,
                            i: Xpub, r: Xpub, a: Address, b: Address)
    requires PersistedFrom(env, s, x, role, c, i, r, a, b)
    ensures role != Intermediary
    ensures x.deed.Post(env, c).Ok? && x.deed.Post(env, c).value.freeBalanceApp.Some?
    ensures RoleHolds(x.RunFrom(env, s), x.steps, role,
                      Signature(if role == Initiator then b else a, SetStateCommitment(x.deed.Post(env, c).value.freeBalanceApp.value)))
    ensures env.Valid() && i != r ==> a != b
  {
    PersistedPosts(env, s, x, role);
    ReceivesFinal(x.deed);
    HoldsOthers(env, s, x, role, c, i, r, a, b, x.deed.Final());
    FinalView(env, c, x.deed);
  }

  lemma PersistedPosts(env: Environment, s: Desync.Stores, x: Desync.Session, role: Role)
    requires x.Happens(env, s) && x.Persisted(env, s, role)
    ensures role != Intermediary
    ensures var post := x.deed.Post(env, Desync.RoleStore(s, x.firstInitiates, role));
            post.Ok? && post.value.freeBalanceApp.Some?
  {
    Desync.PersistingNeedsAgreement(env, s, x, role);
  }

  lemma FinalView(env: Environment, c: StateChannel, deed: Desync.Deed)
    requires deed.Post(env, c).Ok? && deed.Post(env, c).value.freeBalanceApp.Some?
    ensures deed.View(env, c, deed.Final()) == SetStateCommitment(deed.Post(env, c).value.freeBalanceApp.value)
  {
  }

  /** Whoever has persisted an install holds the other party's signature on the new app's conditional transaction. */
  lemma InstallIsConditional(env: Environment, s: Desync.Stores, x: Desync.Session, role: Role, c: StateChannel,
                             i: Xpub, r: Xpub, a: Address, b: Address)
    requires PersistedFrom(env, s, x, role, c, i, r, a, b) && x.deed.Installs?
    ensures x.deed.Post(env, c).Ok?
    ensures RoleHolds(x.RunFrom(env, s), x.steps, role,
                      Signature(if role == Initiator then b else a, ConditionalTransaction(env, x.deed.Post(env, c).value)))
  {
    PersistedPosts(env, s, x, role);
    InstallReceivesConditional();
    HoldsOthers(env, s, x, role, c, i, r, a, b, ConditionalTx);
    ConditionalView(env, c, x.deed);
  }

  lemma InstallReceivesConditional()
    ensures Receives(InstallProtocol().initiator, Res(ConditionalTx)) && Receives(InstallProtocol().responder, Ini(ConditionalTx))
  {
    assert Answers(InstallProtocol().initiator.code[1], Res(ConditionalTx));
  }

  lemma ConditionalView(env: Environment, c: StateChannel, deed: Desync.Deed)
    requires deed.Installs? && deed.Post(env, c).Ok?
    ensures deed.View(env, c, ConditionalTx) == ConditionalTransaction(env, deed.Post(env, c).value)
  {
  }

  lemma WithdrawReceives(role: Role, doc: Doc)
    requires role != Intermediary && doc in {ConditionalTx, FreeBalanceUpdate, Withdrawal}
    ensures Receives(WithdrawProtocol().Of(role), if role == Initiator then Res(doc) else Ini(doc))
  {
    assert Answers(WithdrawProtocol().initiator.code[1], Res(ConditionalTx)) && Answers(WithdrawProtocol().initiator.code[1], Res(FreeBalanceUpdate));
    assert Answers(WithdrawProtocol().initiator.code[6], Res(Withdrawal));
    assert Answers(WithdrawProtocol().responder.code[3], Ini(FreeBalanceUpdate)) && Answers(WithdrawProtocol().responder.code[3], Ini(Withdrawal));
  }

  lemma WithdrawPostNeedsRefund(env: Environment, c: StateChannel, p: WithdrawParams)
    requires WithdrawTransition(env, c, p).Ok?
    ensures AddRefundApp(env, c, p).Ok? && AddRefundApp(env, c, p).value.freeBalanceApp.Some?
  {
    Desync.InstallAdvances(env, c, RefundApp(env, c, p), [(p.token, [(c.FreeBalanceAddrOf(env, p.initiatorXpub).value, p.amount)])]);
  }

  /**
   Whoever has persisted a withdrawal holds the other party's signatures on the withdrawal itself, for the
   recipient, amount and token asked for, and on the refund app's conditional transaction and free balance.
   */
  lemma WithdrawalIsCountersigned(env: Environment, s: Desync.Stores, x: Desync.Session, role: Role, c: StateChannel,
                                  i: Xpub, r: Xpub, a: Address, b: Address)
    requires PersistedFrom(env, s, x, role, c, i, r, a, b) && x.deed.Withdraws?
    ensures var p, other := x.deed.withdraw, if role == Initiator then b else a;
            var c1 := AddRefundApp(env, c, p);
            && c1.Ok? && c1.value.freeBalanceApp.Some?
            && RoleHolds(x.RunFrom(env, s), x.steps, role,
                         Signature(other, WithdrawalDigest(c.multisigAddress, c.MultisigOwners(env), p.recipient, p.amount, p.token)))
            && RoleHolds(x.RunFrom(env, s), x.steps, role, Signature(other, ConditionalTransaction(env, c1.value)))
            && RoleHolds(x.RunFrom(env, s), x.steps, role, Signature(other, SetStateCommitment(c1.value.freeBalanceApp.value)))
  {
    PersistedPosts(env, s, x, role);
    WithdrawPostNeedsRefund(env, c, x.deed.withdraw);
    RefundViews(env, c, x.deed);
    WithdrawalView(env, c, x.deed);
    WithdrawReceives(role, Withdrawal);
    WithdrawReceives(role, ConditionalTx);
    WithdrawReceives(role, FreeBalanceUpdate);
    HoldsOthers(env, s, x, role, c, i, r, a, b, Withdrawal);
    HoldsOthers(env, s, x, role, c, i, r, a, b, ConditionalTx);
    HoldsOthers(env, s, x, role, c, i, r, a, b, FreeBalanceUpdate);
  }

  lemma WithdrawalView(env: Environment, c: StateChannel, deed: Desync.Deed)
    requires deed.Withdraws?
    ensures var p := deed.withdraw;
            deed.View(env, c, Withdrawal) == WithdrawalDigest(c.multisigAddress, c.MultisigOwners(env), p.recipient, p.amount, p.token)
  {
  }

  lemma RefundViews(env: Environment, c: StateChannel, deed: Desync.Deed)
    requires deed.Withdraws? && AddRefundApp(env, c, deed.withdraw).Ok? && AddRefundApp(env, c, deed.withdraw).value.freeBalanceApp.Some?
    ensures var c1 := AddRefundApp(env, c, deed.withdraw).value;
            && deed.View(env, c, ConditionalTx) == ConditionalTransaction(env, c1)
            && deed.View(env, c, FreeBalanceUpdate) == SetStateCommitment(c1.freeBalanceApp.value)
  {
    RefundConditionalView(env, c, deed);
    RefundBalanceView(env, c, deed);
  }

  lemma RefundConditionalView(env: Environment, c: StateChannel, deed: Desync.Deed)
    requires deed.Withdraws? && AddRefundApp(env, c, deed.withdraw).Ok?
    ensures deed.View(env, c, ConditionalTx) == ConditionalTransaction(env, AddRefundApp(env, c, deed.withdraw).value)
  {
  }

  lemma RefundBalanceView(env: Environment, c: StateChannel, deed: Desync.Deed)
    requires deed.Withdraws? && AddRefundApp(env, c, deed.withdraw).Ok? && AddRefundApp(env, c, deed.withdraw).value.freeBalanceApp.Some?
    ensures deed.View(env, c, FreeBalanceUpdate) == SetStateCommitment(AddRefundApp(env, c, deed.withdraw).value.freeBalanceApp.value)
  {
  }

  // ---- Update and take-action -----------------------------------------------------------------

  /**
   Whoever has persisted an update or an action holds the other user's signature, made with the key of the
   app's own number, on the app's next version with exactly the new state.
   */
  lemma ChangeIsCountersigned(env: Environment, s: AppDesync.Stores, h: AppIdHash, x: AppDesync.Session, role: Role, state: AppState)
    requires AppDesync.Happens(env, s, h, x) && AppDesync.Persisted(env, s, h, x, role)
    requires role != Intermediary && Has(AppDesync.StoreOf(s, x, role).apps, h)
    requires var app := Get(AppDesync.StoreOf(s, x, role).apps, h);
             match x.change
             case Update(named) => state == named
             case TakeAction(action) => Some(state) == env.applyAction(app.appInterface.addr, app.latestState, action)
    ensures var app, other := Get(AppDesync.StoreOf(s, x, role).apps, h), if role == Initiator then x.users.1 else x.users.0;
            && RoleHolds(AppDesync.RunFrom(env, s, h, x), x.steps, role,
                         Signature(env.kth(other, h.channelNonce),
                                   SetStateDigest(app.IdentityHash(), app.latestVersionNumber + 1, app.defaultTimeout, state)))
    ensures env.Valid() && x.users.0 != x.users.1 ==> env.kth(x.users.0, h.channelNonce) != env.kth(x.users.1, h.channelNonce)
  {
    var c, v := AppDesync.StoreOf(s, x, role), if role == Initiator then Res(Doc.AppState) else Ini(Doc.AppState);
    AppDesync.ScriptFacts();
    PersistedComputes(AppDesync.RunFrom(env, s, h, x), x.steps, role);
    AppDesync.PostEffect(env, c, h, x.change);
    OneRoundChecksAll(Doc.AppState);
    assert Answers(UpdateProtocol().initiator.code[1], Res(Doc.AppState));
    ReceivedIsHeld(AppDesync.RunFrom(env, s, h, x), x.steps, role, v);
  }

  // ---- Propose --------------------------------------------------------------------------------

  lemma ProposeResponderChecksAll()
    ensures ChecksAllReceived(ProposeProtocol().responder)
  {
    assert ProposeProtocol().responder.code[0] == Check(Ini(InitialState));
  }

  /** What is signed for a proposal: the app's first version, under the number that follows the signer's counter. */
  function InitialDigest(env: Environment, c: StateChannel, p: ProposeParams): Digest {
    SetStateDigest(AppIdHash(c.numProposedApps + 1, c.SigningKeysFor(env, c.numProposedApps + 1)), 0, p.timeout, p.initialState)
  }

  /**
   What both parties sign when an app is proposed is the commitment to the app that installing the proposal
   stores: the same identity, at version zero, in its initial state; and the app is the one proposed.
   */
  lemma ProposedIsInstalled(env: Environment, c0: StateChannel, c: StateChannel, p: ProposeParams, i: Address, r: Address)
    requires env.Valid() && multiset(c.xpubs) == multiset(c0.xpubs)
    requires var q := InstallParamsOf(env, c, ResponderProposal(env, c0, p)); Installs(env, c, q, r, i) && InstallTransition(env, c, q).Ok?
    ensures var c', seqNo := InstallTransition(env, c, InstallParamsOf(env, c, ResponderProposal(env, c0, p))).value, c0.numProposedApps + 1;
            var h := AppIdHash(seqNo, c0.SigningKeysFor(env, seqNo));
            && Has(c'.apps, h) && SetStateCommitment(Get(c'.apps, h)) == InitialDigest(env, c0, p)
            && Get(c'.apps, h).appInterface == AppInterface(p.appDefinition, p.stateEncoding)
            && Get(c'.apps, h).outcomeType == p.outcomeType && Get(c'.apps, h).defaultTimeout == p.timeout && !Get(c'.apps, h).isVirtualApp
  {
    var q := InstallParamsOf(env, c, ResponderProposal(env, c0, p));
    Lookup.SigningKeysIgnoreOrder(env, c0.xpubs, c.xpubs, c0.numProposedApps + 1);
    InstallStores(env, c, q, r, i);
    ProposedApp(env, c0, c, p, InterpreterParameters(q, r, i).value);
    ProposedHash(env, c0, c, p);
  }

  lemma ProposedHash(env: Environment, c0: StateChannel, c: StateChannel, p: ProposeParams)
    requires c.SigningKeysFor(env, c0.numProposedApps + 1) == c0.SigningKeysFor(env, c0.numProposedApps + 1)
    ensures var q, seqNo := InstallParamsOf(env, c, ResponderProposal(env, c0, p)), c0.numProposedApps + 1;
            AppIdHash(q.appSeqNo, q.participants) == AppIdHash(seqNo, c0.SigningKeysFor(env, seqNo))
  {
  }

  lemma ProposedApp(env: Environment, c0: StateChannel, c: StateChannel, p: ProposeParams, params: InterpreterParams)
    requires c.SigningKeysFor(env, c0.numProposedApps + 1) == c0.SigningKeysFor(env, c0.numProposedApps + 1)
    ensures var app := AppToInstall(InstallParamsOf(env, c, ResponderProposal(env, c0, p)), params);
            && SetStateCommitment(app) == InitialDigest(env, c0, p)
            && app.appInterface == AppInterface(p.appDefinition, p.stateEncoding)
            && app.outcomeType == p.outcomeType && app.defaultTimeout == p.timeout && !app.isVirtualApp
  {
  }

  lemma ProposalViews(env: Environment, proposer: StateChannel, other: StateChannel, p: ProposeParams)
    ensures var run := Proposals.RunFrom(env, proposer, other, p);
            && run.view(Initiator, InitialState) == InitialDigest(env, proposer, p)
            && run.view(Responder, InitialState) == InitialDigest(env, other, p)
            && run.signer(Ini(InitialState)) == env.kth(p.initiatorXpub, 0)
            && run.signer(Res(InitialState)) == env.kth(p.responderXpub, 0)
  {
    assert Proposals.ProposalCommitment(env, proposer, p) == InitialDigest(env, proposer, p);
    assert Proposals.ProposalCommitment(env, other, p) == InitialDigest(env, other, p);
  }

  /** A responder that has persisted a proposal holds the proposer's signature on the app's initial state. */
  lemma ProposalIsCountersigned(env: Environment, proposer: StateChannel, other: StateChannel, x: Proposals.Session)
    requires Proposals.Happens(env, proposer, other, x) && Proposals.Persisted(env, proposer, other, x, Responder)
    ensures RoleHolds(Proposals.RunFrom(env, proposer, other, x.params), x.steps, Responder,
                      Signature(env.kth(x.params.initiatorXpub, 0), InitialDigest(env, other, x.params)))
    ensures env.Valid() && x.params.initiatorXpub != x.params.responderXpub
            ==> env.kth(x.params.initiatorXpub, 0) != env.kth(x.params.responderXpub, 0)
  {
    ProposeResponderChecksAll();
    ProposalViews(env, proposer, other, x.params);
    ReceivedIsHeld(Proposals.RunFrom(env, proposer, other, x.params), x.steps, Responder, Ini(InitialState));
  }

  /** A proposer whose generator has come to its end holds the responder's signature. */
  lemma ProposerIsAnswered(env: Environment, proposer: StateChannel, other: StateChannel, x: Proposals.Session)
    requires Proposals.Happens(env, proposer, other, x)
    ensures var run := Proposals.RunFrom(env, proposer, other, x.params);
            && Initiator in Execute(run, x.steps).value.locals
            && (Execute(run, x.steps).value.locals[Initiator].pc == |ProposeProtocol().initiator.code| ==>
                  RoleHolds(run, x.steps, Initiator,
                            Signature(env.kth(x.params.responderXpub, 0), InitialDigest(env, proposer, x.params))))
  {
    var run := Proposals.RunFrom(env, proposer, other, x.params);
    AlwaysKeepsChecked(run, x.steps, Initiator);
    ProposalViews(env, proposer, other, x.params);
    assert run.protocol.Of(Initiator).code[3] == Check(Res(InitialState));
  }
}
