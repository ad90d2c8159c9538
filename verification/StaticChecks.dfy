/** Every script follows its message table, and every role but the proposer persists only countersigned states. */
module StaticChecks {
  import opened Models
  import opened Protocols
  import opened Choreography
  import opened Scripts
  import opened ProtocolRuns

  lemma AllFollow(p: Protocol)
    requires Chained(p.messages) && Follows(p, Initiator) && Follows(p, Intermediary) && Follows(p, Responder)
    ensures WellFormed(p)
  {
    forall r: Role ensures Follows(p, r) {
      match r case Initiator => case Intermediary => case Responder =>
    }
  }

  // ---- Setup, update, take-action and uninstall ---------------------------------------------------

  lemma OneRoundReads(d: Doc)
    ensures Initialised(Initiator, OneRound(d).initiator, 0) && Initialised(Responder, OneRound(d).responder, 0)
  {
    var i, r := OneRound(d).initiator, OneRound(d).responder;
    assert Known(Initiator, i, 1, Ini(d)) && Known(Initiator, i, 2, Res(d));
    assert Initialised(Initiator, i, 2) && Initialised(Initiator, i, 1);
    assert Known(Responder, r, 0, Ini(d)) && Known(Responder, r, 2, Res(d)) && Known(Responder, r, 3, Res(d));
    assert Initialised(Responder, r, 3) && Initialised(Responder, r, 1);
  }

  lemma OneRoundTalks(d: Doc)
    ensures Events(OneRound(d).initiator.code, 0) == Projection(OneRound(d).messages, Initiator, 0)
    ensures Events(OneRound(d).responder.code, 0) == Projection(OneRound(d).messages, Responder, 1)
  {
    var i, r, ms := OneRound(d).initiator.code, OneRound(d).responder.code, OneRound(d).messages;
    assert Events(i, 2) == [] && Events(i, 1) == [Snd(0, [Ini(d)]), Rcv(1, [Res(d)])];
    assert Events(r, 3) == [Snd(1, [Res(d)])] && Events(r, 1) == Events(r, 3);
    assert Projection(ms, Initiator, 1) == [Rcv(1, [Res(d)])];
  }

  lemma OneRoundIsWellFormed(d: Doc)
    ensures WellFormed(OneRound(d))
  {
    OneRoundReads(d);
    OneRoundTalks(d);
    assert Follows(OneRound(d), Initiator);
    assert Follows(OneRound(d), Intermediary);
    assert Follows(OneRound(d), Responder);
  }

  lemma OneRoundIsCountersigned(d: Doc)
    ensures forall r: Role :: PersistsCountersigned(OneRound(d).Of(r))
  {
    assert OneRound(d).initiator.code[2] == Check(Res(d));
    assert OneRound(d).responder.code[0] == Check(Ini(d));
  }

  lemma OneRoundPersists(d: Doc)
    ensures forall r: Role :: OneRound(d).Of(r).code == [] || PersistAhead(OneRound(d).Of(r), 0)
  {
    assert OneRound(d).initiator.code[3].Persist?;
    assert OneRound(d).responder.code[2].Persist?;
  }

  // ---- Propose ---------------------------------------------------------------------------------
  lemma ProposeInitiatorReads()
    ensures Initialised(Initiator, ProposeProtocol().initiator, 0)
  {}

  lemma ProposeInitiatorTalks()
    ensures Events(ProposeProtocol().initiator.code, 0) == Projection(ProposeProtocol().messages, Initiator, 0)
  {}

  lemma ProposeResponderReads()
    ensures Initialised(Responder, ProposeProtocol().responder, 0)
  {}

  lemma ProposeResponderTalks()
    ensures Events(ProposeProtocol().responder.code, 0) == Projection(ProposeProtocol().messages, Responder, 1)
  {}

  lemma ProposeInitiatorFollows()
    ensures Follows(ProposeProtocol(), Initiator)
  {
    ProposeInitiatorReads();
    ProposeInitiatorTalks();
  }

  lemma ProposeResponderFollows()
    ensures Follows(ProposeProtocol(), Responder)
  {
    ProposeResponderReads();
    ProposeResponderTalks();
  }

  lemma ProposeIsChained()
    ensures Chained(ProposeProtocol().messages)
  {}

  lemma ProposeHasTwoParties()
    ensures Follows(ProposeProtocol(), Intermediary)
  {}

  lemma ProposeIsWellFormed()
    ensures WellFormed(ProposeProtocol())
  {
    ProposeIsChained();
    ProposeInitiatorFollows();
    ProposeResponderFollows();
    ProposeHasTwoParties();
    AllFollow(ProposeProtocol());
  }

  lemma ProposePersists()
    ensures forall r: Role :: ProposeProtocol().Of(r).code == [] || PersistAhead(ProposeProtocol().Of(r), 0)
  {
    assert ProposeProtocol().initiator.code[0].Persist?;
    assert ProposeProtocol().responder.code[1].Persist?;
  }

  // ---- Install ---------------------------------------------------------------------------------
  lemma InstallInitiatorReads()
    ensures Initialised(Initiator, InstallProtocol().initiator, 0)
  {}

  lemma InstallInitiatorTalks()
    ensures Events(InstallProtocol().initiator.code, 0) == Projection(InstallProtocol().messages, Initiator, 0)
  {}

  lemma InstallResponderReads()
    ensures Initialised(Responder, InstallProtocol().responder, 0)
  {}

  lemma InstallResponderTalks()
    ensures Events(InstallProtocol().responder.code, 0) == Projection(InstallProtocol().messages, Responder, 1)
  {}

  lemma InstallInitiatorFollows()
    ensures Follows(InstallProtocol(), Initiator)
  {
    InstallInitiatorReads();
    InstallInitiatorTalks();
  }

  lemma InstallResponderFollows()
    ensures Follows(InstallProtocol(), Responder)
  {
    InstallResponderReads();
    InstallResponderTalks();
  }

  lemma InstallIsChained()
    ensures Chained(InstallProtocol().messages)
  {}

  lemma InstallHasTwoParties()
    ensures Follows(InstallProtocol(), Intermediary)
  {}

  lemma InstallIsWellFormed()
    ensures WellFormed(InstallProtocol())
  {
    InstallIsChained();
    InstallInitiatorFollows();
    InstallResponderFollows();
    InstallHasTwoParties();
    AllFollow(InstallProtocol());
  }

  lemma InstallIsCountersigned()
    ensures forall r: Role :: PersistsCountersigned(InstallProtocol().Of(r))
  {
    assert InstallProtocol().initiator.code[3] == Check(InstallProtocol().initiator.saves[0]);
    assert InstallProtocol().responder.code[4] == Check(InstallProtocol().responder.saves[0]);
  }

  lemma InstallPersists()
    ensures forall r: Role :: InstallProtocol().Of(r).code == [] || PersistAhead(InstallProtocol().Of(r), 0)
  {
    assert InstallProtocol().initiator.code[5].Persist?;
    assert InstallProtocol().responder.code[5].Persist?;
  }

  // ---- Withdraw --------------------------------------------------------------------------------
  lemma WithdrawInitiatorReadsFrom6()
    ensures Initialised(Initiator, WithdrawProtocol().initiator, 6)
  {}

  lemma WithdrawInitiatorReads()
    ensures Initialised(Initiator, WithdrawProtocol().initiator, 0)
  {
    WithdrawInitiatorReadsFrom6();
  }

  lemma WithdrawInitiatorTalksFrom6()
    ensures Events(WithdrawProtocol().initiator.code, 6) == Projection(WithdrawProtocol().messages, Initiator, 2)
  {}

  lemma WithdrawInitiatorTalks()
    ensures Events(WithdrawProtocol().initiator.code, 0) == Projection(WithdrawProtocol().messages, Initiator, 0)
  {
    WithdrawInitiatorTalksFrom6();
  }

  lemma WithdrawResponderReadsFrom6()
    ensures Initialised(Responder, WithdrawProtocol().responder, 6)
  {}

  lemma WithdrawResponderReads()
    ensures Initialised(Responder, WithdrawProtocol().responder, 0)
  {
    WithdrawResponderReadsFrom6();
  }

  lemma WithdrawResponderTalksFrom8()
    ensures Events(WithdrawProtocol().responder.code, 8) == Projection(WithdrawProtocol().messages, Responder, 3)
  {}

  lemma WithdrawResponderTalks()
    ensures Events(WithdrawProtocol().responder.code, 0) == Projection(WithdrawProtocol().messages, Responder, 1)
  {
    WithdrawResponderTalksFrom8();
  }

  lemma WithdrawInitiatorFollows()
    ensures Follows(WithdrawProtocol(), Initiator)
  {
    WithdrawInitiatorReads();
    WithdrawInitiatorTalks();
  }

  lemma WithdrawResponderFollows()
    ensures Follows(WithdrawProtocol(), Responder)
  {
    WithdrawResponderReads();
    WithdrawResponderTalks();
  }

  lemma WithdrawIsChained()
    ensures Chained(WithdrawProtocol().messages)
  {}

  lemma WithdrawHasTwoParties()
    ensures Follows(WithdrawProtocol(), Intermediary)
  {}

  lemma WithdrawIsWellFormed()
    ensures WellFormed(WithdrawProtocol())
  {
    WithdrawIsChained();
    WithdrawInitiatorFollows();
    WithdrawResponderFollows();
    WithdrawHasTwoParties();
    AllFollow(WithdrawProtocol());
  }

  lemma WithdrawIsCountersigned()
    ensures forall r: Role :: PersistsCountersigned(WithdrawProtocol().Of(r))
  {
    assert WithdrawProtocol().initiator.code[8] == Check(WithdrawProtocol().initiator.saves[0]);
    assert WithdrawProtocol().responder.code[9] == Check(WithdrawProtocol().responder.saves[0]);
  }

  lemma WithdrawPersists()
    ensures forall r: Role :: WithdrawProtocol().Of(r).code == [] || PersistAhead(WithdrawProtocol().Of(r), 0)
  {
    assert WithdrawProtocol().initiator.code[11].Persist?;
    assert WithdrawProtocol().responder.code[10].Persist?;
  }

  // ---- InstallVirtualApp -----------------------------------------------------------------------
  lemma InstallVirtualAppInitiatorReadsFrom6()
    ensures Initialised(Initiator, InstallVirtualAppProtocol().initiator, 6)
  {}

  lemma InstallVirtualAppInitiatorReads()
    ensures Initialised(Initiator, InstallVirtualAppProtocol().initiator, 0)
  {
    InstallVirtualAppInitiatorReadsFrom6();
  }

  lemma InstallVirtualAppInitiatorTalksFrom7()
    ensures Events(InstallVirtualAppProtocol().initiator.code, 7) == Projection(InstallVirtualAppProtocol().messages, Initiator, 4)
  {}

  lemma InstallVirtualAppInitiatorTalks()
    ensures Events(InstallVirtualAppProtocol().initiator.code, 0) == Projection(InstallVirtualAppProtocol().messages, Initiator, 0)
  {
    InstallVirtualAppInitiatorTalksFrom7();
  }

  lemma InstallVirtualAppIntermediaryReadsFrom14()
    ensures Initialised(Intermediary, InstallVirtualAppProtocol().intermediary, 14)
  {}

  lemma InstallVirtualAppIntermediaryReadsFrom12()
    ensures Initialised(Intermediary, InstallVirtualAppProtocol().intermediary, 12)
  {
    InstallVirtualAppIntermediaryReadsFrom14();
  }

  lemma InstallVirtualAppIntermediaryReadsFrom8()
    ensures Initialised(Intermediary, InstallVirtualAppProtocol().intermediary, 8)
  {
    InstallVirtualAppIntermediaryReadsFrom12();
  }

  lemma InstallVirtualAppIntermediaryReadsFrom4()
    ensures Initialised(Intermediary, InstallVirtualAppProtocol().intermediary, 4)
  {
    InstallVirtualAppIntermediaryReadsFrom8();
  }

  lemma InstallVirtualAppIntermediaryReads()
    ensures Initialised(Intermediary, InstallVirtualAppProtocol().intermediary, 0)
  {
    InstallVirtualAppIntermediaryReadsFrom4();
  }

  lemma InstallVirtualAppIntermediaryTalksFrom8()
    ensures Events(InstallVirtualAppProtocol().intermediary.code, 8) == Projection(InstallVirtualAppProtocol().messages, Intermediary, 5)
  {}

  lemma InstallVirtualAppIntermediaryTalks()
    ensures Events(InstallVirtualAppProtocol().intermediary.code, 0) == Projection(InstallVirtualAppProtocol().messages, Intermediary, 1)
  {
    InstallVirtualAppIntermediaryTalksFrom8();
  }

  lemma InstallVirtualAppResponderReadsFrom6()
    ensures Initialised(Responder, InstallVirtualAppProtocol().responder, 6)
  {}

  lemma InstallVirtualAppResponderReads()
    ensures Initialised(Responder, InstallVirtualAppProtocol().responder, 0)
  {
    InstallVirtualAppResponderReadsFrom6();
  }

  lemma InstallVirtualAppResponderTalksFrom4()
    ensures Events(InstallVirtualAppProtocol().responder.code, 4) == Projection(InstallVirtualAppProtocol().messages, Responder, 6)
  {}

  lemma InstallVirtualAppResponderTalks()
    ensures Events(InstallVirtualAppProtocol().responder.code, 0) == Projection(InstallVirtualAppProtocol().messages, Responder, 2)
  {
    InstallVirtualAppResponderTalksFrom4();
  }

  lemma InstallVirtualAppInitiatorFollows()
    ensures Follows(InstallVirtualAppProtocol(), Initiator)
  {
    InstallVirtualAppInitiatorReads();
    InstallVirtualAppInitiatorTalks();
  }

  lemma InstallVirtualAppIntermediaryFollows()
    ensures Follows(InstallVirtualAppProtocol(), Intermediary)
  {
    InstallVirtualAppIntermediaryReads();
    InstallVirtualAppIntermediaryTalks();
  }

  lemma InstallVirtualAppResponderFollows()
    ensures Follows(InstallVirtualAppProtocol(), Responder)
  {
    InstallVirtualAppResponderReads();
    InstallVirtualAppResponderTalks();
  }

  lemma InstallVirtualAppIsChained()
    ensures Chained(InstallVirtualAppProtocol().messages)
  {}

  lemma InstallVirtualAppIsWellFormed()
    ensures WellFormed(InstallVirtualAppProtocol())
  {
    InstallVirtualAppIsChained();
    InstallVirtualAppInitiatorFollows();
    InstallVirtualAppIntermediaryFollows();
    InstallVirtualAppResponderFollows();
    AllFollow(InstallVirtualAppProtocol());
  }

  lemma InstallVirtualAppIsCountersigned()
    ensures forall r: Role :: PersistsCountersigned(InstallVirtualAppProtocol().Of(r))
  {
    assert InstallVirtualAppProtocol().initiator.code[3] == Check(InstallVirtualAppProtocol().initiator.saves[0]);
    assert InstallVirtualAppProtocol().intermediary.code[8] == Check(InstallVirtualAppProtocol().intermediary.saves[0]);
    assert InstallVirtualAppProtocol().intermediary.code[4] == Check(InstallVirtualAppProtocol().intermediary.saves[1]);
    assert InstallVirtualAppProtocol().responder.code[4] == Check(InstallVirtualAppProtocol().responder.saves[0]);
  }

  lemma InstallVirtualAppPersists()
    ensures forall r: Role :: InstallVirtualAppProtocol().Of(r).code == [] || PersistAhead(InstallVirtualAppProtocol().Of(r), 0)
  {
    assert InstallVirtualAppProtocol().initiator.code[11].Persist?;
    assert InstallVirtualAppProtocol().intermediary.code[15].Persist?;
    assert InstallVirtualAppProtocol().responder.code[11].Persist?;
  }

  // ---- UninstallVirtualApp ---------------------------------------------------------------------
  lemma UninstallVirtualAppInitiatorReads()
    ensures Initialised(Initiator, UninstallVirtualAppProtocol().initiator, 0)
  {}

  lemma UninstallVirtualAppInitiatorTalks()
    ensures Events(UninstallVirtualAppProtocol().initiator.code, 0) == Projection(UninstallVirtualAppProtocol().messages, Initiator, 0)
  {}

  lemma UninstallVirtualAppIntermediaryReadsFrom6()
    ensures Initialised(Intermediary, UninstallVirtualAppProtocol().intermediary, 6)
  {}

  lemma UninstallVirtualAppIntermediaryReads()
    ensures Initialised(Intermediary, UninstallVirtualAppProtocol().intermediary, 0)
  {
    UninstallVirtualAppIntermediaryReadsFrom6();
  }

  lemma UninstallVirtualAppIntermediaryTalksFrom8()
    ensures Events(UninstallVirtualAppProtocol().intermediary.code, 8) == Projection(UninstallVirtualAppProtocol().messages, Intermediary, 5)
  {}

  lemma UninstallVirtualAppIntermediaryTalks()
    ensures Events(UninstallVirtualAppProtocol().intermediary.code, 0) == Projection(UninstallVirtualAppProtocol().messages, Intermediary, 1)
  {
    UninstallVirtualAppIntermediaryTalksFrom8();
  }

  lemma UninstallVirtualAppResponderReads()
    ensures Initialised(Responder, UninstallVirtualAppProtocol().responder, 0)
  {}

  lemma UninstallVirtualAppResponderTalks()
    ensures Events(UninstallVirtualAppProtocol().responder.code, 0) == Projection(UninstallVirtualAppProtocol().messages, Responder, 2)
  {}

  lemma UninstallVirtualAppInitiatorFollows()
    ensures Follows(UninstallVirtualAppProtocol(), Initiator)
  {
    UninstallVirtualAppInitiatorReads();
    UninstallVirtualAppInitiatorTalks();
  }

  lemma UninstallVirtualAppIntermediaryFollows()
    ensures Follows(UninstallVirtualAppProtocol(), Intermediary)
  {
    UninstallVirtualAppIntermediaryReads();
    UninstallVirtualAppIntermediaryTalks();
  }

  lemma UninstallVirtualAppResponderFollows()
    ensures Follows(UninstallVirtualAppProtocol(), Responder)
  {
    UninstallVirtualAppResponderReads();
    UninstallVirtualAppResponderTalks();
  }

  lemma UninstallVirtualAppIsChained()
    ensures Chained(UninstallVirtualAppProtocol().messages)
  {}

  lemma UninstallVirtualAppIsWellFormed()
    ensures WellFormed(UninstallVirtualAppProtocol())
  {
    UninstallVirtualAppIsChained();
    UninstallVirtualAppInitiatorFollows();
    UninstallVirtualAppIntermediaryFollows();
    UninstallVirtualAppResponderFollows();
    AllFollow(UninstallVirtualAppProtocol());
  }

  lemma UninstallVirtualAppIsCountersigned()
    ensures forall r: Role :: PersistsCountersigned(UninstallVirtualAppProtocol().Of(r))
  {
    assert UninstallVirtualAppProtocol().initiator.code[6] == Check(UninstallVirtualAppProtocol().initiator.saves[0]);
    assert UninstallVirtualAppProtocol().intermediary.code[5] == Check(UninstallVirtualAppProtocol().intermediary.saves[0]);
    assert UninstallVirtualAppProtocol().intermediary.code[9] == Check(UninstallVirtualAppProtocol().intermediary.saves[1]);
    assert UninstallVirtualAppProtocol().responder.code[4] == Check(UninstallVirtualAppProtocol().responder.saves[0]);
  }

  lemma UninstallVirtualAppPersists()
    ensures forall r: Role :: UninstallVirtualAppProtocol().Of(r).code == [] || PersistAhead(UninstallVirtualAppProtocol().Of(r), 0)
  {
    assert UninstallVirtualAppProtocol().initiator.code[7].Persist?;
    assert UninstallVirtualAppProtocol().intermediary.code[10].Persist?;
    assert UninstallVirtualAppProtocol().responder.code[6].Persist?;
  }

  // ---- All of them ----------------------------------------------------------------------------

  predicate IsProtocol(p: Protocol) {
    || p == SetupProtocol() || p == UpdateProtocol() || p == UninstallProtocol() || p == ProposeProtocol()
    || p == InstallProtocol() || p == WithdrawProtocol()
    || p == InstallVirtualAppProtocol() || p == UninstallVirtualAppProtocol()
  }

  lemma EveryProtocolIsWellFormed(p: Protocol)
    requires IsProtocol(p)
    ensures WellFormed(p)
    ensures forall r: Role :: p.Of(r).code == [] || PersistAhead(p.Of(r), 0)
  {
    if p == ProposeProtocol() { ProposeIsWellFormed(); ProposePersists(); }
    else if p == InstallProtocol() { InstallIsWellFormed(); InstallPersists(); }
    else if p == WithdrawProtocol() { WithdrawIsWellFormed(); WithdrawPersists(); }
    else if p == InstallVirtualAppProtocol() { InstallVirtualAppIsWellFormed(); InstallVirtualAppPersists(); }
    else if p == UninstallVirtualAppProtocol() { UninstallVirtualAppIsWellFormed(); UninstallVirtualAppPersists(); }
    else {
      var d :| p == OneRound(d);
      OneRoundIsWellFormed(d);
      OneRoundPersists(d);
    }
  }

  /** The proposer has persisted when it holds no signature at all. */
  lemma ProposerPersistsUnsigned(run: Run)
    requires run.protocol == ProposeProtocol() && run.computes(Initiator)
    ensures var s := Execute(run, [Exec(Initiator)]);
            && s.Some? && Initiator in s.value.locals
            && s.value.locals[Initiator].persisted && s.value.locals[Initiator].held == map[]
    ensures !PersistsCountersigned(run.protocol.initiator)
  {
    var steps := [Exec(Initiator)];
    assert steps[..0] == [] && Execute(run, []) == Some(Init(run));
    assert !CheckedBefore(run.protocol.initiator.code, 0, Res(InitialState));
    assert run.protocol.initiator.code[0].Persist? && Res(InitialState) in run.protocol.initiator.saves;
  }

  /** Every role persists only what its counterparties signed, in every protocol but propose. */
  lemma CountersignedIffNotPropose(p: Protocol)
    requires IsProtocol(p)
    ensures (forall r: Role :: PersistsCountersigned(p.Of(r))) <==> p != ProposeProtocol()
  {
    if p == ProposeProtocol() {
      ProposerPersistsUnsigned(Run(p, v => 0, (r, d) => OtherDigest(0), r => true));
      assert p.Of(Initiator) == p.initiator;
    }
    else if p == InstallProtocol() { InstallIsCountersigned(); }
    else if p == WithdrawProtocol() { WithdrawIsCountersigned(); }
    else if p == InstallVirtualAppProtocol() { InstallVirtualAppIsCountersigned(); }
    else if p == UninstallVirtualAppProtocol() { UninstallVirtualAppIsCountersigned(); }
    else {
      var d :| p == OneRound(d);
      OneRoundIsCountersigned(d);
    }
  }

  /** Role `q` persists before it sends message `a`, and role `r` only after it has received it. */
  predicate PersistsFirst(p: Protocol, q: Role, r: Role, a: nat) {
    && a < |p.messages| && p.messages[a].from == q
    && PersistsBeforeSending(p.Of(q).code, 0, a) && PersistsAfterReceiving(p.Of(r).code, 0, a)
  }

  lemma InstallInitiatorPersistsFirst()
    ensures PersistsFirst(InstallProtocol(), Initiator, Responder, 2)
  {}

  lemma UninstallResponderPersistsFirst()
    ensures PersistsFirst(UninstallProtocol(), Responder, Initiator, 1)
  {}

  lemma UpdateResponderPersistsFirst()
    ensures PersistsFirst(UpdateProtocol(), Responder, Initiator, 1)
  {}

  lemma WithdrawResponderPersistsFirst()
    ensures PersistsFirst(WithdrawProtocol(), Responder, Initiator, 5)
  {
    WithdrawResponderPersistsBefore();
    WithdrawInitiatorPersistsAfter();
  }

  lemma WithdrawResponderPersistsBefore()
    ensures PersistsBeforeSending(WithdrawProtocol().responder.code, 0, 5)
  {}

  lemma WithdrawInitiatorPersistsAfter()
    ensures PersistsAfterReceiving(WithdrawProtocol().initiator.code, 0, 5)
  {}

  lemma UninstallVirtualAppResponderPersistsFirst()
    ensures PersistsFirst(UninstallVirtualAppProtocol(), Responder, Intermediary, 6)
  {
    UninstallVirtualAppResponderPersistsBefore();
    UninstallVirtualAppIntermediaryPersistsAfter();
  }

  lemma UninstallVirtualAppResponderPersistsBefore()
    ensures PersistsBeforeSending(UninstallVirtualAppProtocol().responder.code, 0, 6)
  {}

  lemma UninstallVirtualAppIntermediaryPersistsAfter()
    ensures PersistsAfterReceiving(UninstallVirtualAppProtocol().intermediary.code, 0, 6)
  {}

  lemma UninstallVirtualAppInitiatorPersistsLast()
    ensures PersistsFirst(UninstallVirtualAppProtocol(), Intermediary, Initiator, 7)
  {
    UninstallVirtualAppIntermediaryPersistsBefore();
    UninstallVirtualAppInitiatorPersistsAfter();
  }

  lemma UninstallVirtualAppIntermediaryPersistsBefore()
    ensures PersistsBeforeSending(UninstallVirtualAppProtocol().intermediary.code, 0, 7)
  {}

  lemma UninstallVirtualAppInitiatorPersistsAfter()
    ensures PersistsAfterReceiving(UninstallVirtualAppProtocol().initiator.code, 0, 7)
  {}

  /** In a virtual uninstall, whoever persisted did so after everyone further down the chain. */
  lemma VirtualUninstallOrder(run: Run, steps: seq<Step>)
    requires run.protocol == UninstallVirtualAppProtocol() && Faithful(steps) && Execute(run, steps).Some?
    ensures var s := Execute(run, steps).value;
            && Roles(s)
            && (s.locals[Initiator].persisted ==> s.locals[Intermediary].persisted)
            && (s.locals[Intermediary].persisted ==> s.locals[Responder].persisted)
  {
    EveryProtocolIsWellFormed(run.protocol);
    UninstallVirtualAppResponderPersistsFirst();
    UninstallVirtualAppInitiatorPersistsLast();
    AlwaysInv(run, steps);
    PersistOrder(run, steps, Responder, Intermediary, 6);
    PersistOrder(run, steps, Intermediary, Initiator, 7);
  }
}
