/** Protocols in which every role persists last of all: which of the roles a run can leave behind. */
module AbandonedRuns {
  import opened Models
  import opened Protocols
  import opened Choreography
  import opened ProtocolRuns

  /** The generator's only `Persist` is its last instruction. */
  predicate PersistsLast(g: Generator) {
    g.code != [] && g.code[|g.code| - 1].Persist? && forall i :: 0 <= i < |g.code| - 1 ==> !g.code[i].Persist?
  }

  ghost predicate AllPersistLast(p: Protocol) {
    forall r: Role :: PersistsLast(p.Of(r))
  }

  /** A role has persisted exactly when it is at its end, and the roles in `behind` are not. */
  ghost predicate Behind(run: Run, s: State, behind: set<Role>) {
    forall r: Role :: r in s.locals
      && s.locals[r].pc <= |run.protocol.Of(r).code|
      && (s.locals[r].persisted <==> s.locals[r].pc == |run.protocol.Of(r).code|)
      && (r in behind ==> !s.locals[r].persisted)
  }

  /** The next step is not a persist of a role that is to be left behind. */
  predicate Allowed(run: Run, s: State, step: Step, behind: set<Role>) {
    step.Deliver? || step.Resume?
    || (step.Exec? && step.r in s.locals && !(step.r in behind && s.locals[step.r].pc == |run.protocol.Of(step.r).code| - 1))
  }

  lemma AllowedKeepsBehind(run: Run, s: State, step: Step, behind: set<Role>)
    requires AllPersistLast(run.protocol) && Behind(run, s, behind)
    requires Allowed(run, s, step, behind) && Next(run, s, step).Some?
    ensures Behind(run, Next(run, s, step).value, behind)
  {
    var t := Next(run, s, step).value;
    forall r: Role ensures r in t.locals && t.locals[r].pc <= |run.protocol.Of(r).code|
      && (t.locals[r].persisted <==> t.locals[r].pc == |run.protocol.Of(r).code|) && (r in behind ==> !t.locals[r].persisted)
    {
      assert PersistsLast(run.protocol.Of(r)) && r in s.locals;
    }
  }

  ghost predicate CanGoOn(run: Run, s: State, behind: set<Role>) {
    exists step: Step :: Allowed(run, s, step, behind) && Next(run, s, step).Some?
  }

  lemma GoesOn(run: Run, s: State, step: Step, behind: set<Role>)
    requires Allowed(run, s, step, behind) && Next(run, s, step).Some?
    ensures CanGoOn(run, s, behind)
  {
  }

  /** The role whose turn it is to send is not at its last instruction. */
  lemma BatonGoesOn(run: Run, s: State, behind: set<Role>)
    requires WellFormed(run.protocol) && Live(run, s) && AllPersistLast(run.protocol) && s.sent < |run.protocol.messages|
    requires UpToDate(run, s, run.protocol.messages[s.sent].from)
    ensures CanGoOn(run, s, behind)
  {
    var r := run.protocol.messages[s.sent].from;
    assert LiveOk(run, s, r) && RoleOk(run, s, r) && PersistsLast(run.protocol.Of(r));
    assert Pending(run, r, s.locals[r])[0].Snd?;
    assert Events(run.protocol.Of(r).code, |run.protocol.Of(r).code| - 1) == [];
    GoesOn(run, s, Exec(r), behind);
  }

  /** When no allowed step is left, every role but those to be left behind has persisted. */
  lemma StuckMeansLeftBehind(run: Run, s: State, behind: set<Role>)
    requires WellFormed(run.protocol) && Live(run, s) && AllPersistLast(run.protocol) && Behind(run, s, behind)
    requires !CanGoOn(run, s, behind)
    ensures forall r: Role :: s.locals[r].persisted <==> r !in behind
  {
    if s.net != [] { GoesOn(run, s, Deliver(0), behind); }
    forall r: Role ensures UpToDate(run, s, r) {
      assert RoleOk(run, s, r) && LiveOk(run, s, r);
      if CanResume(run, r, s.locals[r]) { GoesOn(run, s, Resume(r), behind); }
    }
    if s.sent < |run.protocol.messages| { BatonGoesOn(run, s, behind); }
    forall r: Role ensures s.locals[r].persisted <==> r !in behind { RoleIsLeft(run, s, r, behind); }
  }

  lemma RoleIsLeft(run: Run, s: State, r: Role, behind: set<Role>)
    requires WellFormed(run.protocol) && Live(run, s) && AllPersistLast(run.protocol) && Behind(run, s, behind)
    requires !CanGoOn(run, s, behind) && UpToDate(run, s, r) && s.sent == |run.protocol.messages|
    ensures s.locals[r].persisted <==> r !in behind
  {
    assert RoleOk(run, s, r) && LiveOk(run, s, r) && PersistsLast(run.protocol.Of(r));
    assert s.locals[r].phase == Running;
    if r !in behind && s.locals[r].pc < |run.protocol.Of(r).code| {
      GoesOn(run, s, Exec(r), behind);
    }
  }

  lemma {:induction false} Drive(run: Run, steps: seq<Step>, behind: set<Role>) returns (all: seq<Step>)
    requires WellFormed(run.protocol) && InSync(run) && AllPersistLast(run.protocol)
    requires Faultless(steps) && Execute(run, steps).Some? && Live(run, Execute(run, steps).value)
    requires Behind(run, Execute(run, steps).value, behind)
    ensures Faultless(all) && Execute(run, all).Some?
    ensures forall r: Role :: r in Execute(run, all).value.locals && (Execute(run, all).value.locals[r].persisted <==> r !in behind)
    decreases Work(run, Execute(run, steps).value)
  {
    var s := Execute(run, steps).value;
    if CanGoOn(run, s, behind) {
      var step: Step :| Allowed(run, s, step, behind) && Next(run, s, step).Some?;
      assert (steps + [step])[..|steps|] == steps;
      if step.Exec? { ExecLive(run, s, step.r); } else { DeliverOrResumeLive(run, s, step); }
      WorkShrinks(run, s, step);
      WorkNonNegative(run, Next(run, s, step).value);
      AllowedKeepsBehind(run, s, step, behind);
      all := Drive(run, steps + [step], behind);
    } else {
      StuckMeansLeftBehind(run, s, behind);
      all := steps;
    }
  }

  /**
   When every role persists last of all and the views agree, a run without a single fault can be
   abandoned so that any given set of roles has persisted and all others have not.
   */
  lemma AnySubsetMayPersist(run: Run, behind: set<Role>) returns (steps: seq<Step>)
    requires WellFormed(run.protocol) && InSync(run) && AllPersistLast(run.protocol)
    ensures Faultless(steps) && Execute(run, steps).Some?
    ensures forall r: Role :: r in Execute(run, steps).value.locals && (Execute(run, steps).value.locals[r].persisted <==> r !in behind)
  {
    forall r: Role ensures PersistAhead(run.protocol.Of(r), 0) {
      assert PersistsLast(run.protocol.Of(r));
      assert run.protocol.Of(r).code[|run.protocol.Of(r).code| - 1].Persist?;
    }
    FaultlessLive(run, []);
    NoneAtTheEnd(run, behind);
    steps := Drive(run, [], behind);
  }

  lemma NoneAtTheEnd(run: Run, behind: set<Role>)
    requires AllPersistLast(run.protocol)
    ensures Behind(run, Init(run), behind)
  {
    InitHasRoles(run);
    forall r: Role ensures run.protocol.Of(r).code != [] && Init(run).locals[r].pc == 0 && !Init(run).locals[r].persisted {
      assert PersistsLast(run.protocol.Of(r));
    }
  }

  // ---- Lost messages --------------------------------------------------------------------------

  /** No role can go on by itself. */
  ghost predicate AllWait(run: Run, s: State) {
    forall r: Role :: r in s.locals && !CanExec(run, r, s.locals[r]) && !CanResume(run, r, s.locals[r])
  }

  /**
   A message in flight can always be lost. When every role waits for it, that leaves a run in which nothing can
   happen any more but that the waits time out.
   */
  lemma LosingTheMessageStalls(run: Run, steps: seq<Step>)
    requires WellFormed(run.protocol) && Faithful(steps) && Execute(run, steps).Some? && Execute(run, steps).value.net != []
    ensures var s, t := Execute(run, steps).value, Execute(run, steps + [Lose(0)]);
            && t.Some? && t.value.net == [] && t.value.locals == s.locals
            && (AllWait(run, s) ==> !Enabled(run, t.value))
  {
    SingleBaton(run, steps);
    assert (steps + [Lose(0)])[..|steps|] == steps;
  }
}
