/** The guarantees of every run of a well-formed protocol. */
module ProtocolRuns {
  import opened Models
  import opened Protocols
  import opened Choreography

  /** No forged messages; messages may be lost and roles may stop. */
  ghost predicate Faithful(steps: seq<Step>) {
    forall step :: step in steps ==> !step.Forge?
  }

  lemma {:induction false} AlwaysInv(run: Run, steps: seq<Step>)
    requires WellFormed(run.protocol) && Faithful(steps) && Execute(run, steps).Some?
    ensures Inv(run, Execute(run, steps).value)
  {
    if steps == [] {
      InitInv(run);
    } else {
      AlwaysInv(run, steps[..|steps| - 1]);
      NextInv(run, Execute(run, steps[..|steps| - 1]).value, steps[|steps| - 1]);
    }
  }

  /** What role `r` will do with message `m`. */
  ghost predicate Expects(run: Run, r: Role, l: Local, m: nat) {
    var g := run.protocol.Of(r);
    || l.phase == Stopped
    || (l.phase == Waiting && l.pc < |g.code| && g.code[l.pc].SendAndWait? && g.code[l.pc].awaits == m)
    || (l.phase == NotStarted && g.code != [] && g.opening == m && m < |run.protocol.messages| && run.protocol.messages[m].seqNo == g.seqNo)
  }

  /**
   At most one message is in flight; its receiver has a deferral open for exactly that message, or is
   the generator that message starts, or has stopped; no message is ever dropped by a busy receiver or
   taken for the start of another run; and a reply that reached a deferral is the one awaited.
   */
  lemma SingleBaton(run: Run, steps: seq<Step>)
    requires WellFormed(run.protocol) && Faithful(steps) && Execute(run, steps).Some?
    ensures var s := Execute(run, steps).value;
            && Roles(s) && |s.net| <= 1 && !s.misrouted
            && (s.net != [] ==>
                  s.net[0].m < |run.protocol.messages| && Expects(run, s.net[0].to, s.locals[s.net[0].to], s.net[0].m))
            && (forall r: Role :: CanResume(run, r, s.locals[r]) ==>
                  s.locals[r].phase.reply.m == run.protocol.Of(r).code[s.locals[r].pc].awaits)
  {
    AlwaysInv(run, steps);
    var s := Execute(run, steps).value;
    RepliesAreAwaited(run, s);
    if s.net != [] {
      ReceiverExpects(run, s);
    }
  }

  lemma RepliesAreAwaited(run: Run, s: State)
    requires WellFormed(run.protocol) && Inv(run, s)
    ensures forall r: Role :: CanResume(run, r, s.locals[r]) ==>
              s.locals[r].phase.reply.m == run.protocol.Of(r).code[s.locals[r].pc].awaits
  {
    forall r: Role | CanResume(run, r, s.locals[r])
      ensures s.locals[r].phase.reply.m == run.protocol.Of(r).code[s.locals[r].pc].awaits
    {
      ResumeInv(run, s, r);
    }
  }

  lemma ReceiverExpects(run: Run, s: State)
    requires WellFormed(run.protocol) && Inv(run, s) && s.net != []
    ensures s.net[0].m < |run.protocol.messages| && Expects(run, s.net[0].to, s.locals[s.net[0].to], s.net[0].m)
  {
    var r := s.net[0].to;
    assert RoleOk(run, s, r);
    if s.locals[r].phase != Stopped {
      if s.locals[r].phase == Running {
        RunningIsUpToDate(run, s, r);
      }
      assert Pending(run, r, s.locals[r])[0] == Rcv(s.sent - 1, run.protocol.messages[s.sent - 1].fields);
      assert Follows(run.protocol, r);
    }
  }

  /** A signature check fails exactly when its recipient and its signer see different documents. */
  lemma CheckFailsIffViewsDiffer(run: Run, steps: seq<Step>, r: Role)
    requires WellFormed(run.protocol) && Faithful(steps) && Execute(run, steps).Some?
    requires r in Execute(run, steps).value.locals && CanExec(run, r, Execute(run, steps).value.locals[r])
    requires run.protocol.Of(r).code[Execute(run, steps).value.locals[r].pc].Check?
    ensures var l := Execute(run, steps).value.locals[r];
            var v := run.protocol.Of(r).code[l.pc].v;
            ExecLocal(run, r, l).phase == Stopped <==> run.view(r, v.doc) != run.view(v.signer, v.doc)
  {
    AlwaysInv(run, steps);
    var s := Execute(run, steps).value;
    assert RoleOk(run, s, r) && Follows(run.protocol, r);
    ReadsGenuine(run, r, s.locals[r], run.protocol.Of(r).code[s.locals[r].pc].v);
  }

  ghost predicate HeldAgrees(run: Run, r: Role, l: Local) {
    forall v :: v in l.held ==> run.view(r, v.doc) == run.view(v.signer, v.doc)
  }

  lemma ExecHeldAgrees(run: Run, r: Role, l: Local)
    requires CanExec(run, r, l) && HeldAgrees(run, r, l)
    requires var instr := run.protocol.Of(r).code[l.pc];
             instr.Check? ==> instr.v in l.vars && l.vars[instr.v] == run.Genuine(instr.v)
    ensures HeldAgrees(run, r, ExecLocal(run, r, l))
  {
  }

  lemma NextHeldAgrees(run: Run, s: State, step: Step, r: Role)
    requires WellFormed(run.protocol) && Inv(run, s) && !step.Forge? && Next(run, s, step).Some?
    requires HeldAgrees(run, r, s.locals[r])
    ensures var s' := Next(run, s, step).value; r in s'.locals && HeldAgrees(run, r, s'.locals[r])
  {
    if step == Exec(r) {
      assert RoleOk(run, s, r) && Follows(run.protocol, r);
      var instr := run.protocol.Of(r).code[s.locals[r].pc];
      if instr.Check? { ReadsGenuine(run, r, s.locals[r], instr.v); }
      ExecHeldAgrees(run, r, s.locals[r]);
    }
  }

  lemma {:induction false} AlwaysHeldAgrees(run: Run, steps: seq<Step>, r: Role)
    requires WellFormed(run.protocol) && Faithful(steps) && Execute(run, steps).Some?
    ensures var s := Execute(run, steps).value; r in s.locals && HeldAgrees(run, r, s.locals[r])
  {
    if steps == [] {
      InitHasRoles(run);
    } else {
      var p := steps[..|steps| - 1];
      AlwaysInv(run, p);
      AlwaysHeldAgrees(run, p, r);
      NextHeldAgrees(run, Execute(run, p).value, steps[|steps| - 1], r);
    }
  }

  /** A role persists only a state that its counterparties compute too. */
  lemma PersistedMeansAgreed(run: Run, steps: seq<Step>, r: Role, v: Var)
    requires WellFormed(run.protocol) && Faithful(steps) && Execute(run, steps).Some?
    requires PersistsCountersigned(run.protocol.Of(r)) && v in run.protocol.Of(r).saves
    ensures var s := Execute(run, steps).value;
            r in s.locals && (s.locals[r].persisted ==> run.view(r, v.doc) == run.view(v.signer, v.doc))
  {
    AlwaysHeldAgrees(run, steps, r);
    CountersignedPersistence(run, steps, r, v);
  }

  // ---- A party that cannot compute persists nothing -------------------------------------------

  ghost predicate Idle(run: Run, r: Role, l: Local) {
    && !l.persisted
    && (l.phase == NotStarted || l.phase == Stopped || (run.computes(r) && run.protocol.Of(r).code == []))
  }

  lemma IdleStays(run: Run, s: State, step: Step, r: Role)
    requires r in s.locals && Idle(run, r, s.locals[r]) && Next(run, s, step).Some?
    requires !run.computes(r) || run.protocol.Of(r).code == []
    ensures r in Next(run, s, step).value.locals && Idle(run, r, Next(run, s, step).value.locals[r])
  {
  }

  lemma {:induction false} PersistedComputes(run: Run, steps: seq<Step>, r: Role)
    requires Execute(run, steps).Some?
    ensures r in Execute(run, steps).value.locals
    ensures Execute(run, steps).value.locals[r].persisted ==> run.computes(r) && run.protocol.Of(r).code != []
  {
    AllPresent(run, steps);
    if !run.computes(r) || run.protocol.Of(r).code == [] {
      StaysIdle(run, steps, r);
    }
  }

  lemma {:induction false} AllPresent(run: Run, steps: seq<Step>)
    requires Execute(run, steps).Some?
    ensures Roles(Execute(run, steps).value)
  {
    if steps == [] {
      InitHasRoles(run);
    } else {
      AllPresent(run, steps[..|steps| - 1]);
    }
  }

  lemma {:induction false} StaysIdle(run: Run, steps: seq<Step>, r: Role)
    requires Execute(run, steps).Some? && (!run.computes(r) || run.protocol.Of(r).code == [])
    ensures r in Execute(run, steps).value.locals && Idle(run, r, Execute(run, steps).value.locals[r])
  {
    if steps == [] {
      InitHasRoles(run);
    } else {
      var p := steps[..|steps| - 1];
      StaysIdle(run, p, r);
      IdleStays(run, Execute(run, p).value, steps[|steps| - 1], r);
    }
  }

  // ---- Which side persists first --------------------------------------------------------------

  /** Before `Persist`, the generator sends only messages below `a`. */
  predicate PersistsBeforeSending(code: seq<Instr>, i: nat, a: nat)
    decreases |code| - i
  {
    i >= |code| ||
    match code[i]
    case Persist => true
    case Send(m, _) => m < a && PersistsBeforeSending(code, i + 1, a)
    case SendAndWait(m, _, _, _) => m < a && PersistsBeforeSending(code, i + 1, a)
    case _ => PersistsBeforeSending(code, i + 1, a)
  }

  /** `Persist` comes after waiting for message `a`. */
  predicate PersistsAfterReceiving(code: seq<Instr>, i: nat, a: nat)
    decreases |code| - i
  {
    i >= |code| ||
    match code[i]
    case Persist => false
    case SendAndWait(_, _, awaits, _) => awaits == a || PersistsAfterReceiving(code, i + 1, a)
    case _ => PersistsAfterReceiving(code, i + 1, a)
  }

  ghost predicate FirstOk(run: Run, s: State, q: Role, a: nat)
    requires q in s.locals
  {
    var l := s.locals[q];
    l.persisted || (s.sent <= a && (l.phase != Stopped ==> PersistsBeforeSending(run.protocol.Of(q).code, l.pc, a)))
  }

  ghost predicate SecondOk(run: Run, s: State, r: Role, a: nat)
    requires r in s.locals
  {
    var l := s.locals[r];
    a < s.sent || (!l.persisted && (l.phase != Stopped ==> PersistsAfterReceiving(run.protocol.Of(r).code, l.pc, a)))
  }

  lemma FirstExec(run: Run, s: State, r: Role, q: Role, a: nat)
    requires WellFormed(run.protocol) && Inv(run, s) && CanExec(run, r, s.locals[r])
    requires a < |run.protocol.messages| && run.protocol.messages[a].from == q && FirstOk(run, s, q, a)
    ensures q in Next(run, s, Exec(r)).value.locals && FirstOk(run, Next(run, s, Exec(r)).value, q, a)
  {
    var instr := run.protocol.Of(r).code[s.locals[r].pc];
    if instr.Send? || instr.SendAndWait? {
      SenderHoldsBaton(run, s, r);
      assert Emitted(run, r, s.locals[r])[0].m == instr.m;
    }
  }

  lemma FirstNext(run: Run, s: State, step: Step, q: Role, a: nat)
    requires WellFormed(run.protocol) && Inv(run, s) && !step.Forge? && Next(run, s, step).Some?
    requires a < |run.protocol.messages| && run.protocol.messages[a].from == q && FirstOk(run, s, q, a)
    ensures q in Next(run, s, step).value.locals && FirstOk(run, Next(run, s, step).value, q, a)
  {
    if step.Exec? {
      FirstExec(run, s, step.r, q, a);
    }
  }

  lemma SecondResume(run: Run, s: State, q: Role, r: Role, a: nat)
    requires WellFormed(run.protocol) && Inv(run, s) && CanResume(run, q, s.locals[q]) && SecondOk(run, s, r, a)
    ensures r in Next(run, s, Resume(q)).value.locals && SecondOk(run, Next(run, s, Resume(q)).value, r, a)
  {
    ResumeInv(run, s, q);
    assert NetOk(run, s);
  }

  lemma SecondExec(run: Run, s: State, q: Role, r: Role, a: nat)
    requires r in s.locals && q in s.locals && CanExec(run, q, s.locals[q]) && SecondOk(run, s, r, a)
    ensures r in Next(run, s, Exec(q)).value.locals && SecondOk(run, Next(run, s, Exec(q)).value, r, a)
  {
  }

  lemma SecondNext(run: Run, s: State, step: Step, r: Role, a: nat)
    requires WellFormed(run.protocol) && Inv(run, s) && !step.Forge? && Next(run, s, step).Some?
    requires SecondOk(run, s, r, a)
    ensures r in Next(run, s, step).value.locals && SecondOk(run, Next(run, s, step).value, r, a)
  {
    if step.Resume? {
      SecondResume(run, s, step.r, r, a);
    } else if step.Exec? {
      SecondExec(run, s, step.r, r, a);
    }
  }

  lemma {:induction false} PersistOrderInv(run: Run, steps: seq<Step>, q: Role, r: Role, a: nat)
    requires WellFormed(run.protocol) && Faithful(steps) && Execute(run, steps).Some?
    requires a < |run.protocol.messages| && run.protocol.messages[a].from == q
    requires PersistsBeforeSending(run.protocol.Of(q).code, 0, a)
    requires PersistsAfterReceiving(run.protocol.Of(r).code, 0, a)
    ensures var s := Execute(run, steps).value;
            Inv(run, s) && FirstOk(run, s, q, a) && SecondOk(run, s, r, a)
  {
    AlwaysInv(run, steps);
    if steps != [] {
      var p := steps[..|steps| - 1];
      PersistOrderInv(run, p, q, r, a);
      FirstNext(run, Execute(run, p).value, steps[|steps| - 1], q, a);
      SecondNext(run, Execute(run, p).value, steps[|steps| - 1], r, a);
    }
  }

  /** When `q` persists before sending message `a` and `r` only after receiving it, `r` never persists alone. */
  lemma PersistOrder(run: Run, steps: seq<Step>, q: Role, r: Role, a: nat)
    requires WellFormed(run.protocol) && Faithful(steps) && Execute(run, steps).Some?
    requires a < |run.protocol.messages| && run.protocol.messages[a].from == q
    requires PersistsBeforeSending(run.protocol.Of(q).code, 0, a)
    requires PersistsAfterReceiving(run.protocol.Of(r).code, 0, a)
    ensures var s := Execute(run, steps).value;
            q in s.locals && r in s.locals && (s.locals[r].persisted ==> s.locals[q].persisted)
  {
    PersistOrderInv(run, steps, q, r, a);
  }

  // ---- Runs without faults complete -----------------------------------------------------------

  /** Whoever checks a signature sees the document that was signed, and every role can compute its new channel. */
  ghost predicate InSync(run: Run) {
    && (forall r: Role :: run.computes(r))
    && (forall r: Role, i :: 0 <= i < |run.protocol.Of(r).code| && run.protocol.Of(r).code[i].Check? ==>
          var v := run.protocol.Of(r).code[i].v;
          run.view(r, v.doc) == run.view(v.signer, v.doc))
  }

  ghost predicate Faultless(steps: seq<Step>) {
    forall step :: step in steps ==> step.Exec? || step.Deliver? || step.Resume?
  }

  ghost predicate PersistAhead(g: Generator, i: nat) {
    exists j :: i <= j < |g.code| && g.code[j].Persist?
  }

  ghost predicate LiveOk(run: Run, s: State, r: Role)
    requires r in s.locals
  {
    && s.locals[r].phase != Stopped
    && (AwaitsLast(run, s, r) ==> Due(s, r))
    && (s.locals[r].persisted || run.protocol.Of(r).code == [] || PersistAhead(run.protocol.Of(r), s.locals[r].pc))
  }

  ghost predicate Live(run: Run, s: State) {
    Inv(run, s) && forall r: Role :: LiveOk(run, s, r)
  }

  function PhaseWork(phase: Phase): int {
    match phase
    case NotStarted => 1
    case Running => 0
    case Waiting => -1
    case Resolved(_) => -2
    case Stopped => 0
  }

  function RoleWork(run: Run, r: Role, l: Local): int {
    4 * (|run.protocol.Of(r).code| - l.pc) + PhaseWork(l.phase)
  }

  function Work(run: Run, s: State): int
    requires Initiator in s.locals && Intermediary in s.locals && Responder in s.locals
  {
    RoleWork(run, Initiator, s.locals[Initiator]) + RoleWork(run, Intermediary, s.locals[Intermediary])
    + RoleWork(run, Responder, s.locals[Responder])
  }

  lemma ExecAlive(run: Run, s: State, r: Role)
    requires WellFormed(run.protocol) && InSync(run) && Live(run, s) && CanExec(run, r, s.locals[r])
    ensures ExecLocal(run, r, s.locals[r]).phase != Stopped
  {
    var l, instr := s.locals[r], run.protocol.Of(r).code[s.locals[r].pc];
    assert LiveOk(run, s, r) && RoleOk(run, s, r) && Follows(run.protocol, r);
    if instr.Check? {
      ReadsGenuine(run, r, l, instr.v);
    }
  }

  /** A role that goes on running has no message due to it. */
  lemma RunningIsLive(run: Run, s: State, r: Role)
    requires Inv(run, s) && s.locals[r].phase == Running
    requires s.locals[r].persisted || run.protocol.Of(r).code == [] || PersistAhead(run.protocol.Of(r), s.locals[r].pc)
    ensures LiveOk(run, s, r)
  {
    assert RoleOk(run, s, r);
    RunningIsUpToDate(run, s, r);
    FirstEventIsSend(run.protocol.Of(r).code, s.locals[r].pc);
  }

  lemma PersistStaysAhead(run: Run, s: State, r: Role)
    requires Live(run, s) && CanExec(run, r, s.locals[r]) && ExecLocal(run, r, s.locals[r]).phase != Stopped
    ensures var l := ExecLocal(run, r, s.locals[r]);
            l.persisted || run.protocol.Of(r).code == [] || PersistAhead(run.protocol.Of(r), l.pc)
  {
    assert LiveOk(run, s, r);
  }

  /** The role that has just executed an opcode. */
  lemma ExecutorLive(run: Run, s: State, r: Role)
    requires WellFormed(run.protocol) && InSync(run) && Live(run, s) && CanExec(run, r, s.locals[r])
    requires Inv(run, Next(run, s, Exec(r)).value)
    ensures LiveOk(run, Next(run, s, Exec(r)).value, r)
  {
    var s' := Next(run, s, Exec(r)).value;
    ExecAlive(run, s, r);
    PersistStaysAhead(run, s, r);
    if s'.locals[r].phase == Running {
      RunningIsLive(run, s', r);
    } else {
      WaiterLive(run, s, r);
    }
  }

  /** A role that has just sent and waits is not the one that the message is for. */
  lemma WaiterLive(run: Run, s: State, r: Role)
    requires WellFormed(run.protocol) && Live(run, s) && CanExec(run, r, s.locals[r])
    requires run.protocol.Of(r).code[s.locals[r].pc].SendAndWait? && Inv(run, Next(run, s, Exec(r)).value)
    ensures !AwaitsLast(run, Next(run, s, Exec(r)).value, r)
  {
    SenderHoldsBaton(run, s, r);
  }

  /** The roles that look on while another one executes an opcode. */
  lemma OnlookerLive(run: Run, s: State, r: Role, q: Role)
    requires WellFormed(run.protocol) && Live(run, s) && CanExec(run, r, s.locals[r]) && q != r
    ensures LiveOk(run, Next(run, s, Exec(r)).value, q)
  {
    assert LiveOk(run, s, q);
    var instr := run.protocol.Of(r).code[s.locals[r].pc];
    if instr.Send? || instr.SendAndWait? { SenderHoldsBaton(run, s, r); }
  }

  lemma ExecLive(run: Run, s: State, r: Role)
    requires WellFormed(run.protocol) && InSync(run) && Live(run, s) && CanExec(run, r, s.locals[r])
    ensures Live(run, Next(run, s, Exec(r)).value)
  {
    NextInv(run, s, Exec(r));
    forall q: Role ensures LiveOk(run, Next(run, s, Exec(r)).value, q) {
      if q == r { ExecutorLive(run, s, r); } else { OnlookerLive(run, s, r, q); }
    }
  }

  lemma RoleLiveAfterDelivery(run: Run, s: State, i: nat, q: Role)
    requires WellFormed(run.protocol) && InSync(run) && Live(run, s) && i < |s.net| && Inv(run, Next(run, s, Deliver(i)).value)
    ensures LiveOk(run, Next(run, s, Deliver(i)).value, q)
  {
    assert LiveOk(run, s, q);
    if Next(run, s, Deliver(i)).value.locals[q].phase == Running { RunningIsLive(run, Next(run, s, Deliver(i)).value, q); }
  }

  lemma RoleLiveAfterResume(run: Run, s: State, r: Role, q: Role)
    requires WellFormed(run.protocol) && Live(run, s) && CanResume(run, r, s.locals[r]) && Inv(run, Next(run, s, Resume(r)).value)
    ensures LiveOk(run, Next(run, s, Resume(r)).value, q)
  {
    assert LiveOk(run, s, q);
    if Next(run, s, Resume(r)).value.locals[q].phase == Running { RunningIsLive(run, Next(run, s, Resume(r)).value, q); }
  }

  lemma DeliverOrResumeLive(run: Run, s: State, step: Step)
    requires WellFormed(run.protocol) && InSync(run) && Live(run, s)
    requires (step.Deliver? || step.Resume?) && Next(run, s, step).Some?
    ensures Live(run, Next(run, s, step).value)
  {
    NextInv(run, s, step);
    forall q: Role ensures LiveOk(run, Next(run, s, step).value, q) {
      if step.Deliver? { RoleLiveAfterDelivery(run, s, step.i, q); } else { RoleLiveAfterResume(run, s, step.r, q); }
    }
  }

  lemma ReceiveShrinks(run: Run, r: Role, l: Local, msg: Message)
    requires run.computes(r) && !Misroutes(run, r, l, msg) && l.phase != Stopped
    ensures RoleWork(run, r, ReceiveLocal(run, r, l, msg)) < RoleWork(run, r, l)
  {
  }

  lemma DeliverShrinks(run: Run, s: State, i: nat)
    requires WellFormed(run.protocol) && Live(run, s) && InSync(run) && i < |s.net|
    ensures Work(run, Next(run, s, Deliver(i)).value) < Work(run, s)
  {
    var r, msg := s.net[i].to, s.net[i];
    assert LiveOk(run, s, r);
    DeliverInv(run, s, i);
    assert !Next(run, s, Deliver(i)).value.misrouted;
    ReceiveShrinks(run, r, s.locals[r], msg);
  }

  lemma WorkShrinks(run: Run, s: State, step: Step)
    requires WellFormed(run.protocol) && InSync(run) && Live(run, s)
    requires (step.Exec? || step.Deliver? || step.Resume?) && Next(run, s, step).Some?
    ensures Work(run, Next(run, s, step).value) < Work(run, s)
  {
    match step
    case Exec(r) => ExecShrinks(run, s, r);
    case Deliver(i) => DeliverShrinks(run, s, i);
    case Resume(r) => assert RoleWork(run, r, Next(run, s, step).value.locals[r]) < RoleWork(run, r, s.locals[r]);
  }

  lemma ExecShrinks(run: Run, s: State, r: Role)
    requires WellFormed(run.protocol) && InSync(run) && Live(run, s) && CanExec(run, r, s.locals[r])
    ensures Work(run, Next(run, s, Exec(r)).value) < Work(run, s)
  {
    ExecAlive(run, s, r);
    assert RoleWork(run, r, ExecLocal(run, r, s.locals[r])) < RoleWork(run, r, s.locals[r]);
  }

  lemma WorkNonNegative(run: Run, s: State)
    requires Live(run, s)
    ensures Work(run, s) >= 0
  {
    forall r: Role ensures RoleWork(run, r, s.locals[r]) >= 0 {
      assert RoleOk(run, s, r) && LiveOk(run, s, r);
    }
  }

  lemma {:induction false} FaultlessLive(run: Run, steps: seq<Step>)
    requires WellFormed(run.protocol) && InSync(run) && Faultless(steps) && Execute(run, steps).Some?
    requires forall r: Role :: run.protocol.Of(r).code == [] || PersistAhead(run.protocol.Of(r), 0)
    ensures Live(run, Execute(run, steps).value) && Roles(Init(run))
    ensures |steps| + Work(run, Execute(run, steps).value) <= Work(run, Init(run))
  {
    InitHasRoles(run);
    if steps == [] {
      InitInv(run);
      forall r: Role ensures LiveOk(run, Init(run), r) {
        assert run.protocol.Of(r).code == [] || PersistAhead(run.protocol.Of(r), 0);
      }
    } else {
      var p, step := steps[..|steps| - 1], steps[|steps| - 1];
      FaultlessLive(run, p);
      var s := Execute(run, p).value;
      if step.Exec? { ExecLive(run, s, step.r); } else { DeliverOrResumeLive(run, s, step); }
      WorkShrinks(run, s, step);
    }
  }

  ghost predicate Finished(run: Run, r: Role, l: Local) {
    run.protocol.Of(r).code == [] || (l.phase == Running && l.pc == |run.protocol.Of(r).code| && l.persisted)
  }

  ghost predicate Enabled(run: Run, s: State) {
    exists step: Step :: (step.Exec? || step.Deliver? || step.Resume?) && Next(run, s, step).Some?
  }

  lemma {:induction false} NoEventsNoWait(code: seq<Instr>, i: nat)
    requires Events(code, i) == []
    ensures forall j :: i <= j < |code| ==> !code[j].SendAndWait?
    decreases |code| - i
  {
    if i < |code| {
      NoEventsNoWait(code, i + 1);
    }
  }

  lemma NetEnables(run: Run, s: State)
    requires Roles(s) && s.net != []
    ensures Enabled(run, s)
  {
    assert Next(run, s, Deliver(0)).Some?;
  }

  lemma LocalEnables(run: Run, s: State, r: Role)
    requires Roles(s) && (CanExec(run, r, s.locals[r]) || CanResume(run, r, s.locals[r]))
    ensures Enabled(run, s)
  {
    assert Next(run, s, if CanExec(run, r, s.locals[r]) then Exec(r) else Resume(r)).Some?;
  }

  lemma Progress(run: Run, s: State)
    requires WellFormed(run.protocol) && Live(run, s)
    ensures Enabled(run, s) || forall r: Role :: Finished(run, r, s.locals[r])
  {
    if s.net != [] {
      NetEnables(run, s);
    } else if r: Role :| CanExec(run, r, s.locals[r]) || CanResume(run, r, s.locals[r]) {
      LocalEnables(run, s, r);
    } else {
      forall r: Role ensures UpToDate(run, s, r) {
        assert RoleOk(run, s, r) && LiveOk(run, s, r);
      }
      if s.sent < |run.protocol.messages| {
        BatonHolderCanExec(run, s);
      } else {
        forall r: Role ensures Finished(run, r, s.locals[r]) {
          assert UpToDate(run, s, r) && LiveOk(run, s, r) && RoleOk(run, s, r);
        }
      }
    }
  }

  lemma BatonHolderCanExec(run: Run, s: State)
    requires WellFormed(run.protocol) && Live(run, s) && s.sent < |run.protocol.messages|
    requires UpToDate(run, s, run.protocol.messages[s.sent].from)
    ensures Enabled(run, s)
  {
    var r := run.protocol.messages[s.sent].from;
    assert LiveOk(run, s, r) && RoleOk(run, s, r);
    assert Pending(run, r, s.locals[r])[0].Snd?;
    assert Next(run, s, Exec(r)).Some?;
  }

  /**
   From synchronised stores and without faults, no signature check fails, every interleaving is
   bounded in length, and a run that cannot continue has finished with every role having persisted.
   */
  lemma FaultlessRunCompletes(run: Run, steps: seq<Step>)
    requires WellFormed(run.protocol) && InSync(run) && Faultless(steps) && Execute(run, steps).Some?
    requires forall r: Role :: run.protocol.Of(r).code == [] || PersistAhead(run.protocol.Of(r), 0)
    ensures var s := Execute(run, steps).value;
            && Roles(s) && Roles(Init(run)) && |steps| <= Work(run, Init(run))
            && (forall r: Role :: s.locals[r].phase != Stopped)
            && (!Enabled(run, s) ==> forall r: Role :: Finished(run, r, s.locals[r]))
  {
    FaultlessLive(run, steps);
    var s := Execute(run, steps).value;
    WorkNonNegative(run, s);
    forall r: Role ensures s.locals[r].phase != Stopped { assert LiveOk(run, s, r); }
    Progress(run, s);
  }
}
