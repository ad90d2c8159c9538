/**
 What holds in every interleaving of a protocol whose generators follow its message table: one
 message at a time, each consumed by the wait it answers, and each variable holding the signature
 its name says.
 */
module Choreography {
  import opened Models
  import opened Protocols

  datatype Event = Snd(m: nat, sent: seq<Var>) | Rcv(m: nat, bound: seq<Var>)

  /** The messages a generator exchanges from position `i` on. */
  function Events(code: seq<Instr>, i: nat): seq<Event>
    decreases |code| - i
  {
    if i >= |code| then [] else
      match code[i]
      case Send(m, fields) => [Snd(m, fields)] + Events(code, i + 1)
      case SendAndWait(m, fields, awaits, binds) => [Snd(m, fields), Rcv(awaits, binds)] + Events(code, i + 1)
      case _ => Events(code, i + 1)
  }

  /** What the message table asks of role `r` from the k-th message on. */
  function Projection(ms: seq<MessageType>, r: Role, k: nat): seq<Event>
    decreases |ms| - k
  {
    if k >= |ms| then []
    else if ms[k].from == r then [Snd(k, ms[k].fields)] + Projection(ms, r, k + 1)
    else if ms[k].to == r then [Rcv(k, ms[k].fields)] + Projection(ms, r, k + 1)
    else Projection(ms, r, k + 1)
  }

  /** Whoever receives a message sends the next one. */
  predicate Chained(ms: seq<MessageType>) {
    && (ms != [] ==> ms[0].from == Initiator)
    && (forall k :: 0 <= k < |ms| ==> ms[k].from != ms[k].to)
    && (forall k :: 0 <= k < |ms| - 1 ==> ms[k].to == ms[k + 1].from)
  }

  predicate In(s: seq<Var>, i: nat, v: Var)
    decreases |s| - i
  {
    i < |s| && (s[i] == v || In(s, i + 1, v))
  }

  function Defines(r: Role, instr: Instr): seq<Var> {
    match instr
    case Sign(d) => [Var(r, d)]
    case SendAndWait(_, _, _, binds) => binds
    case _ => []
  }

  function Uses(instr: Instr): seq<Var> {
    match instr
    case Check(v) => [v]
    case Send(_, fields) => fields
    case SendAndWait(_, fields, _, _) => fields
    case _ => []
  }

  /** The variable has been given a value before position `i`. */
  predicate Known(r: Role, g: Generator, i: nat, v: Var)
    requires i <= |g.code|
  {
    if i == 0 then In(g.opens, 0, v) else In(Defines(r, g.code[i - 1]), 0, v) || Known(r, g, i - 1, v)
  }

  predicate AllKnown(r: Role, g: Generator, i: nat, vs: seq<Var>, k: nat)
    requires i <= |g.code|
    decreases |vs| - k
  {
    k >= |vs| || (Known(r, g, i, vs[k]) && AllKnown(r, g, i, vs, k + 1))
  }

  /** From position `i` on, no variable is read before it is given a value. */
  predicate Initialised(r: Role, g: Generator, i: nat)
    decreases |g.code| - i
  {
    i >= |g.code| || (AllKnown(r, g, i, Uses(g.code[i]), 0) && Initialised(r, g, i + 1))
  }

  ghost predicate Uninvolved(ms: seq<MessageType>, r: Role, n: nat) {
    forall k :: 0 <= k < |ms| && k < n ==> ms[k].from != r && ms[k].to != r
  }

  /** Role `r`'s generator exchanges exactly the messages of the table, with the table's fields. */
  ghost predicate Follows(p: Protocol, r: Role) {
    var g, ms := p.Of(r), p.messages;
    && Initialised(r, g, 0)
    && if r == Initiator then g.opens == [] && Events(g.code, 0) == Projection(ms, r, 0)
       else if g.code == [] then Uninvolved(ms, r, |ms|)
       else
         && g.opening < |ms| && Uninvolved(ms, r, g.opening)
         && ms[g.opening].to == r && ms[g.opening].seqNo == g.seqNo && ms[g.opening].fields == g.opens
         && Events(g.code, 0) == Projection(ms, r, g.opening + 1)
  }

  ghost predicate WellFormed(p: Protocol) {
    Chained(p.messages) && forall r: Role :: Follows(p, r)
  }

  /** The messages role `r` has still to exchange. */
  function Pending(run: Run, r: Role, l: Local): seq<Event> {
    var g := run.protocol.Of(r);
    if l.phase == NotStarted then (if g.code == [] then [] else [Rcv(g.opening, g.opens)] + Events(g.code, 0))
    else if l.phase == Running then Events(g.code, l.pc)
    else if l.pc < |g.code| && g.code[l.pc].SendAndWait? then
      [Rcv(g.code[l.pc].awaits, g.code[l.pc].binds)] + Events(g.code, l.pc + 1)
    else []
  }

  /** The signatures a message's fields stand for. */
  function GenuineFields(run: Run, fields: seq<Var>): (s: seq<Option<Signature>>)
    ensures |s| == |fields| && forall i :: 0 <= i < |s| ==> s[i] == Some(run.Genuine(fields[i]))
  {
    seq(|fields|, i requires 0 <= i < |fields| => Some(run.Genuine(fields[i])))
  }

  function GenuineMessage(run: Run, m: nat): Message
    requires m < |run.protocol.messages|
  {
    var t := run.protocol.messages[m];
    Message(m, t.to, t.seqNo, GenuineFields(run, t.fields))
  }

  /** The last message sent is on its way to `r`, or has reached `r`'s deferral. */
  predicate Due(s: State, r: Role)
    requires r in s.locals
  {
    (|s.net| > 0 && s.net[0].to == r) || s.locals[r].phase.Resolved?
  }

  predicate AwaitsLast(run: Run, s: State, r: Role)
    requires r in s.locals
  {
    var ms := run.protocol.messages;
    && 0 < s.sent <= |ms| && ms[s.sent - 1].to == r
    && Pending(run, r, s.locals[r]) == [Rcv(s.sent - 1, ms[s.sent - 1].fields)] + Projection(ms, r, s.sent)
  }

  predicate UpToDate(run: Run, s: State, r: Role)
    requires r in s.locals
  {
    Pending(run, r, s.locals[r]) == Projection(run.protocol.messages, r, s.sent)
  }

  ghost predicate VarsGenuine(run: Run, r: Role, l: Local) {
    var g := run.protocol.Of(r);
    && l.pc <= |g.code|
    && (forall v :: v in l.vars ==> l.vars[v] == run.Genuine(v))
    && (l.phase != NotStarted ==> forall v :: Known(r, g, l.pc, v) ==> v in l.vars)
  }

  ghost predicate PhaseOk(run: Run, r: Role, l: Local) {
    && (l.phase == NotStarted ==> l.pc == 0 && r != Initiator)
    && (l.phase == Waiting || l.phase.Resolved? ==>
          l.pc < |run.protocol.Of(r).code| && run.protocol.Of(r).code[l.pc].SendAndWait?)
  }

  ghost predicate RoleOk(run: Run, s: State, r: Role)
    requires r in s.locals
  {
    s.locals[r].phase == Stopped ||
    (&& VarsGenuine(run, r, s.locals[r]) && PhaseOk(run, r, s.locals[r])
     && (AwaitsLast(run, s, r) || (UpToDate(run, s, r) && !Due(s, r))))
  }

  ghost predicate NetOk(run: Run, s: State)
    requires Roles(s)
  {
    && s.sent <= |run.protocol.messages| && |s.net| <= 1 && !s.misrouted
    && (s.net != [] ==> s.sent > 0 && s.net[0] == GenuineMessage(run, s.sent - 1))
    && (forall r: Role :: s.locals[r].phase.Resolved? ==>
          && s.net == [] && s.sent > 0
          && run.protocol.messages[s.sent - 1].to == r && s.locals[r].phase.reply == GenuineMessage(run, s.sent - 1))
  }

  ghost predicate Inv(run: Run, s: State) {
    Roles(s) && NetOk(run, s) && forall r: Role :: RoleOk(run, s, r)
  }

  lemma {:induction false} UninvolvedProjection(ms: seq<MessageType>, r: Role, k: nat, n: nat)
    requires k <= n <= |ms| && Uninvolved(ms, r, n)
    ensures Projection(ms, r, k) == Projection(ms, r, n)
    decreases n - k
  {
    if k < n {
      UninvolvedProjection(ms, r, k + 1, n);
    }
  }

  lemma InitInv(run: Run)
    requires WellFormed(run.protocol)
    ensures Inv(run, Init(run))
  {
    var s, p := Init(run), run.protocol;
    InitHasRoles(run);
    forall r: Role ensures RoleOk(run, s, r) {
      assert Follows(p, r);
      if r != Initiator {
        var n := if p.Of(r).code == [] then |p.messages| else p.Of(r).opening;
        UninvolvedProjection(p.messages, r, 0, n);
      } else {
        KnownAtStart(r, p.Of(r));
      }
    }
  }

  lemma KnownAtStart(r: Role, g: Generator)
    requires g.opens == []
    ensures forall v :: !Known(r, g, 0, v)
  {
  }

  /** Only the receiver of the last message has a send next, and it is the next message. */
  lemma {:induction false} NextSend(ms: seq<MessageType>, r: Role, k: nat)
    requires Chained(ms) && Projection(ms, r, k) != [] && Projection(ms, r, k)[0].Snd?
    ensures k < |ms| && ms[k].from == r && Projection(ms, r, k)[0] == Snd(k, ms[k].fields)
    decreases |ms| - k
  {
    if ms[k].from != r && ms[k].to != r {
      NextSend(ms, r, k + 1);
    }
  }

  lemma {:induction false} InIff(s: seq<Var>, i: nat, v: Var)
    requires i <= |s|
    ensures In(s, i, v) <==> v in s[i..]
    decreases |s| - i
  {
    if i < |s| {
      InIff(s, i + 1, v);
      assert s[i..] == [s[i]] + s[i + 1..];
    }
  }

  lemma {:induction false} BindGenuine(run: Run, vars: map<Var, Signature>, binds: seq<Var>)
    requires forall v :: v in vars ==> vars[v] == run.Genuine(v)
    ensures var b := Bind(vars, binds, GenuineFields(run, binds));
            && (forall v :: v in b <==> v in vars || v in binds)
            && (forall v :: v in b ==> b[v] == run.Genuine(v))
  {
    if binds != [] {
      BindGenuine(run, vars, binds[1..]);
      assert GenuineFields(run, binds)[1..] == GenuineFields(run, binds[1..]);
      assert binds == [binds[0]] + binds[1..];
    }
  }

  lemma {:induction false} AllKnownAt(r: Role, g: Generator, i: nat, vs: seq<Var>, k: nat, n: nat)
    requires i <= |g.code| && AllKnown(r, g, i, vs, k) && k <= n < |vs|
    ensures Known(r, g, i, vs[n])
    decreases n - k
  {
    if k < n {
      AllKnownAt(r, g, i, vs, k + 1, n);
    }
  }

  lemma {:induction false} InitialisedAt(r: Role, g: Generator, i: nat, n: nat, v: Var)
    requires Initialised(r, g, i) && i <= n < |g.code| && v in Uses(g.code[n])
    ensures Known(r, g, n, v)
    decreases n - i
  {
    if i < n {
      InitialisedAt(r, g, i + 1, n, v);
    } else {
      var k :| 0 <= k < |Uses(g.code[n])| && Uses(g.code[n])[k] == v;
      AllKnownAt(r, g, n, Uses(g.code[n]), 0, k);
    }
  }

  /** What a role reads is the signature the variable's name says. */
  lemma ReadsGenuine(run: Run, r: Role, l: Local, v: Var)
    requires Follows(run.protocol, r) && VarsGenuine(run, r, l) && CanExec(run, r, l)
    requires v in Uses(run.protocol.Of(r).code[l.pc])
    ensures v in l.vars && l.vars[v] == run.Genuine(v)
  {
    InitialisedAt(r, run.protocol.Of(r), 0, l.pc, v);
  }

  lemma ExecVars(run: Run, r: Role, l: Local)
    requires VarsGenuine(run, r, l) && CanExec(run, r, l)
    ensures VarsGenuine(run, r, ExecLocal(run, r, l))
  {
    var g, l' := run.protocol.Of(r), ExecLocal(run, r, l);
    forall v | Known(r, g, l'.pc, v) ensures v in l'.vars {
      if l'.pc == l.pc + 1 {
        InIff(Defines(r, g.code[l.pc]), 0, v);
      }
    }
  }

  /** A role's obligations depend only on its own state, the count of messages and whether one is due to it. */
  lemma RoleFrame(run: Run, s: State, s': State, r: Role)
    requires r in s.locals && r in s'.locals && s'.locals[r] == s.locals[r] && s'.sent == s.sent
    requires RoleOk(run, s, r) && (Due(s', r) ==> Due(s, r))
    ensures RoleOk(run, s', r)
  {
  }

  lemma RunningIsUpToDate(run: Run, s: State, r: Role)
    requires r in s.locals && RoleOk(run, s, r) && s.locals[r].phase == Running
    ensures UpToDate(run, s, r) && !Due(s, r) && VarsGenuine(run, r, s.locals[r])
  {
    FirstEventIsSend(run.protocol.Of(r).code, s.locals[r].pc);
  }

  lemma LocalExecInv(run: Run, s: State, r: Role)
    requires WellFormed(run.protocol) && Inv(run, s) && CanExec(run, r, s.locals[r])
    requires !run.protocol.Of(r).code[s.locals[r].pc].Send? && !run.protocol.Of(r).code[s.locals[r].pc].SendAndWait?
    ensures Inv(run, Next(run, s, Exec(r)).value)
  {
    var s' := Next(run, s, Exec(r)).value;
    forall q: Role ensures RoleOk(run, s', q) {
      assert RoleOk(run, s, q);
      if q != r { RoleFrame(run, s, s', q); } else { LocalExecOk(run, s, r); }
    }
  }

  lemma LocalExecOk(run: Run, s: State, r: Role)
    requires WellFormed(run.protocol) && Inv(run, s) && CanExec(run, r, s.locals[r])
    requires !run.protocol.Of(r).code[s.locals[r].pc].Send? && !run.protocol.Of(r).code[s.locals[r].pc].SendAndWait?
    ensures RoleOk(run, Next(run, s, Exec(r)).value, r)
  {
    var s' := Next(run, s, Exec(r)).value;
    assert RoleOk(run, s, r);
    RunningIsUpToDate(run, s, r);
    ExecVars(run, r, s.locals[r]);
    if s'.locals[r].phase != Stopped {
      assert UpToDate(run, s', r) && !Due(s', r);
    }
  }

  lemma LookupGenuine(run: Run, r: Role, l: Local, fields: seq<Var>)
    requires Follows(run.protocol, r) && VarsGenuine(run, r, l) && CanExec(run, r, l)
    requires fields == Uses(run.protocol.Of(r).code[l.pc])
    ensures Lookup(l.vars, fields) == GenuineFields(run, fields)
  {
    forall i | 0 <= i < |fields| ensures Lookup(l.vars, fields)[i] == GenuineFields(run, fields)[i] {
      ReadsGenuine(run, r, l, fields[i]);
    }
  }

  /** A role about to send holds the baton: nothing is in flight, and it sends the next message of the table. */
  lemma SenderHoldsBaton(run: Run, s: State, r: Role)
    requires WellFormed(run.protocol) && Inv(run, s) && CanExec(run, r, s.locals[r])
    requires run.protocol.Of(r).code[s.locals[r].pc].Send? || run.protocol.Of(r).code[s.locals[r].pc].SendAndWait?
    ensures s.net == [] && (forall q: Role :: !s.locals[q].phase.Resolved?)
    ensures s.sent < |run.protocol.messages| && run.protocol.messages[s.sent].from == r
    ensures Emitted(run, r, s.locals[r]) == [GenuineMessage(run, s.sent)]
    ensures UpToDate(run, s, r)
  {
    var l, g, ms := s.locals[r], run.protocol.Of(r), run.protocol.messages;
    var instr := g.code[l.pc];
    assert Events(g.code, l.pc)[0] == Snd(instr.m, instr.fields);
    assert RoleOk(run, s, r);
    assert !AwaitsLast(run, s, r);
    NextSend(ms, r, s.sent);
    assert Follows(run.protocol, r);
    LookupGenuine(run, r, l, instr.fields);
    if s.sent > 0 {
      assert ms[s.sent - 1].to == ms[s.sent - 1 + 1].from;
    }
  }

  lemma SendInv(run: Run, s: State, r: Role)
    requires WellFormed(run.protocol) && Inv(run, s) && CanExec(run, r, s.locals[r])
    requires run.protocol.Of(r).code[s.locals[r].pc].Send? || run.protocol.Of(r).code[s.locals[r].pc].SendAndWait?
    ensures Inv(run, Next(run, s, Exec(r)).value)
  {
    var s', ms := Next(run, s, Exec(r)).value, run.protocol.messages;
    SenderHoldsBaton(run, s, r);
    assert s'.net == [GenuineMessage(run, s.sent)];
    forall q: Role ensures RoleOk(run, s', q) {
      assert RoleOk(run, s, q);
      if q == r {
        SenderContinues(run, s, r);
      } else if q == ms[s.sent].to && s.locals[q].phase != Stopped {
        assert !AwaitsLast(run, s, q) by {
          if s.sent > 0 { assert ms[s.sent - 1].to == ms[s.sent - 1 + 1].from; }
        }
        assert AwaitsLast(run, s', q);
      } else if s.locals[q].phase != Stopped {
        assert !AwaitsLast(run, s, q) by {
          if s.sent > 0 { assert ms[s.sent - 1].to == ms[s.sent - 1 + 1].from; }
        }
        assert UpToDate(run, s', q) && !Due(s', q);
      }
    }
  }

  lemma SenderContinues(run: Run, s: State, r: Role)
    requires Inv(run, s) && Chained(run.protocol.messages) && CanExec(run, r, s.locals[r])
    requires run.protocol.Of(r).code[s.locals[r].pc].Send? || run.protocol.Of(r).code[s.locals[r].pc].SendAndWait?
    requires s.net == [] && s.sent < |run.protocol.messages| && run.protocol.messages[s.sent].from == r
    requires Emitted(run, r, s.locals[r]) == [GenuineMessage(run, s.sent)]
    requires UpToDate(run, s, r)
    ensures RoleOk(run, Next(run, s, Exec(r)).value, r)
  {
    var s', ms := Next(run, s, Exec(r)).value, run.protocol.messages;
    assert RoleOk(run, s, r);
    ExecVars(run, r, s.locals[r]);
    assert Pending(run, r, s'.locals[r]) == Pending(run, r, s.locals[r])[1..];
    assert Projection(ms, r, s.sent)[1..] == Projection(ms, r, s.sent + 1);
  }

  /** The receiver of a message in flight is the role it is meant for, waiting for that message. */
  lemma NothingIsMisrouted(run: Run, s: State, i: nat)
    requires WellFormed(run.protocol) && Inv(run, s) && i < |s.net|
    ensures !Misroutes(run, s.net[i].to, s.locals[s.net[i].to], s.net[i])
  {
    var r := s.net[i].to;
    assert RoleOk(run, s, r) && Follows(run.protocol, r);
    if s.locals[r].phase == Running {
      FirstEventIsSend(run.protocol.Of(r).code, s.locals[r].pc);
    } else if s.locals[r].phase == NotStarted {
      assert Pending(run, r, s.locals[r])[0] == Rcv(s.sent - 1, run.protocol.messages[s.sent - 1].fields);
    }
  }

  lemma DeliverInv(run: Run, s: State, i: nat)
    requires WellFormed(run.protocol) && Inv(run, s) && i < |s.net|
    ensures Inv(run, Next(run, s, Deliver(i)).value)
  {
    var s', r := Next(run, s, Deliver(i)).value, s.net[i].to;
    NothingIsMisrouted(run, s, i);
    forall q: Role ensures RoleOk(run, s', q) {
      if q != r { RoleFrame(run, s, s', q); } else { ReceiverOk(run, s, r); }
    }
  }

  lemma {:induction false} FirstEventIsSend(code: seq<Instr>, i: nat)
    ensures Events(code, i) != [] ==> Events(code, i)[0].Snd?
    decreases |code| - i
  {
    if i < |code| {
      FirstEventIsSend(code, i + 1);
    }
  }

  /** A generator that the message in flight starts. */
  lemma StartedOk(run: Run, s: State, r: Role)
    requires WellFormed(run.protocol) && Inv(run, s) && |s.net| == 1 && s.net[0].to == r
    requires s.locals[r].phase == NotStarted && Next(run, s, Deliver(0)).value.locals[r].phase == Running
    ensures RoleOk(run, Next(run, s, Deliver(0)).value, r)
  {
    var s', l, g := Next(run, s, Deliver(0)).value, s.locals[r], run.protocol.Of(r);
    assert Follows(run.protocol, r) && RoleOk(run, s, r);
    assert Pending(run, r, l)[0] == Rcv(s.sent - 1, run.protocol.messages[s.sent - 1].fields);
    assert s.net[0].fields == GenuineFields(run, g.opens);
    StartedVars(run, r, l, s.net[0]);
    assert Pending(run, r, s'.locals[r]) == Pending(run, r, l)[1..];
  }

  lemma StartedVars(run: Run, r: Role, l: Local, msg: Message)
    requires VarsGenuine(run, r, l) && l.phase == NotStarted && l.pc == 0 && msg.fields == GenuineFields(run, run.protocol.Of(r).opens)
    ensures VarsGenuine(run, r, ReceiveLocal(run, r, l, msg))
  {
    var g := run.protocol.Of(r);
    BindGenuine(run, map[], g.opens);
    forall v | Known(r, g, 0, v) ensures v in Bind(map[], g.opens, GenuineFields(run, g.opens)) { InIff(g.opens, 0, v); }
  }

  /** The role that the message in flight is for. */
  lemma ReceiverOk(run: Run, s: State, r: Role)
    requires WellFormed(run.protocol) && Inv(run, s) && |s.net| == 1 && s.net[0].to == r
    requires !Misroutes(run, r, s.locals[r], s.net[0])
    ensures RoleOk(run, Next(run, s, Deliver(0)).value, r)
  {
    assert RoleOk(run, s, r);
    if s.locals[r].phase == NotStarted && Next(run, s, Deliver(0)).value.locals[r].phase == Running {
      StartedOk(run, s, r);
    }
  }

  lemma ResumeInv(run: Run, s: State, r: Role)
    requires WellFormed(run.protocol) && Inv(run, s) && CanResume(run, r, s.locals[r])
    ensures Inv(run, Next(run, s, Resume(r)).value)
    ensures s.locals[r].phase.reply.m == run.protocol.Of(r).code[s.locals[r].pc].awaits
  {
    var s', l, g := Next(run, s, Resume(r)).value, s.locals[r], run.protocol.Of(r);
    var binds := g.code[l.pc].binds;
    assert RoleOk(run, s, r);
    assert Pending(run, r, l)[0] == Rcv(g.code[l.pc].awaits, binds);
    BindGenuine(run, l.vars, binds);
    forall v | Known(r, g, l.pc + 1, v) ensures v in s'.locals[r].vars { InIff(binds, 0, v); }
    forall q: Role ensures RoleOk(run, s', q) {
      if q != r { RoleFrame(run, s, s', q); } else {
        assert Pending(run, r, s'.locals[r]) == Pending(run, r, l)[1..];
      }
    }
  }

  lemma StopOrLoseInv(run: Run, s: State, step: Step)
    requires Inv(run, s) && (step.Stop? || step.Lose?) && Next(run, s, step).Some?
    ensures Inv(run, Next(run, s, step).value)
  {
    var s' := Next(run, s, step).value;
    forall q: Role ensures RoleOk(run, s', q) {
      if s'.locals[q].phase != Stopped { RoleFrame(run, s, s', q); }
    }
  }

  lemma NextInv(run: Run, s: State, step: Step)
    requires WellFormed(run.protocol) && Inv(run, s) && !step.Forge? && Next(run, s, step).Some?
    ensures Inv(run, Next(run, s, step).value)
  {
    match step
    case Exec(r) =>
      var instr := run.protocol.Of(r).code[s.locals[r].pc];
      if instr.Send? || instr.SendAndWait? { SendInv(run, s, r); } else { LocalExecInv(run, s, r); }
    case Deliver(i) => DeliverInv(run, s, i);
    case Resume(r) => ResumeInv(run, s, r);
    case Stop(r) => StopOrLoseInv(run, s, step);
    case Lose(i) => StopOrLoseInv(run, s, step);
  }
}
