/**
 Protocol runs. A role is a generator that yields opcodes; here it is the list of instructions it
 yields and a position in that list. Several roles run interleaved over a network that may lose messages, and any
 role may stop at any point: a timeout, a failed signature check, an exception or a crash.
 */
module Protocols {
  import opened Models

  datatype Role = Initiator | Intermediary | Responder

  /** The commitments that are signed. `Left` is shared by initiator and intermediary, `Right` by intermediary and responder. */
  datatype Doc =
    | ConditionalTx | FreeBalanceUpdate | Withdrawal | UninstallUpdate
    | AppState | Setup | InitialState
    | LeftAgreement | RightAgreement | LeftFreeBalance | RightFreeBalance | PassThrough | VirtualApp

  datatype Signature = Signature(signer: Address, digest: Digest)

  /** A generator's variable for the signature of `signer` on its own version of `doc`. */
  datatype Var = Var(signer: Role, doc: Doc)

  datatype Instr =
    | Sign(doc: Doc)                                                        // OP_SIGN
    | Check(v: Var)                                                         // assertIsValidSignature
    | Send(m: nat, fields: seq<Var>)                                        // IO_SEND
    | SendAndWait(m: nat, fields: seq<Var>, awaits: nat, binds: seq<Var>)   // IO_SEND_AND_WAIT
    | Persist                                                               // PERSIST_STATE_CHANNEL

  const UNASSIGNED_SEQ_NO: int := -1

  /** The m-th message of a protocol: who sends it to whom, its `seq`, and its signature fields in order. */
  datatype MessageType = MessageType(from: Role, to: Role, seqNo: int, fields: seq<Var>)

  /**
   `saves` lists, for each state a role persists, the counterparty and the commitment to that state.
   `seqNo` is the generator's index in the protocol's table.
   */
  datatype Generator = Generator(seqNo: int, opens: seq<Var>, opening: nat, code: seq<Instr>, saves: seq<Var>)

  datatype Protocol = Protocol(
    initiator: Generator,
    intermediary: Generator,
    responder: Generator,
    messages: seq<MessageType>)
  {
    function Of(r: Role): Generator {
      match r
      case Initiator => initiator
      case Intermediary => intermediary
      case Responder => responder
    }
  }

  /**
   One run: the protocol, the address that signs a document for a role, the digest each role
   computes for each document from its own store, and whether a role's computation of the new
   channel succeeds at all.
   */
  datatype Run = Run(
    protocol: Protocol,
    signer: Var -> Address,
    view: (Role, Doc) -> Digest,
    computes: Role -> bool)
  {
    /** The signature `v.signer` makes on the document as it sees it. */
    function Genuine(v: Var): Signature {
      Signature(signer(v), view(v.signer, v.doc))
    }

    /** The signature that role `r` accepts in variable `v`. */
    function Expected(r: Role, v: Var): Signature {
      Signature(signer(v), view(r, v.doc))
    }
  }

  datatype Message = Message(m: nat, to: Role, seqNo: int, fields: seq<Option<Signature>>)

  /** `Waiting` has an open deferral; `Resolved` has received its reply and not yet closed the deferral. */
  datatype Phase = NotStarted | Running | Waiting | Resolved(reply: Message) | Stopped

  /** `held` are the signatures that passed a check. */
  datatype Local = Local(
    phase: Phase,
    pc: nat,
    vars: map<Var, Signature>,
    held: map<Var, Signature>,
    persisted: bool)

  datatype State = State(locals: map<Role, Local>, net: seq<Message>, sent: nat, misrouted: bool)

  datatype Step =
    | Exec(r: Role)
    | Deliver(i: nat)
    | Resume(r: Role)
    | Stop(r: Role)
    | Lose(i: nat)
    | Forge(msg: Message)

  function Lookup(vars: map<Var, Signature>, fields: seq<Var>): (s: seq<Option<Signature>>)
    ensures |s| == |fields|
    ensures forall i :: 0 <= i < |s| ==> s[i] == if fields[i] in vars then Some(vars[fields[i]]) else None
  {
    seq(|fields|, i requires 0 <= i < |fields| => if fields[i] in vars then Some(vars[fields[i]]) else None)
  }

  /** Destructuring a message: variables with no field become undefined. */
  function Bind(vars: map<Var, Signature>, binds: seq<Var>, fields: seq<Option<Signature>>): map<Var, Signature> {
    if binds == [] then vars else
      var rest := Bind(vars, binds[1..], if fields == [] then [] else fields[1..]);
      if fields != [] && fields[0].Some? then rest[binds[0] := fields[0].value] else rest - {binds[0]}
  }

  function Init(run: Run): State {
    State(map[Initiator := Local(if run.computes(Initiator) then Running else Stopped, 0, map[], map[], false),
              Intermediary := Local(NotStarted, 0, map[], map[], false),
              Responder := Local(NotStarted, 0, map[], map[], false)],
          [], 0, false)
  }

  ghost predicate Roles(s: State) {
    forall r: Role :: r in s.locals
  }

  lemma InitHasRoles(run: Run)
    ensures Roles(Init(run))
  {
    forall r: Role ensures r in Init(run).locals {
      match r case Initiator => case Intermediary => case Responder =>
    }
  }

  /** The message numbered `m`, with the given fields; nothing when the protocol has no such message. */
  function Emit(p: Protocol, m: nat, fields: seq<Option<Signature>>): seq<Message> {
    if m < |p.messages| then [Message(m, p.messages[m].to, p.messages[m].seqNo, fields)] else []
  }

  /** One turn of the generator loop: run the next opcode of role `r`. */
  function ExecLocal(run: Run, r: Role, l: Local): Local
    requires l.pc < |run.protocol.Of(r).code|
  {
    var next := l.(pc := l.pc + 1);
    match run.protocol.Of(r).code[l.pc]
    case Sign(d) => next.(vars := l.vars[Var(r, d) := run.Genuine(Var(r, d))])
    case Check(v) =>
      if v in l.vars && l.vars[v] == run.Expected(r, v) then next.(held := l.held[v := l.vars[v]])
      else l.(phase := Stopped)
    case Send(_, _) => next
    case SendAndWait(_, _, _, _) => l.(phase := Waiting)
    case Persist => next.(persisted := true)
  }

  function Emitted(run: Run, r: Role, l: Local): seq<Message>
    requires l.pc < |run.protocol.Of(r).code|
  {
    match run.protocol.Of(r).code[l.pc]
    case Send(m, fields) => Emit(run.protocol, m, Lookup(l.vars, fields))
    case SendAndWait(m, fields, _, _) => Emit(run.protocol, m, Lookup(l.vars, fields))
    case _ => []
  }

  predicate CanExec(run: Run, r: Role, l: Local) {
    l.phase == Running && l.pc < |run.protocol.Of(r).code|
  }

  /** Handing a message to role `r`: to its open deferral, or to the generator its `seq` names. */
  function ReceiveLocal(run: Run, r: Role, l: Local, msg: Message): Local {
    if l.phase == Waiting then l.(phase := Resolved(msg))
    else if l.phase == NotStarted && msg.seqNo == run.protocol.Of(r).seqNo then
      l.(phase := if run.computes(r) then Running else Stopped,
         vars := Bind(map[], run.protocol.Of(r).opens, msg.fields))
    else l
  }

  /** The message finds neither an open deferral nor a generator to start. */
  predicate Misroutes(run: Run, r: Role, l: Local, msg: Message) {
    l.phase == Running || l.phase.Resolved? || (l.phase == NotStarted && msg.seqNo != run.protocol.Of(r).seqNo)
  }

  function Receive(run: Run, s: State, msg: Message): State
    requires msg.to in s.locals
  {
    var l := s.locals[msg.to];
    s.(locals := s.locals[msg.to := ReceiveLocal(run, msg.to, l, msg)],
       misrouted := s.misrouted || Misroutes(run, msg.to, l, msg))
  }

  predicate CanResume(run: Run, r: Role, l: Local) {
    && l.phase.Resolved?
    && l.pc < |run.protocol.Of(r).code| && run.protocol.Of(r).code[l.pc].SendAndWait?
  }

  /** The wait returns: its deferral is removed and the reply is destructured. */
  function ResumeLocal(run: Run, r: Role, l: Local): Local
    requires CanResume(run, r, l)
  {
    l.(phase := Running, pc := l.pc + 1,
       vars := Bind(l.vars, run.protocol.Of(r).code[l.pc].binds, l.phase.reply.fields))
  }

  function Without(net: seq<Message>, i: nat): seq<Message>
    requires i < |net|
  {
    net[..i] + net[i + 1..]
  }

  /** The next state, or `None` when the step is not enabled. */
  function Next(run: Run, s: State, step: Step): Option<State> {
    match step
    case Exec(r) =>
      if r in s.locals && CanExec(run, r, s.locals[r]) then
        var out := Emitted(run, r, s.locals[r]);
        Some(State(s.locals[r := ExecLocal(run, r, s.locals[r])], s.net + out, s.sent + |out|, s.misrouted))
      else None
    case Deliver(i) =>
      if i < |s.net| && s.net[i].to in s.locals then
        Some(Receive(run, s.(net := Without(s.net, i)), s.net[i]))
      else None
    case Resume(r) =>
      if r in s.locals && CanResume(run, r, s.locals[r]) then
        Some(s.(locals := s.locals[r := ResumeLocal(run, r, s.locals[r])]))
      else None
    case Stop(r) =>
      if r in s.locals then Some(s.(locals := s.locals[r := s.locals[r].(phase := Stopped)])) else None
    case Lose(i) =>
      if i < |s.net| then Some(s.(net := Without(s.net, i))) else None
    case Forge(msg) =>
      if msg.to in s.locals then Some(Receive(run, s, msg)) else None
  }

  function Execute(run: Run, steps: seq<Step>): Option<State> {
    if steps == [] then Some(Init(run)) else
      match Execute(run, steps[..|steps| - 1])
      case None => None
      case Some(s) => Next(run, s, steps[|steps| - 1])
  }

  // ---- What a message does --------------------------------------------------------------------

  /**
   Destructuring a reply sets each variable to the field in its place; a variable without a field is undefined
   afterwards, whatever it held, so that a check of it fails. Other variables are untouched.
   */
  lemma {:induction false} BindSetsEveryVariable(vars: map<Var, Signature>, binds: seq<Var>, fields: seq<Option<Signature>>, v: Var)
    requires forall i, j :: 0 <= i < j < |binds| ==> binds[i] != binds[j]
    ensures var after := Bind(vars, binds, fields);
            && (v !in binds ==> (v in after <==> v in vars) && (v in vars ==> after[v] == vars[v]))
            && (forall k :: 0 <= k < |binds| && binds[k] == v ==>
                  && (v in after <==> k < |fields| && fields[k].Some?)
                  && (v in after ==> after[v] == fields[k].value))
  {
    if binds != [] {
      BindSetsEveryVariable(vars, binds[1..], if fields == [] then [] else fields[1..], v);
      assert v in binds ==> v == binds[0] || v in binds[1..];
    }
  }

  /** A message that is delivered or lost leaves every other one in flight. */
  lemma OthersStayInFlight(run: Run, s: State, i: nat)
    requires i < |s.net| && s.net[i].to in s.locals
    ensures Next(run, s, Deliver(i)).Some? && multiset(Next(run, s, Deliver(i)).value.net) == multiset(s.net) - multiset{s.net[i]}
    ensures Next(run, s, Lose(i)).Some? && multiset(Next(run, s, Lose(i)).value.net) == multiset(s.net) - multiset{s.net[i]}
  {
    WithoutTakesOne(s.net, i);
    StepsTakeOne(run, s, i);
  }

  lemma WithoutTakesOne(net: seq<Message>, i: nat)
    requires i < |net|
    ensures multiset(Without(net, i)) == multiset(net) - multiset{net[i]}
  {
    assert net == net[..i] + [net[i]] + net[i + 1..];
  }

  lemma StepsTakeOne(run: Run, s: State, i: nat)
    requires i < |s.net| && s.net[i].to in s.locals
    ensures Next(run, s, Deliver(i)).Some? && Next(run, s, Deliver(i)).value.net == Without(s.net, i)
    ensures Next(run, s, Lose(i)).Some? && Next(run, s, Lose(i)).value.net == Without(s.net, i)
  {
  }

  // ---- Countersigned persistence, under any network -------------------------------------------

  /** The generator persists only after checking each variable in `saves`. */
  ghost predicate PersistsCountersigned(g: Generator) {
    forall i, v :: 0 <= i < |g.code| && g.code[i].Persist? && v in g.saves ==> CheckedBefore(g.code, i, v)
  }

  ghost predicate CheckedBefore(code: seq<Instr>, i: nat, v: Var)
    requires i <= |code|
  {
    exists j :: 0 <= j < i && code[j] == Check(v)
  }

  /** What has passed a check is held, and whoever has persisted has passed a `Persist`. */
  ghost predicate KeepsChecked(run: Run, r: Role, l: Local) {
    var code := run.protocol.Of(r).code;
    && l.pc <= |code|
    && (forall v :: v in l.held ==> l.held[v] == run.Expected(r, v))
    && (forall i :: 0 <= i < l.pc && code[i].Check? ==> code[i].v in l.held)
    && (l.persisted ==> PersistBefore(code, l.pc))
  }

  ghost predicate PersistBefore(code: seq<Instr>, pc: nat)
    requires pc <= |code|
  {
    exists i :: 0 <= i < pc && code[i].Persist?
  }

  /** Every `Persist` of the generator comes after a check of `v`. */
  ghost predicate ChecksBeforePersisting(g: Generator, v: Var) {
    forall i :: 0 <= i < |g.code| && g.code[i].Persist? ==> CheckedBefore(g.code, i, v)
  }

  lemma NextKeepsChecked(run: Run, s: State, step: Step, q: Role)
    requires q in s.locals && KeepsChecked(run, q, s.locals[q]) && Next(run, s, step).Some?
    ensures q in Next(run, s, step).value.locals && KeepsChecked(run, q, Next(run, s, step).value.locals[q])
  {
    if step.Exec? && step.r == q {
      ExecKeepsChecked(run, q, s.locals[q]);
    }
  }

  lemma ExecKeepsChecked(run: Run, r: Role, l: Local)
    requires CanExec(run, r, l) && KeepsChecked(run, r, l)
    ensures KeepsChecked(run, r, ExecLocal(run, r, l))
  {
    var code := run.protocol.Of(r).code;
    if code[l.pc].Persist? {
      assert PersistBefore(code, l.pc + 1);
    }
  }

  lemma {:induction false} AlwaysKeepsChecked(run: Run, steps: seq<Step>, r: Role)
    requires Execute(run, steps).Some?
    ensures r in Execute(run, steps).value.locals && KeepsChecked(run, r, Execute(run, steps).value.locals[r])
  {
    if steps == [] {
      InitHasRoles(run);
    } else {
      AlwaysKeepsChecked(run, steps[..|steps| - 1], r);
      NextKeepsChecked(run, Execute(run, steps[..|steps| - 1]).value, steps[|steps| - 1], r);
    }
  }

  /**
   Whatever the other roles and the network do: a role that has persisted holds every signature its
   generator checks before persisting, made with the signer's key on the document as the role sees it.
   */
  lemma PersistedHoldsWhatItChecks(run: Run, steps: seq<Step>, r: Role, v: Var)
    requires Execute(run, steps).Some? && ChecksBeforePersisting(run.protocol.Of(r), v)
    ensures var s := Execute(run, steps).value;
            && r in s.locals
            && (s.locals[r].persisted ==>
                  v in s.locals[r].held && s.locals[r].held[v] == Signature(run.signer(v), run.view(r, v.doc)))
  {
    AlwaysKeepsChecked(run, steps, r);
    var l := Execute(run, steps).value.locals[r];
    if l.persisted { CheckedIsHeld(run, r, l, v); }
  }

  lemma CheckedIsHeld(run: Run, r: Role, l: Local, v: Var)
    requires KeepsChecked(run, r, l) && l.persisted && ChecksBeforePersisting(run.protocol.Of(r), v)
    ensures v in l.held && l.held[v] == run.Expected(r, v)
  {
    var code := run.protocol.Of(r).code;
    var i :| 0 <= i < l.pc && code[i].Persist?;
    assert CheckedBefore(code, i, v);
  }

  /**
   Whatever the other roles and the network do, forged messages included, and wherever the run
   stops: a role that has persisted holds, for each state it saved, its counterparty's signature on
   the commitment to exactly that state.
   */
  lemma CountersignedPersistence(run: Run, steps: seq<Step>, r: Role, v: Var)
    requires PersistsCountersigned(run.protocol.Of(r)) && Execute(run, steps).Some? && v in run.protocol.Of(r).saves
    ensures var s := Execute(run, steps).value;
            && r in s.locals
            && (s.locals[r].persisted ==>
                  v in s.locals[r].held && s.locals[r].held[v] == Signature(run.signer(v), run.view(r, v.doc)))
  {
    PersistedHoldsWhatItChecks(run, steps, r, v);
  }
}
