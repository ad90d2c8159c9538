/** How a node hands received messages to waiting generators or starts new ones, and the loop that drives a generator. */
module Routing {
  import opened Models
  import opened Protocols
  import opened Choreography
  import opened ProtocolRuns

  type ProcessID = nat

  datatype Deferral = Pending | Fulfilled(msg: Message)

  /** To the open wait of its process, to `runProtocolWithMessage`, or refused for an unknown `seq`. */
  datatype Dispatch = ToWait | ToNewRun | Refused

  class Node {
    var ioSendDeferrals: map<ProcessID, Deferral>

    constructor ()
      ensures ioSendDeferrals == map[]
    {
      ioSendDeferrals := map[];
    }

    /** IO_SEND_AND_WAIT registers its deferral before it sends. */
    method OpenWait(pid: ProcessID)
      modifies this
      ensures ioSendDeferrals == old(ioSendDeferrals)[pid := Pending]
    {
      ioSendDeferrals := ioSendDeferrals[pid := Pending];
    }

    /** Resolving a deferral a second time has no effect. */
    method HandleIoSendDeferral(pid: ProcessID, msg: Message)
      requires pid in ioSendDeferrals
      modifies this
      ensures ioSendDeferrals == old(ioSendDeferrals)[pid := if old(ioSendDeferrals)[pid].Pending? then Fulfilled(msg) else old(ioSendDeferrals)[pid]]
    {
      if ioSendDeferrals[pid].Pending? {
        ioSendDeferrals := ioSendDeferrals[pid := Fulfilled(msg)];
      }
    }

    method HandleReceivedMessage(pid: ProcessID, msg: Message, seqNos: set<int>) returns (d: Dispatch)
      modifies this
      ensures d == ToWait <==> pid in old(ioSendDeferrals)
      ensures d == ToNewRun <==> pid !in old(ioSendDeferrals) && msg.seqNo in seqNos
      ensures d == ToWait ==>
                ioSendDeferrals == old(ioSendDeferrals)[pid := if old(ioSendDeferrals)[pid].Pending? then Fulfilled(msg) else old(ioSendDeferrals)[pid]]
      ensures d != ToWait ==> ioSendDeferrals == old(ioSendDeferrals)
    {
      if pid in ioSendDeferrals {
        HandleIoSendDeferral(pid, msg);
        d := ToWait;
      } else if msg.seqNo in seqNos {
        d := ToNewRun;
      } else {
        d := Refused;
      }
    }

    /** The race with the timer: a reply removes the deferral, a timeout throws and leaves it registered. */
    method CloseWait(pid: ProcessID, timedOut: bool) returns (reply: Option<Message>)
      requires pid in ioSendDeferrals && (!timedOut ==> ioSendDeferrals[pid].Fulfilled?)
      modifies this
      ensures timedOut ==> reply == None && ioSendDeferrals == old(ioSendDeferrals)
      ensures !timedOut ==> reply == Some(old(ioSendDeferrals)[pid].msg) && ioSendDeferrals == old(ioSendDeferrals) - {pid}
    {
      if timedOut {
        return None;
      }
      reply := Some(ioSendDeferrals[pid].msg);
      ioSendDeferrals := ioSendDeferrals - {pid};
    }
  }

  // ---- Routing refines the delivery of the interleaving model ---------------------------------

  /** The node's table agrees with where a role's generator is. */
  predicate Registered(l: Local, d: Option<Deferral>) {
    match l.phase
    case NotStarted => d == None
    case Running => d == None
    case Waiting => d == Some(Pending)
    case Resolved(reply) => d == Some(Fulfilled(reply))
    case Stopped => true
  }

  /** A deferral is registered exactly while the generator waits; opening and closing a wait keep the table in agreement. */
  lemma RegisteredWhileWaiting(run: Run, r: Role, l: Local, d: Option<Deferral>)
    requires Registered(l, d)
    ensures l.phase != Stopped ==> (d.Some? <==> l.phase == Waiting || l.phase.Resolved?)
    ensures CanExec(run, r, l) ==> Registered(ExecLocal(run, r, l), if ExecLocal(run, r, l).phase == Waiting then Some(Pending) else d)
    ensures CanResume(run, r, l) ==> d == Some(Fulfilled(l.phase.reply)) && Registered(ResumeLocal(run, r, l), None)
  {
  }

  function Dispatched(d: Option<Deferral>, msg: Message, seqNo: int): Dispatch {
    if d.Some? then ToWait else if msg.seqNo == seqNo then ToNewRun else Refused
  }

  function Resolved(d: Option<Deferral>, msg: Message): Option<Deferral> {
    if d == Some(Pending) then Some(Fulfilled(msg)) else d
  }

  /**
   In every interleaving without forged messages, the message in flight is dispatched to the open wait
   it answers when its receiver waits, starts the receiver's generator when that has not started, and
   the table then agrees with the receiver's new position. A receiver that has stopped may still have
   its deferral registered and then swallows the message.
   */
  lemma DispatchDeliversAsModelled(run: Run, steps: seq<Step>, d: Option<Deferral>)
    requires WellFormed(run.protocol) && Faithful(steps) && Execute(run, steps).Some?
    requires Execute(run, steps).value.net != [] && Execute(run, steps).value.net[0].to in Execute(run, steps).value.locals
    requires Registered(Execute(run, steps).value.locals[Execute(run, steps).value.net[0].to], d)
    ensures var s := Execute(run, steps).value;
            var msg, r, l := s.net[0], s.net[0].to, s.locals[s.net[0].to];
            var dispatch := Dispatched(d, msg, run.protocol.Of(r).seqNo);
            && (dispatch == ToWait ==> l.phase == Waiting || l.phase == Stopped)
            && (dispatch == ToNewRun ==> (l.phase == NotStarted || l.phase == Stopped) && msg.seqNo == run.protocol.Of(r).seqNo)
            && (dispatch == Refused ==> l.phase == Stopped)
            && Registered(ReceiveLocal(run, r, l, msg), Resolved(d, msg))
  {
    SingleBaton(run, steps);
    AlwaysInv(run, steps);
    var s := Execute(run, steps).value;
    assert s.net[0] == GenuineMessage(run, s.sent - 1);
  }

  // ---- The loop of runProtocol ----------------------------------------------------------------

  /** What one opcode and, if it waits, its reply make of a generator; a missing reply is a timeout. */
  function Turn(run: Run, r: Role, l: Local, reply: Option<Message>): Local
    requires CanExec(run, r, l)
  {
    var next := ExecLocal(run, r, l);
    if next.phase != Waiting then next
    else if reply.None? then next.(phase := Stopped)
    else ResumeLocal(run, r, next.(phase := Phase.Resolved(reply.value)))
  }

  predicate Waits(run: Run, r: Role, l: Local)
    requires CanExec(run, r, l)
  {
    run.protocol.Of(r).code[l.pc].SendAndWait?
  }

  /** The reply the next opcode consumes. */
  function Reply(run: Run, r: Role, l: Local, replies: seq<Message>): Option<Message>
    requires CanExec(run, r, l)
  {
    if Waits(run, r, l) && replies != [] then Some(replies[0]) else None
  }

  function Rest(run: Run, r: Role, l: Local, replies: seq<Message>): seq<Message>
    requires CanExec(run, r, l)
  {
    if Waits(run, r, l) && replies != [] then replies[1..] else replies
  }

  /** Where a generator ends by itself, given the replies its waits receive. */
  function Driven(run: Run, r: Role, l: Local, replies: seq<Message>): Local
    decreases |run.protocol.Of(r).code| - l.pc, if l.phase == Running then 1 else 0
  {
    if !CanExec(run, r, l) then l
    else Driven(run, r, Turn(run, r, l, Reply(run, r, l, replies)), Rest(run, r, l, replies))
  }

  /** What it sends on the way. */
  function Sends(run: Run, r: Role, l: Local, replies: seq<Message>): seq<Message>
    decreases |run.protocol.Of(r).code| - l.pc, if l.phase == Running then 1 else 0
  {
    if !CanExec(run, r, l) then []
    else Emitted(run, r, l) + Sends(run, r, Turn(run, r, l, Reply(run, r, l, replies)), Rest(run, r, l, replies))
  }

  /**
   Every wait takes one reply, the next in order, and goes on with the rest; without a reply it times out and the
   generator stops. No other opcode takes a reply.
   */
  lemma EachWaitTakesOneReply(run: Run, r: Role, l: Local, replies: seq<Message>)
    requires CanExec(run, r, l)
    ensures !run.protocol.Of(r).code[l.pc].SendAndWait? ==> Driven(run, r, l, replies) == Driven(run, r, ExecLocal(run, r, l), replies)
    ensures run.protocol.Of(r).code[l.pc].SendAndWait? ==>
              Driven(run, r, l, replies) == if replies == [] then l.(phase := Stopped)
                                            else Driven(run, r, ResumeLocal(run, r, l.(phase := Phase.Resolved(replies[0]))), replies[1..])
  {
  }

  /**
   The loop that runs each yielded opcode and feeds its result back. Whatever the replies: when the
   generator has persisted, it holds its counterparties' signatures on exactly what it persisted.
   */
  method RunProtocol(run: Run, r: Role, start: Local, replies: seq<Message>) returns (l: Local, sent: seq<Message>)
    requires KeepsChecked(run, r, start) && PersistsCountersigned(run.protocol.Of(r))
    ensures l == Driven(run, r, start, replies) && sent == Sends(run, r, start, replies)
    ensures SavedIsHeld(run, r, l)
  {
    l, sent := start, [];
    var rest := replies;
    while CanExec(run, r, l)
      invariant KeepsChecked(run, r, l) && StillTo(run, r, start, replies, l, sent, rest)
      decreases |run.protocol.Of(r).code| - l.pc, if l.phase == Running then 1 else 0
    {
      var reply := Reply(run, r, l, rest);
      TurnHolds(run, r, l, reply);
      TurnAdvances(run, r, l, reply);
      TurnStillTo(run, r, start, replies, l, sent, rest);
      l, sent, rest := Turn(run, r, l, reply), sent + Emitted(run, r, l), Rest(run, r, l, rest);
    }
    assert sent + [] == sent;
    SavedWhenPersisted(run, r, l);
  }

  lemma SavedWhenPersisted(run: Run, r: Role, l: Local)
    requires KeepsChecked(run, r, l) && PersistsCountersigned(run.protocol.Of(r))
    ensures SavedIsHeld(run, r, l)
  {
    if l.persisted {
      forall v | v in run.protocol.Of(r).saves ensures v in l.held && l.held[v] == run.Expected(r, v) {
        CheckedIsHeld(run, r, l, v);
      }
    }
  }

  predicate SavedIsHeld(run: Run, r: Role, l: Local) {
    l.persisted ==> forall v :: v in run.protocol.Of(r).saves ==>
      v in l.held && l.held[v] == Signature(run.signer(v), run.view(r, v.doc))
  }

  /** Going on from `l` with the remaining replies ends where the whole run ends. */
  predicate StillTo(run: Run, r: Role, start: Local, replies: seq<Message>, l: Local, sent: seq<Message>, rest: seq<Message>) {
    && Driven(run, r, start, replies) == Driven(run, r, l, rest)
    && Sends(run, r, start, replies) == sent + Sends(run, r, l, rest)
  }

  lemma TurnStillTo(run: Run, r: Role, start: Local, replies: seq<Message>, l: Local, sent: seq<Message>, rest: seq<Message>)
    requires CanExec(run, r, l) && StillTo(run, r, start, replies, l, sent, rest)
    ensures StillTo(run, r, start, replies, Turn(run, r, l, Reply(run, r, l, rest)), sent + Emitted(run, r, l), Rest(run, r, l, rest))
  {
    var more := Sends(run, r, Turn(run, r, l, Reply(run, r, l, rest)), Rest(run, r, l, rest));
    assert sent + (Emitted(run, r, l) + more) == sent + Emitted(run, r, l) + more;
  }

  /** A turn moves the generator on or ends it. */
  lemma TurnAdvances(run: Run, r: Role, l: Local, reply: Option<Message>)
    requires CanExec(run, r, l)
    ensures l.pc <= Turn(run, r, l, reply).pc <= |run.protocol.Of(r).code|
    ensures Turn(run, r, l, reply).pc > l.pc || Turn(run, r, l, reply).phase != Running
  {
  }

  lemma TurnHolds(run: Run, r: Role, l: Local, reply: Option<Message>)
    requires CanExec(run, r, l) && KeepsChecked(run, r, l)
    ensures KeepsChecked(run, r, Turn(run, r, l, reply))
  {
    ExecKeepsChecked(run, r, l);
  }

  lemma ExecuteMore(run: Run, steps: seq<Step>, step: Step)
    requires Execute(run, steps).Some?
    ensures Execute(run, steps + [step]) == Next(run, Execute(run, steps).value, step)
  {
    assert (steps + [step])[..|steps|] == steps;
  }

  lemma ResumedAfterReply(run: Run, s: State, r: Role, reply: Message)
    requires r in s.locals && s.locals[r].phase == Waiting && reply.to == r
    requires s.locals[r].pc < |run.protocol.Of(r).code| && run.protocol.Of(r).code[s.locals[r].pc].SendAndWait?
    ensures var t := Next(run, s, Forge(reply));
            && t.Some? && r in t.value.locals
            && var u := Next(run, t.value, Resume(r));
               && u.Some? && r in u.value.locals
               && u.value.locals[r] == ResumeLocal(run, r, s.locals[r].(phase := Phase.Resolved(reply)))
  {
  }

  /** A wait that is answered: the role executes it, a message is handed to it, and it resumes. */
  lemma AnsweredWait(run: Run, steps: seq<Step>, r: Role, reply: Message)
    requires Execute(run, steps).Some? && r in Execute(run, steps).value.locals && reply.to == r
    requires CanExec(run, r, Execute(run, steps).value.locals[r])
    requires ExecLocal(run, r, Execute(run, steps).value.locals[r]).phase == Waiting
    ensures var next := ExecLocal(run, r, Execute(run, steps).value.locals[r]);
            var t := Execute(run, steps + [Exec(r)] + [Forge(reply)] + [Resume(r)]);
            t.Some? && r in t.value.locals && t.value.locals[r] == ResumeLocal(run, r, next.(phase := Phase.Resolved(reply)))
  {
    var s1 := steps + [Exec(r)];
    var s2 := s1 + [Forge(reply)];
    ExecuteMore(run, steps, Exec(r));
    ResumedAfterReply(run, Execute(run, s1).value, r, reply);
    ExecuteMore(run, s1, Forge(reply));
    ExecuteMore(run, s2, Resume(r));
  }

  lemma TimedOutWait(run: Run, steps: seq<Step>, r: Role)
    requires Execute(run, steps).Some? && r in Execute(run, steps).value.locals
    requires CanExec(run, r, Execute(run, steps).value.locals[r])
    ensures var next := ExecLocal(run, r, Execute(run, steps).value.locals[r]);
            var t := Execute(run, steps + [Exec(r)] + [Stop(r)]);
            t.Some? && r in t.value.locals && t.value.locals[r] == next.(phase := Stopped)
  {
    ExecuteMore(run, steps, Exec(r));
    ExecuteMore(run, steps + [Exec(r)], Stop(r));
  }

  /** One turn of the loop is a few steps of a run. */
  lemma TurnIsARun(run: Run, steps: seq<Step>, r: Role, reply: Option<Message>) returns (more: seq<Step>)
    requires Execute(run, steps).Some? && r in Execute(run, steps).value.locals
    requires CanExec(run, r, Execute(run, steps).value.locals[r]) && (reply.Some? ==> reply.value.to == r)
    ensures Execute(run, more).Some? && r in Execute(run, more).value.locals
    ensures Execute(run, more).value.locals[r] == Turn(run, r, Execute(run, steps).value.locals[r], reply)
  {
    if ExecLocal(run, r, Execute(run, steps).value.locals[r]).phase != Waiting {
      ExecuteMore(run, steps, Exec(r));
      more := steps + [Exec(r)];
    } else if reply.None? {
      TimedOutWait(run, steps, r);
      more := steps + [Exec(r)] + [Stop(r)];
    } else {
      AnsweredWait(run, steps, r, reply.value);
      more := steps + [Exec(r)] + [Forge(reply.value)] + [Resume(r)];
    }
  }

  /** The loop is one of the interleavings: its generator ends where some run, with other messages injected, leaves the role. */
  lemma {:induction false} LoopIsAnInterleaving(run: Run, steps: seq<Step>, r: Role, replies: seq<Message>) returns (all: seq<Step>)
    requires Execute(run, steps).Some? && r in Execute(run, steps).value.locals
    requires forall i :: 0 <= i < |replies| ==> replies[i].to == r
    ensures Execute(run, all).Some? && r in Execute(run, all).value.locals
    ensures Execute(run, all).value.locals[r] == Driven(run, r, Execute(run, steps).value.locals[r], replies)
    decreases |run.protocol.Of(r).code| - Execute(run, steps).value.locals[r].pc,
              if Execute(run, steps).value.locals[r].phase == Running then 1 else 0
  {
    var l := Execute(run, steps).value.locals[r];
    if !CanExec(run, r, l) {
      all := steps;
    } else {
      all := TurnIsARun(run, steps, r, Reply(run, r, l, replies));
      TurnAdvances(run, r, l, Reply(run, r, l, replies));
      all := LoopIsAnInterleaving(run, all, r, Rest(run, r, l, replies));
    }
  }
}
