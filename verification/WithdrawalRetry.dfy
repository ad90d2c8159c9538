/**
 The client's withdrawal retry. A withdrawal is stored with a retry counter, submitted to the node and
 watched for on chain; after enough blocks without it the counter goes up and it is submitted again.
 The client may crash at every await and start over from what is stored.
 */
module WithdrawalRetry {
  import opened Models

  const MAX_WITHDRAWAL_RETRIES: nat := 3
  const MAX_BLOCKS: int := 15

  datatype Tx = Tx(to: Address, value: int, data: seq<nat>)
  datatype Withdrawal = Withdrawal(tx: Tx, retry: nat)

  /** A block, with the accounts whose `getTransactionCount` is not zero by then. */
  datatype Block = Block(number: int, transactions: seq<Tx>, senders: seq<Address>)

  /** The transaction is mined here, and the client looks: it does not when the recipient has never sent anything. */
  predicate Shows(block: Block, tx: Tx) {
    tx.to in block.senders && tx in block.transactions
  }

  /** Where the client is between two awaits. */
  datatype Phase = Down | Ready | Submitting | Watching(startingBlock: int) | Retrying

  /**
   `submissions` counts how often the stored withdrawal was handed to the node, `seen` that a matching
   transaction was found, and `connecting` that `connect` is still waiting for the outcome.
   */
  datatype State = State(phase: Phase, connecting: bool, stored: Option<Withdrawal>, submissions: nat, seen: bool)

  datatype Step =
    | Connect(latest: Option<Tx>)    // resubmitActiveWithdrawal, with the node's latest withdrawal
    | Withdraw(tx: Tx)               // a new withdrawal is stored
    | Submit(height: int)            // the node takes it; watching starts at this block
    | Mined(block: Block)            // a block arrives while watching
    | Retry                          // the counter goes up
    | Crash

  function Cleared(s: State): State {
    s.(phase := Ready, connecting := false, stored := None, seen := true)
  }

  function Retried(s: State): State {
    if s.stored.None? then s.(phase := Ready, connecting := false)
    else
      var t := s.(stored := Some(s.stored.value.(retry := s.stored.value.retry + 1)));
      if t.stored.value.retry >= MAX_WITHDRAWAL_RETRIES then Thrown(t) else t.(phase := Submitting)
  }

  /** A throw rejects `connect`, so that there is no client; a withdrawal catches it and the client goes on. */
  function Thrown(s: State): State {
    s.(phase := if s.connecting then Down else Ready, connecting := false)
  }

  function Next(s: State, step: Step): Option<State> {
    match step
    case Connect(latest) =>
      if s.phase != Down then None
      else if s.stored.None? then Some(s.(phase := Ready))
      else if s.stored.value.retry >= MAX_WITHDRAWAL_RETRIES then Some(s)
      else if latest == Some(s.stored.value.tx) then Some(Cleared(s))
      else Some(s.(phase := Retrying, connecting := true))
    case Withdraw(tx) => if s.phase == Ready then Some(State(Submitting, false, Some(Withdrawal(tx, 0)), 0, false)) else None
    case Submit(height) =>
      if s.phase == Submitting then Some(s.(phase := Watching(height), submissions := s.submissions + 1)) else None
    case Mined(block) =>
      if !s.phase.Watching? then None
      else if s.stored.Some? && Shows(block, s.stored.value.tx) then Some(Cleared(s))
      else if block.number - s.phase.startingBlock >= MAX_BLOCKS then Some(s.(phase := Retrying))
      else Some(s)
    case Retry => if s.phase == Retrying then Some(Retried(s)) else None
    case Crash => Some(s.(phase := Down, connecting := false))
  }

  function Follow(s: State, steps: seq<Step>): Option<State> {
    if steps == [] then Some(s) else
      match Follow(s, steps[..|steps| - 1])
      case None => None
      case Some(t) => Next(t, steps[|steps| - 1])
  }

  const FRESH := State(Down, false, None, 0, false)

  ghost predicate Bounded(s: State) {
    && s.submissions <= MAX_WITHDRAWAL_RETRIES
    && (s.stored.Some? ==> s.stored.value.retry <= MAX_WITHDRAWAL_RETRIES && s.submissions <= s.stored.value.retry + 1)
    && (s.stored.None? && s.submissions > 0 ==> s.seen)
    && (s.phase == Submitting ==> s.stored.Some? && s.submissions <= s.stored.value.retry < MAX_WITHDRAWAL_RETRIES)
    && (s.phase.Watching? || s.phase == Retrying ==> s.stored.Some? && s.stored.value.retry < MAX_WITHDRAWAL_RETRIES)
  }

  /**
   Over every run, crashes and restarts included: the counter stays in 0..3, the stored withdrawal has
   been submitted at most once more than the counter says and never more than three times, and if it
   is gone after a submission, a matching transaction was seen.
   */
  lemma {:induction false} EveryRunIsBounded(steps: seq<Step>)
    requires Follow(FRESH, steps).Some?
    ensures Bounded(Follow(FRESH, steps).value)
  {
    if steps != [] {
      EveryRunIsBounded(steps[..|steps| - 1]);
    }
  }

  /** The entry goes away only in a step that finds a matching transaction. */
  lemma ClearedOnlyWhenSeen(s: State, step: Step)
    requires Next(s, step).Some? && s.stored.Some? && Next(s, step).value.stored.None?
    ensures || (step.Mined? && Shows(step.block, s.stored.value.tx))
            || (step.Connect? && step.latest == Some(s.stored.value.tx))
    ensures Next(s, step).value.seen
  {
  }

  /** A withdrawal to an account that has never sent a transaction is not found, although the block contains it. */
  lemma SilentRecipientIsMissed(s: State, block: Block)
    requires s.phase.Watching? && s.stored.Some? && s.stored.value.tx.to !in block.senders
    ensures Next(s, Mined(block)).Some? && Next(s, Mined(block)).value.stored == s.stored
  {
  }

  ghost predicate Exhausted(s: State) {
    s.stored.Some? && s.stored.value.retry >= MAX_WITHDRAWAL_RETRIES && (s.phase == Down || s.phase == Ready)
  }

  /** Connecting is refused exactly when the stored withdrawal has used up its retries. */
  lemma ConnectIsRefusedIff(s: State, latest: Option<Tx>)
    requires s.phase == Down
    ensures Next(s, Connect(latest)).Some?
    ensures Next(s, Connect(latest)).value.phase == Down <==> s.stored.Some? && s.stored.value.retry >= MAX_WITHDRAWAL_RETRIES
  {
  }

  /** A client that is down with its retries used up never connects again, whatever the node says. */
  lemma {:induction false} ExhaustedStaysDown(s: State, steps: seq<Step>)
    requires Exhausted(s) && s.phase == Down && !s.connecting
    requires Follow(s, steps).Some?
    ensures Follow(s, steps).value == s
  {
    if steps != [] {
      ExhaustedStaysDown(s, steps[..|steps| - 1]);
    }
  }

  /**
   The entry of a withdrawal that has used up its retries leaves the store in a step if and only if the
   step is a new withdrawal, which only a client that has been up ever since can make.
   */
  lemma ExhaustedIsReplacedIff(s: State, step: Step)
    requires Exhausted(s) && Next(s, step).Some?
    ensures Next(s, step).value.stored != s.stored <==> step.Withdraw?
    ensures step.Withdraw? ==> s.phase == Ready
    ensures !step.Withdraw? ==> Exhausted(Next(s, step).value)
  {
  }

  lemma {:induction false} ExhaustedUntilReplaced(s: State, steps: seq<Step>)
    requires Exhausted(s) && Follow(s, steps).Some? && forall step :: step in steps ==> !step.Withdraw?
    ensures Exhausted(Follow(s, steps).value) && Follow(s, steps).value.stored == s.stored
  {
    if steps != [] {
      ExhaustedUntilReplaced(s, steps[..|steps| - 1]);
      ExhaustedIsReplacedIff(Follow(s, steps[..|steps| - 1]).value, steps[|steps| - 1]);
    }
  }

  /**
   A new withdrawal overwrites a stored one that was never seen on chain, starting to count from zero;
   the client can then connect again after a crash.
   */
  lemma NewWithdrawalOverwrites(s: State, tx: Tx, latest: Option<Tx>)
    requires Exhausted(s) && s.phase == Ready
    ensures var t := Next(s, Withdraw(tx));
            && t.Some? && t.value.stored == Some(Withdrawal(tx, 0)) && t.value.submissions == 0
            && Next(t.value, Crash).Some?
            && Next(Next(t.value, Crash).value, Connect(latest)).Some?
            && Next(Next(t.value, Crash).value, Connect(latest)).value.phase != Down
  {
  }

  // ---- What happens to a withdrawal that is not seen -------------------------------------------

  /**
   While watching, a block ends the watch if and only if it shows the transaction, which clears the entry, or is
   fifteen or more past the first; then the client goes on to retry, with the entry as it was.
   */
  lemma WatchEndsIff(s: State, block: Block)
    requires s.phase.Watching? && s.stored.Some?
    ensures var t, late := Next(s, Mined(block)), block.number - s.phase.startingBlock >= 15;
            && t.Some?
            && (Shows(block, s.stored.value.tx) ==> t.value.phase == Ready && t.value.stored.None?)
            && (!Shows(block, s.stored.value.tx) ==> t.value.stored == s.stored && t.value.submissions == s.submissions)
            && (!Shows(block, s.stored.value.tx) && late ==> t.value.phase == Retrying)
            && (!Shows(block, s.stored.value.tx) && !late ==> t.value == s)
  {
  }

  /**
   A retry raises the counter by one. It leads to another submission unless it was the third; the third
   rejects `connect` when that is still waiting, and otherwise leaves the client up.
   */
  lemma RetrySubmitsAgain(s: State, height: int)
    requires s.phase == Retrying && s.stored.Some?
    ensures var t := Next(s, Retry);
            && t.Some? && t.value.stored == Some(Withdrawal(s.stored.value.tx, s.stored.value.retry + 1))
            && (s.stored.value.retry + 1 < 3 ==>
                  && Next(t.value, Submit(height)).Some?
                  && Next(t.value, Submit(height)).value == t.value.(phase := Watching(height), submissions := s.submissions + 1))
            && (s.stored.value.retry + 1 >= 3 ==> t.value.phase == (if s.connecting then Down else Ready) && t.value.submissions == s.submissions)
  {
  }

  /**
   A client that comes up finds its withdrawal already submitted, and clears it, or refuses because its retries
   are used up, or submits it again.
   */
  lemma ConnectResumes(s: State, latest: Option<Tx>)
    requires s.phase == Down && s.stored.Some?
    ensures var t, w := Next(s, Connect(latest)), s.stored.value;
            && t.Some?
            && (t.value.stored.None? <==> w.retry < 3 && latest == Some(w.tx))
            && (t.value.stored.None? ==> t.value.phase == Ready)
            && (w.retry < 3 && latest != Some(w.tx) ==> t.value.phase == Retrying && t.value.connecting && t.value.stored == s.stored)
  {
  }

  /** The steps of one submission that is watched until some block is too far past it, and of the retry that follows. */
  function OneTry(height: int, block: Block): seq<Step> {
    [Submit(height), Mined(block), Retry]
  }

  predicate TooLate(height: int, block: Block, tx: Tx) {
    !Shows(block, tx) && block.number - height >= 15
  }

  lemma OneTryFails(s: State, height: int, block: Block)
    requires s.phase == Submitting && s.stored.Some? && TooLate(height, block, s.stored.value.tx)
    ensures var w := s.stored.value;
            Follow(s, OneTry(height, block))
            == Some(s.(phase := if w.retry + 1 < 3 then Submitting else if s.connecting then Down else Ready,
                       connecting := if w.retry + 1 < 3 then s.connecting else false,
                       stored := Some(w.(retry := w.retry + 1)), submissions := s.submissions + 1))
  {
    var t := s.(phase := Watching(height), submissions := s.submissions + 1);
    var u := t.(phase := Retrying);
    WatchEndsIff(t, block);
    RetrySubmitsAgain(u, height);
    ThreeSteps(s, Submit(height), t, Mined(block), u, Retry, Retried(u));
  }

  lemma ThreeSteps(s: State, a: Step, t: State, b: Step, u: State, c: Step, v: State)
    requires Next(s, a) == Some(t) && Next(t, b) == Some(u) && Next(u, c) == Some(v)
    ensures Follow(s, [a, b, c]) == Some(v)
  {
    FollowOne(s, a);
    FollowMore(s, [a], t, b, u);
    FollowMore(s, [a] + [b], u, c, v);
    assert [a] + [b] + [c] == [a, b, c];
  }

  /**
   A withdrawal that no block shows is submitted exactly three times, whatever the blocks; then the client
   gives up on it and goes on, with the entry still stored.
   */
  lemma NeverMinedIsTriedThreeTimes(s: State, tx: Tx, heights: (int, int, int), blocks: (Block, Block, Block))
    requires s.phase == Ready
    requires TooLate(heights.0, blocks.0, tx) && TooLate(heights.1, blocks.1, tx) && TooLate(heights.2, blocks.2, tx)
    ensures Follow(s, [Step.Withdraw(tx)] + OneTry(heights.0, blocks.0) + OneTry(heights.1, blocks.1) + OneTry(heights.2, blocks.2))
         == Some(State(Ready, false, Some(Withdrawal(tx, 3)), 3, false))
  {
    var t := State(Submitting, false, Some(Withdrawal(tx, 0)), 0, false);
    var t1 := State(Submitting, false, Some(Withdrawal(tx, 1)), 1, false);
    var t2 := State(Submitting, false, Some(Withdrawal(tx, 2)), 2, false);
    var steps := [Step.Withdraw(tx)];
    FollowOne(s, Step.Withdraw(tx));
    OneTryFails(t, heights.0, blocks.0);
    FollowThen(s, steps, t, OneTry(heights.0, blocks.0), t1);
    OneTryFails(t1, heights.1, blocks.1);
    FollowThen(s, steps + OneTry(heights.0, blocks.0), t1, OneTry(heights.1, blocks.1), t2);
    OneTryFails(t2, heights.2, blocks.2);
    FollowThen(s, steps + OneTry(heights.0, blocks.0) + OneTry(heights.1, blocks.1), t2, OneTry(heights.2, blocks.2),
               State(Ready, false, Some(Withdrawal(tx, 3)), 3, false));
  }

  lemma {:induction false} FollowAppend(s: State, a: seq<Step>, b: seq<Step>)
    requires Follow(s, a).Some?
    ensures Follow(s, a + b) == Follow(Follow(s, a).value, b)
  {
    if b == [] {
      assert a + b == a;
    } else {
      var c := a + b;
      assert c[..|c| - 1] == a + b[..|b| - 1];
      FollowAppend(s, a, b[..|b| - 1]);
    }
  }

  lemma FollowMore(s: State, steps: seq<Step>, t: State, step: Step, u: State)
    requires Follow(s, steps) == Some(t) && Next(t, step) == Some(u)
    ensures Follow(s, steps + [step]) == Some(u)
  {
    var all := steps + [step];
    assert all[..|all| - 1] == steps;
  }

  lemma FollowThen(s: State, a: seq<Step>, t: State, b: seq<Step>, u: State)
    requires Follow(s, a) == Some(t) && Follow(t, b) == Some(u)
    ensures Follow(s, a + b) == Some(u)
  {
    FollowAppend(s, a, b);
  }

  /** How a call ends: it returns, it throws, or the client crashes while it runs. */
  datatype End = Returned | Threw | Crashed

  /** Where a call leaves the client; a call made while connecting takes `connect` with it when it throws. */
  function PhaseAfter(end: End, connecting: bool): Phase {
    if end == Crashed || (end == Threw && connecting) then Down else Ready
  }

  /** What happens around the client: how many more calls to the store and the node it survives, and the blocks to come. */
  datatype World = World(awaits: nat, height: int, blocks: seq<Block>)

  /** No block to come shows the transaction. */
  predicate Unseen(blocks: seq<Block>, tx: Tx) {
    forall i :: 0 <= i < |blocks| ==> !Shows(blocks[i], tx)
  }

  /** Some block to come is so far past `height` that the watch is given up. */
  predicate GivesUp(blocks: seq<Block>, height: int) {
    exists i :: 0 <= i < |blocks| && blocks[i].number - height >= 15
  }

  /** Still the same withdrawal, tried `n` times more or interrupted by a crash. */
  predicate TriedMore(before: Withdrawal, after: Option<Withdrawal>, end: End, n: nat) {
    after.Some? && after.value.tx == before.tx && after.value.retry >= before.retry
    && (end == Crashed || after.value.retry >= before.retry + n)
  }

  class Client {
    var stored: Option<Withdrawal>
    var submissions: nat
    var seen: bool

    ghost function View(phase: Phase, connecting: bool): State
      reads this
    {
      State(phase, connecting, stored, submissions, seen)
    }

    /** The retries left, which every round of watching and retrying uses up. */
    function RetriesLeft(): nat
      reads this
    {
      if stored.None? || stored.value.retry >= MAX_WITHDRAWAL_RETRIES then 0 else MAX_WITHDRAWAL_RETRIES - stored.value.retry
    }

    constructor ()
      ensures View(Down, false) == FRESH
    {
      stored, submissions, seen := None, 0, false;
    }

    method CheckForUserWithdrawal(block: Block) returns (found: bool)
      ensures found <==> stored.Some? && Shows(block, stored.value.tx)
    {
      if stored.None? {
        return false;
      }
      if stored.value.tx.to !in block.senders {
        return false;
      }
      for i := 0 to |block.transactions|
        invariant stored.value.tx !in block.transactions[..i]
      {
        if block.transactions[i] == stored.value.tx {
          return true;
        }
      }
      assert block.transactions[..|block.transactions|] == block.transactions;
      return false;
    }

    method WatchForUserWithdrawal(world: World, connecting: bool) returns (rest: World, end: End, ghost steps: seq<Step>)
      modifies this
      decreases RetriesLeft(), 1
      ensures Follow(old(View(Watching(world.height), connecting)), steps) == Some(View(PhaseAfter(end, connecting), false))
      ensures end == Returned ==> stored.None? && (old(stored).Some? ==> seen)
      ensures end == Threw ==> stored.Some? && stored.value.retry >= MAX_WITHDRAWAL_RETRIES
      ensures old(stored.Some? && Unseen(world.blocks, stored.value.tx)) ==>
                TriedMore(old(stored).value, stored, end, if GivesUp(world.blocks, world.height) then 1 else 0)
    {
      var startingBlock := world.height;
      ghost var start := View(Watching(world.height), connecting);
      rest, steps := world, [];
      while rest.blocks != []
        invariant stored == old(stored) && submissions == old(submissions) && seen == old(seen)
        invariant View(Watching(startingBlock), connecting) == start && Follow(start, steps) == Some(start)
        invariant |rest.blocks| <= |world.blocks| && rest.blocks == world.blocks[|world.blocks| - |rest.blocks|..]
        invariant forall i :: 0 <= i < |world.blocks| - |rest.blocks| ==> world.blocks[i].number - world.height < 15
        decreases |rest.blocks|
      {
        var block := rest.blocks[0];
        rest := rest.(height := block.number, blocks := rest.blocks[1..]);
        var found := CheckForUserWithdrawal(block);
        FollowMore(start, steps, start, Mined(block), Next(start, Mined(block)).value);
        steps := steps + [Mined(block)];
        if found {
          stored, seen := None, true;
          return rest, Returned, steps;
        }
        if block.number - startingBlock >= MAX_BLOCKS {
          ghost var before, more := steps, [];
          rest, end, more := RetryNodeSubmittedWithdrawal(rest, connecting);
          FollowThen(start, before, start.(phase := Retrying), more, View(PhaseAfter(end, connecting), false));
          return rest, end, before + more;
        }
      }
      FollowMore(start, steps, start, Crash, View(Down, false));
      return rest, Crashed, steps + [Crash];
    }

    method RetryNodeSubmittedWithdrawal(world: World, connecting: bool) returns (rest: World, end: End, ghost steps: seq<Step>)
      modifies this
      decreases RetriesLeft(), 0
      ensures Follow(old(View(Retrying, connecting)), steps) == Some(View(PhaseAfter(end, connecting), false))
      ensures end == Returned ==> stored.None? && (old(stored).Some? ==> seen)
      ensures end == Threw ==> stored.Some? && stored.value.retry >= MAX_WITHDRAWAL_RETRIES
      ensures old(stored.Some? && Unseen(world.blocks, stored.value.tx)) ==> TriedMore(old(stored).value, stored, end, 1)
    {
      ghost var start := View(Retrying, connecting);
      rest, steps := world, [];
      if rest.awaits == 0 {
        FollowOne(start, Crash);
        return rest, Crashed, [Crash];
      }
      rest := rest.(awaits := rest.awaits - 1);
      FollowOne(start, Retry);
      if stored.None? {
        return rest, Returned, [Retry];
      }
      var retry := stored.value.retry + 1;
      stored := Some(Withdrawal(stored.value.tx, retry));
      steps := [Retry];
      if retry >= MAX_WITHDRAWAL_RETRIES {
        return rest, Threw, steps;
      }
      ghost var more;
      rest, end, more := SubmitAndWatch(rest, connecting);
      FollowThen(start, steps, Retried(start), more, View(PhaseAfter(end, connecting), false));
      steps := steps + more;
    }

    /** `node.withdraw(tx)` followed by `watchForUserWithdrawal`. */
    method SubmitAndWatch(world: World, connecting: bool) returns (rest: World, end: End, ghost steps: seq<Step>)
      modifies this
      decreases RetriesLeft(), 2
      ensures Follow(old(View(Submitting, connecting)), steps) == Some(View(PhaseAfter(end, connecting), false))
      ensures end == Returned ==> stored.None? && (old(stored).Some? ==> seen)
      ensures end == Threw ==> stored.Some? && stored.value.retry >= MAX_WITHDRAWAL_RETRIES
      ensures old(stored.Some? && Unseen(world.blocks, stored.value.tx)) ==>
                TriedMore(old(stored).value, stored, end, if GivesUp(world.blocks, world.height) then 1 else 0)
    {
      ghost var start := View(Submitting, connecting);
      rest := world;
      if rest.awaits == 0 {
        FollowOne(start, Crash);
        return rest, Crashed, [Crash];
      }
      rest := rest.(awaits := rest.awaits - 1);
      submissions := submissions + 1;
      ghost var watching := View(Watching(rest.height), connecting);
      FollowOne(start, Submit(rest.height));
      steps := [Submit(rest.height)];
      ghost var more;
      rest, end, more := WatchForUserWithdrawal(rest, connecting);
      FollowThen(start, steps, watching, more, View(PhaseAfter(end, connecting), false));
      steps := steps + more;
    }

    /** A withdrawal the node submits: it is stored before anything else. */
    method Withdraw(tx: Tx, world: World) returns (rest: World, end: End, ghost steps: seq<Step>)
      modifies this
      ensures Follow(old(View(Ready, false)), steps) == Some(View(PhaseAfter(end, false), false))
      ensures Unseen(world.blocks, tx) ==> TriedMore(Withdrawal(tx, 0), stored, end, if GivesUp(world.blocks, world.height) then 1 else 0)
    {
      stored, submissions, seen := Some(Withdrawal(tx, 0)), 0, false;
      FollowOne(old(View(Ready, false)), Step.Withdraw(tx));
      ghost var more;
      rest, end, more := SubmitAndWatch(world, false);
      FollowAppend(old(View(Ready, false)), [Step.Withdraw(tx)], more);
      steps := [Step.Withdraw(tx)] + more;
    }

    /** On connecting: nothing stored, or refused, or already on chain, or retried. */
    method ResubmitActiveWithdrawal(latest: Option<Tx>, world: World) returns (rest: World, end: End, ghost steps: seq<Step>)
      modifies this
      ensures var refused := old(stored.Some? && stored.value.retry >= MAX_WITHDRAWAL_RETRIES);
              && (refused ==> end == Threw && View(Down, false) == old(View(Down, false)) && steps == [Connect(latest)])
              && Follow(old(View(Down, false)), steps) == Some(View(if refused then Down else PhaseAfter(end, true), false))
      ensures old(stored.Some? && stored.value.retry < 3 && latest != Some(stored.value.tx) && Unseen(world.blocks, stored.value.tx)) ==>
                TriedMore(old(stored).value, stored, end, 1)
    {
      rest, end, steps := world, Returned, [Connect(latest)];
      FollowOne(old(View(Down, false)), Connect(latest));
      if stored.None? {
        return;
      }
      if stored.value.retry >= MAX_WITHDRAWAL_RETRIES {
        end := Threw;
        return;
      }
      if latest == Some(stored.value.tx) {
        stored, seen := None, true;
        return;
      }
      ghost var more;
      rest, end, more := RetryNodeSubmittedWithdrawal(world, true);
      FollowAppend(old(View(Down, false)), [Connect(latest)], more);
      steps := [Connect(latest)] + more;
    }
  }

  lemma FollowOne(s: State, step: Step)
    ensures Follow(s, [step]) == Next(s, step)
  {
    assert [step][..0] == [];
  }
}
