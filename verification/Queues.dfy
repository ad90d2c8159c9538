/**
 Tasks that hold several locks. A lock is a FIFO queue that runs one entry at a time; a task puts an
 entry in the queue of each of its locks, and its body runs once every entry has reached the head.
 Every callback the event loop may run next is one step.
 */
module Queues {

  type Name = nat

  /** One entry: `resolved` is its deferred, `fired` that the rendezvous has called the memoised task for it. */
  datatype Slot = Slot(lock: Name, resolved: bool, fired: bool, done: bool)

  /** `thenable` says whether calling the task returns a promise, that is, something truthy to memoise. */
  datatype Job = Job(slots: seq<Slot>, thenable: bool, memo: bool, starts: nat, settled: bool, returned: bool)

  datatype Entry = Entry(job: nat, slot: nat)

  datatype State = State(queues: map<Name, seq<Entry>>, jobs: seq<Job>)

  datatype Step =
    | Submit(locks: seq<Name>, thenable: bool)
    | Activate(lock: Name)        // a queue runs its head, which resolves the head's deferred
    | Fire(e: Entry)              // all deferreds of the task are resolved: its `then` callback runs
    | Settle(job: nat)            // the promise of a started task settles
    | Dequeue(lock: Name)         // the head's promise has settled: the queue moves on
    | Return(job: nat)            // every entry is finished: the submitter reads the memoised result

  predicate IsSlot(s: State, e: Entry) {
    e.job < |s.jobs| && e.slot < |s.jobs[e.job].slots|
  }

  function At(s: State, e: Entry): Slot
    requires IsSlot(s, e)
  {
    s.jobs[e.job].slots[e.slot]
  }

  function NewSlots(locks: seq<Name>): (r: seq<Slot>)
    ensures |r| == |locks| && forall i :: 0 <= i < |r| ==> r[i] == Slot(locks[i], false, false, false)
  {
    seq(|locks|, i requires 0 <= i < |locks| => Slot(locks[i], false, false, false))
  }

  /** A task without locks is called at once. */
  function NewJob(locks: seq<Name>, thenable: bool): Job {
    if locks == [] then Job([], thenable, thenable, 1, !thenable, false)
    else Job(NewSlots(locks), thenable, false, 0, false, false)
  }

  /** Queues are created on demand. */
  function WithQueue(queues: map<Name, seq<Entry>>, lock: Name): map<Name, seq<Entry>> {
    if lock in queues then queues else queues[lock := []]
  }

  function WithQueues(queues: map<Name, seq<Entry>>, locks: seq<Name>, n: nat): (r: map<Name, seq<Entry>>)
    requires n <= |locks|
    ensures forall i :: 0 <= i < n ==> locks[i] in r
  {
    if n == 0 then queues else WithQueue(WithQueues(queues, locks, n - 1), locks[n - 1])
  }

  /** The first `n` entries of a job are appended to their queues. */
  function Enqueued(queues: map<Name, seq<Entry>>, job: nat, locks: seq<Name>, n: nat): (r: map<Name, seq<Entry>>)
    requires n <= |locks| && forall i :: 0 <= i < |locks| ==> locks[i] in queues
    ensures r.Keys == queues.Keys
  {
    if n == 0 then queues else
      var q := Enqueued(queues, job, locks, n - 1);
      q[locks[n - 1] := q[locks[n - 1]] + [Entry(job, n - 1)]]
  }

  function Submitted(s: State, locks: seq<Name>, thenable: bool): State {
    State(Enqueued(WithQueues(s.queues, locks, |locks|), |s.jobs|, locks, |locks|), s.jobs + [NewJob(locks, thenable)])
  }

  function SetSlot(s: State, e: Entry, slot: Slot): State
    requires IsSlot(s, e)
  {
    s.(jobs := s.jobs[e.job := s.jobs[e.job].(slots := s.jobs[e.job].slots[e.slot := slot])])
  }

  predicate AllResolved(job: Job) {
    forall i :: 0 <= i < |job.slots| ==> job.slots[i].resolved
  }

  predicate AllDone(job: Job) {
    forall i :: 0 <= i < |job.slots| ==> job.slots[i].done
  }

  /** `if (!promise) promise = task()`. A task that returns no promise has finished when the call returns. */
  function RunTaskWithMemoization(job: Job): Job {
    if job.memo then job
    else job.(starts := job.starts + 1, memo := job.thenable, settled := job.settled || !job.thenable)
  }

  predicate HasHead(s: State, lock: Name) {
    lock in s.queues && s.queues[lock] != [] && IsSlot(s, s.queues[lock][0])
  }

  predicate Enabled(s: State, step: Step) {
    match step
    case Submit(_, _) => true
    case Activate(lock) => HasHead(s, lock) && !At(s, s.queues[lock][0]).resolved
    case Fire(e) => IsSlot(s, e) && At(s, e).resolved && !At(s, e).fired && AllResolved(s.jobs[e.job])
    case Settle(j) => j < |s.jobs| && s.jobs[j].starts > 0 && !s.jobs[j].settled
    case Dequeue(lock) => HasHead(s, lock) && At(s, s.queues[lock][0]).fired && s.jobs[s.queues[lock][0].job].settled
    case Return(j) => j < |s.jobs| && !s.jobs[j].returned && AllDone(s.jobs[j]) && (s.jobs[j].slots == [] ==> s.jobs[j].settled)
  }

  function Fired(s: State, e: Entry): State
    requires IsSlot(s, e)
  {
    var s1 := SetSlot(s, e, At(s, e).(fired := true));
    s1.(jobs := s1.jobs[e.job := RunTaskWithMemoization(s1.jobs[e.job])])
  }

  function Next(s: State, step: Step): State
    requires Enabled(s, step)
  {
    match step
    case Submit(locks, thenable) => Submitted(s, locks, thenable)
    case Activate(lock) => SetSlot(s, s.queues[lock][0], At(s, s.queues[lock][0]).(resolved := true))
    case Fire(e) => Fired(s, e)
    case Settle(j) => s.(jobs := s.jobs[j := s.jobs[j].(settled := true)])
    case Dequeue(lock) =>
      SetSlot(s, s.queues[lock][0], At(s, s.queues[lock][0]).(done := true))
      .(queues := s.queues[lock := s.queues[lock][1..]])
    case Return(j) =>
      var job := if s.jobs[j].slots == [] then s.jobs[j] else RunTaskWithMemoization(s.jobs[j]);
      s.(jobs := s.jobs[j := job.(returned := true)])
  }

  /** The state after some steps, or nothing when one of them was not enabled. */
  ghost predicate Reaches(s: State, steps: seq<Step>, t: State)
    decreases |steps|
  {
    if steps == [] then t == s
    else Enabled(s, steps[0]) && Reaches(Next(s, steps[0]), steps[1..], t)
  }

  const EMPTY := State(map[], [])

  // ---- The invariant --------------------------------------------------------------------------

  predicate Before(e: Entry, f: Entry) {
    e.job < f.job || (e.job == f.job && e.slot < f.slot)
  }

  ghost predicate QueueOk(s: State, lock: Name) {
    lock in s.queues ==>
      var q := s.queues[lock];
      && (forall i :: 0 <= i < |q| ==> IsSlot(s, q[i]) && At(s, q[i]).lock == lock && !At(s, q[i]).done)
      && (forall i, j :: 0 <= i < j < |q| ==> Before(q[i], q[j]))
  }

  /** An unfinished entry is in the queue of its lock. */
  ghost predicate Queued(s: State, e: Entry) {
    IsSlot(s, e) && !At(s, e).done ==> At(s, e).lock in s.queues && e in s.queues[At(s, e).lock]
  }

  /** An entry reaches the head only when every earlier entry for its lock is finished. */
  ghost predicate InTurn(s: State, e: Entry, f: Entry) {
    IsSlot(s, e) && IsSlot(s, f) && At(s, e).lock == At(s, f).lock && Before(e, f) && At(s, f).resolved ==> At(s, e).done
  }

  function FiredCount(slots: seq<Slot>): nat {
    if slots == [] then 0 else FiredCount(slots[..|slots| - 1]) + if slots[|slots| - 1].fired then 1 else 0
  }

  /** How often the task's body has started. */
  ghost predicate StartsOk(job: Job) {
    if job.slots == [] then job.starts == 1
    else if job.thenable then
      && job.starts <= 1 && (job.memo <==> job.starts == 1)
      && (forall i :: 0 <= i < |job.slots| && job.slots[i].fired ==> job.memo)
    else
      !job.memo && job.starts == FiredCount(job.slots) + if job.returned then 1 else 0
  }

  ghost predicate JobOk(job: Job) {
    && (job.starts > 0 ==> AllResolved(job))
    && (job.settled ==> job.starts > 0)
    && (job.returned ==> AllDone(job) && job.settled)
    && (forall i :: 0 <= i < |job.slots| ==>
          && (job.slots[i].fired ==> job.slots[i].resolved && job.starts > 0)
          && (job.slots[i].done ==> job.slots[i].fired && job.settled))
    && StartsOk(job)
  }

  ghost predicate Inv(s: State) {
    && (forall lock :: QueueOk(s, lock))
    && (forall e :: Queued(s, e))
    && (forall e, f :: InTurn(s, e, f))
    && (forall j :: 0 <= j < |s.jobs| ==> JobOk(s.jobs[j]))
  }

  // ---- Submitting -----------------------------------------------------------------------------

  /** The entries that a job's first `n` locks put into one queue. */
  function EntriesFor(job: nat, locks: seq<Name>, n: nat, lock: Name): seq<Entry>
    requires n <= |locks|
  {
    if n == 0 then []
    else EntriesFor(job, locks, n - 1, lock) + if locks[n - 1] == lock then [Entry(job, n - 1)] else []
  }

  predicate SlotsAscend(q: seq<Entry>) {
    forall i, j :: 0 <= i < j < |q| ==> q[i].slot < q[j].slot
  }

  lemma {:induction false} EntriesForMembers(job: nat, locks: seq<Name>, n: nat, lock: Name)
    requires n <= |locks|
    ensures forall e :: e in EntriesFor(job, locks, n, lock) <==> e.job == job && e.slot < n && locks[e.slot] == lock
    ensures SlotsAscend(EntriesFor(job, locks, n, lock))
  {
    if n > 0 {
      EntriesForMembers(job, locks, n - 1, lock);
      var p := EntriesFor(job, locks, n - 1, lock);
      forall i | 0 <= i < |p| ensures p[i].slot < n - 1 { assert p[i] in p; }
    }
  }

  lemma {:induction false} EnqueuedContents(queues: map<Name, seq<Entry>>, job: nat, locks: seq<Name>, n: nat, lock: Name)
    requires n <= |locks| && (forall i :: 0 <= i < |locks| ==> locks[i] in queues) && lock in queues
    ensures Enqueued(queues, job, locks, n)[lock] == queues[lock] + EntriesFor(job, locks, n, lock)
  {
    if n > 0 {
      EnqueuedContents(queues, job, locks, n - 1, lock);
    }
  }

  lemma {:induction false} WithQueuesContents(queues: map<Name, seq<Entry>>, locks: seq<Name>, n: nat, lock: Name)
    requires n <= |locks|
    ensures var r := WithQueues(queues, locks, n);
            && (lock in queues ==> lock in r && r[lock] == queues[lock])
            && (lock in r && lock !in queues ==> r[lock] == [])
  {
    if n > 0 {
      WithQueuesContents(queues, locks, n - 1, lock);
    }
  }

  function QueueOf(s: State, lock: Name): seq<Entry> {
    if lock in s.queues then s.queues[lock] else []
  }

  lemma {:induction false} NothingForAbsentLock(job: nat, locks: seq<Name>, n: nat, lock: Name)
    requires n <= |locks| && forall i :: 0 <= i < n ==> locks[i] != lock
    ensures EntriesFor(job, locks, n, lock) == []
  {
    if n > 0 {
      NothingForAbsentLock(job, locks, n - 1, lock);
    }
  }

  /** Submitting appends the job's entries to its queues, behind every entry that is already there. */
  lemma SubmittedQueue(s: State, locks: seq<Name>, thenable: bool, lock: Name)
    ensures QueueOf(Submitted(s, locks, thenable), lock) == QueueOf(s, lock) + EntriesFor(|s.jobs|, locks, |locks|, lock)
  {
    var created := WithQueues(s.queues, locks, |locks|);
    WithQueuesContents(s.queues, locks, |locks|, lock);
    if lock in created {
      assert created[lock] == QueueOf(s, lock);
      EnqueuedContents(created, |s.jobs|, locks, |locks|, lock);
    } else {
      assert QueueOf(s, lock) == [];
      NothingForAbsentLock(|s.jobs|, locks, |locks|, lock);
    }
  }

  /** Entries of a later job may follow a queue's entries. */
  lemma AppendOrdered(earlier: seq<Entry>, added: seq<Entry>, job: nat)
    requires forall i, k :: 0 <= i < k < |earlier| ==> Before(earlier[i], earlier[k])
    requires forall i :: 0 <= i < |earlier| ==> earlier[i].job < job
    requires SlotsAscend(added) && forall e :: e in added ==> e.job == job
    ensures var q := earlier + added; forall i, k :: 0 <= i < k < |q| ==> Before(q[i], q[k])
  {
  }

  lemma SubmitQueueOk(s: State, locks: seq<Name>, thenable: bool, lock: Name)
    requires QueueOk(s, lock)
    ensures QueueOk(Submitted(s, locks, thenable), lock)
  {
    var s', j := Submitted(s, locks, thenable), |s.jobs|;
    SubmittedQueue(s, locks, thenable, lock);
    EntriesForMembers(j, locks, |locks|, lock);
    var earlier, added, q := QueueOf(s, lock), EntriesFor(j, locks, |locks|, lock), QueueOf(s', lock);
    forall i | 0 <= i < |q| ensures IsSlot(s', q[i]) && At(s', q[i]).lock == lock && !At(s', q[i]).done {
      if i < |earlier| { assert IsSlot(s, earlier[i]); } else { assert q[i] == added[i - |earlier|] && q[i] in added; }
    }
    assert forall i :: 0 <= i < |earlier| ==> IsSlot(s, earlier[i]);
    AppendOrdered(earlier, added, j);
  }

  lemma SubmitQueued(s: State, locks: seq<Name>, thenable: bool, e: Entry)
    requires Queued(s, e)
    ensures Queued(Submitted(s, locks, thenable), e)
  {
    var s', j := Submitted(s, locks, thenable), |s.jobs|;
    if IsSlot(s', e) && !At(s', e).done {
      var lock := At(s', e).lock;
      SubmittedQueue(s, locks, thenable, lock);
      EntriesForMembers(j, locks, |locks|, lock);
      if e.job < j {
        assert IsSlot(s, e) && e in QueueOf(s, lock);
      } else {
        assert e in EntriesFor(j, locks, |locks|, lock);
      }
      assert e in QueueOf(s', lock);
    }
  }

  lemma {:induction false} NoneFired(slots: seq<Slot>)
    requires forall i :: 0 <= i < |slots| ==> !slots[i].fired
    ensures FiredCount(slots) == 0
  {
    if slots != [] {
      NoneFired(slots[..|slots| - 1]);
    }
  }

  lemma SubmitKeeps(s: State, locks: seq<Name>, thenable: bool)
    requires Inv(s)
    ensures Inv(Submitted(s, locks, thenable))
  {
    var s' := Submitted(s, locks, thenable);
    forall lock ensures QueueOk(s', lock) { SubmitQueueOk(s, locks, thenable, lock); }
    forall e ensures Queued(s', e) { SubmitQueued(s, locks, thenable, e); }
    forall e, f ensures InTurn(s', e, f) { assert InTurn(s, e, f); }
    NoneFired(NewSlots(locks));
    assert JobOk(NewJob(locks, thenable));
  }

  // ---- The other steps ------------------------------------------------------------------------

  lemma HeadIsInTurn(s: State, lock: Name, e: Entry)
    requires Inv(s) && HasHead(s, lock) && IsSlot(s, e) && At(s, e).lock == lock && Before(e, s.queues[lock][0])
    ensures At(s, e).done
  {
    assert Queued(s, e) && QueueOk(s, lock);
  }

  lemma {:induction false} FiredCountSame(a: seq<Slot>, b: seq<Slot>)
    requires |a| == |b| && forall i :: 0 <= i < |a| ==> a[i].fired == b[i].fired
    ensures FiredCount(a) == FiredCount(b)
  {
    if a != [] {
      FiredCountSame(a[..|a| - 1], b[..|b| - 1]);
    }
  }

  lemma {:induction false} FiredCountUp(a: seq<Slot>, k: nat, slot: Slot)
    requires k < |a| && !a[k].fired && slot.fired
    ensures FiredCount(a[k := slot]) == FiredCount(a) + 1
  {
    var n := |a| - 1;
    if k < n {
      assert a[k := slot][..n] == a[..n][k := slot];
      FiredCountUp(a[..n], k, slot);
    } else {
      assert a[k := slot][..n] == a[..n];
    }
  }

  lemma ActivateJobOk(job: Job, k: nat)
    requires JobOk(job) && k < |job.slots|
    ensures JobOk(job.(slots := job.slots[k := job.slots[k].(resolved := true)]))
  {
    FiredCountSame(job.slots, job.slots[k := job.slots[k].(resolved := true)]);
  }

  lemma ActivateKeeps(s: State, lock: Name)
    requires Inv(s) && Enabled(s, Activate(lock))
    ensures Inv(Next(s, Activate(lock)))
  {
    var s', h := Next(s, Activate(lock)), s.queues[lock][0];
    assert QueueOk(s, lock);
    ActivateJobOk(s.jobs[h.job], h.slot);
    forall l ensures QueueOk(s', l) { assert QueueOk(s, l); }
    forall e ensures Queued(s', e) { assert Queued(s, e); }
    forall e, f ensures InTurn(s', e, f) {
      assert InTurn(s, e, f);
      if f == h && IsSlot(s, e) && At(s, e).lock == lock && Before(e, h) { HeadIsInTurn(s, lock, e); }
    }
  }

  lemma FireJobOk(job: Job, k: nat)
    requires JobOk(job) && k < |job.slots| && job.slots[k].resolved && !job.slots[k].fired && AllResolved(job)
    ensures JobOk(RunTaskWithMemoization(job.(slots := job.slots[k := job.slots[k].(fired := true)])))
  {
    FiredCountUp(job.slots, k, job.slots[k].(fired := true));
    assert !job.slots[k].done;
  }

  lemma FireKeeps(s: State, e: Entry)
    requires Inv(s) && Enabled(s, Fire(e))
    ensures Inv(Next(s, Fire(e)))
  {
    var s' := Next(s, Fire(e));
    FireJobOk(s.jobs[e.job], e.slot);
    forall l ensures QueueOk(s', l) { assert QueueOk(s, l); }
    forall d ensures Queued(s', d) { assert Queued(s, d); }
    forall d, f ensures InTurn(s', d, f) { assert InTurn(s, d, f); }
  }

  lemma JobOnlyKeeps(s: State, j: nat, job: Job)
    requires Inv(s) && j < |s.jobs| && job.slots == s.jobs[j].slots && JobOk(job)
    ensures Inv(s.(jobs := s.jobs[j := job]))
  {
    var s' := s.(jobs := s.jobs[j := job]);
    forall l ensures QueueOk(s', l) { assert QueueOk(s, l); }
    forall d ensures Queued(s', d) { assert Queued(s, d); }
    forall d, f ensures InTurn(s', d, f) { assert InTurn(s, d, f); }
  }

  lemma DequeueJobOk(job: Job, k: nat)
    requires JobOk(job) && k < |job.slots| && job.slots[k].fired && job.settled
    ensures JobOk(job.(slots := job.slots[k := job.slots[k].(done := true)]))
  {
    FiredCountSame(job.slots, job.slots[k := job.slots[k].(done := true)]);
  }

  lemma DequeueKeeps(s: State, lock: Name)
    requires Inv(s) && Enabled(s, Dequeue(lock))
    ensures Inv(Next(s, Dequeue(lock)))
  {
    var s', h, q := Next(s, Dequeue(lock)), s.queues[lock][0], s.queues[lock];
    assert QueueOk(s, lock);
    DequeueJobOk(s.jobs[h.job], h.slot);
    forall l ensures QueueOk(s', l) {
      assert QueueOk(s, l);
      if l == lock { RestOk(s, s', lock); }
    }
    forall e ensures Queued(s', e) {
      assert Queued(s, e);
      if e != h && IsSlot(s, e) && At(s, e).lock == lock && e in q { assert e in q[1..]; }
    }
    forall e, f ensures InTurn(s', e, f) { assert InTurn(s, e, f); }
  }

  lemma RestOk(s: State, s': State, lock: Name)
    requires Inv(s) && Enabled(s, Dequeue(lock)) && s' == Next(s, Dequeue(lock))
    ensures QueueOk(s', lock)
  {
    var q, h := s.queues[lock], s.queues[lock][0];
    assert QueueOk(s, lock);
    forall i | 0 <= i < |q[1..]| ensures IsSlot(s', q[1..][i]) && At(s', q[1..][i]).lock == lock && !At(s', q[1..][i]).done {
      assert Before(h, q[i + 1]);
      assert IsSlot(s, q[i + 1]);
    }
  }

  lemma ReturnJobOk(job: Job)
    requires JobOk(job) && !job.returned && AllDone(job) && (job.slots == [] ==> job.settled)
    ensures JobOk((if job.slots == [] then job else RunTaskWithMemoization(job)).(returned := true))
  {
    if job.slots != [] {
      assert job.slots[0].done;
    }
  }

  lemma NextKeeps(s: State, step: Step)
    requires Inv(s) && Enabled(s, step)
    ensures Inv(Next(s, step))
  {
    match step
    case Submit(locks, thenable) => SubmitKeeps(s, locks, thenable);
    case Activate(lock) => ActivateKeeps(s, lock);
    case Fire(e) => FireKeeps(s, e);
    case Settle(j) => JobOnlyKeeps(s, j, s.jobs[j].(settled := true));
    case Dequeue(lock) => DequeueKeeps(s, lock);
    case Return(j) =>
      ReturnJobOk(s.jobs[j]);
      JobOnlyKeeps(s, j, (if s.jobs[j].slots == [] then s.jobs[j] else RunTaskWithMemoization(s.jobs[j])).(returned := true));
  }

  lemma {:induction false} AlwaysInv(s: State, steps: seq<Step>, t: State)
    requires Inv(s) && Reaches(s, steps, t)
    ensures Inv(t)
    decreases |steps|
  {
    if steps != [] {
      NextKeeps(s, steps[0]);
      AlwaysInv(Next(s, steps[0]), steps[1..], t);
    }
  }

  lemma EmptyInv()
    ensures Inv(EMPTY)
  {
  }

  // ---- Mutual exclusion, order, and exactly once ----------------------------------------------

  predicate ShareALock(a: Job, b: Job) {
    exists i, k :: 0 <= i < |a.slots| && 0 <= k < |b.slots| && a.slots[i].lock == b.slots[k].lock
  }

  lemma InOrder(s: State, j: nat, k: nat)
    requires Inv(s) && j < k < |s.jobs| && ShareALock(s.jobs[j], s.jobs[k]) && s.jobs[k].starts > 0
    ensures s.jobs[j].settled && s.jobs[j].starts > 0 && AllResolved(s.jobs[j])
    ensures s.jobs[j].thenable ==> s.jobs[j].starts == 1 && s.jobs[j].memo
  {
    var a, b :| 0 <= a < |s.jobs[j].slots| && 0 <= b < |s.jobs[k].slots| && s.jobs[j].slots[a].lock == s.jobs[k].slots[b].lock;
    assert InTurn(s, Entry(j, a), Entry(k, b));
    assert JobOk(s.jobs[j]) && JobOk(s.jobs[k]);
  }

  /**
   In every interleaving, of two tasks that share a lock the later one starts only after the earlier
   one has settled, and has run exactly once if calling it gives a promise.
   */
  lemma ConflictingTasksRunInOrder(steps: seq<Step>, s: State, j: nat, k: nat)
    requires Reaches(EMPTY, steps, s) && j < k < |s.jobs| && ShareALock(s.jobs[j], s.jobs[k])
    ensures s.jobs[k].starts > 0 ==> s.jobs[j].settled && s.jobs[j].starts > 0 && (s.jobs[j].thenable ==> s.jobs[j].starts == 1)
  {
    EmptyInv();
    AlwaysInv(EMPTY, steps, s);
    if s.jobs[k].starts > 0 { InOrder(s, j, k); }
  }

  /**
   Once the later task has started, a step starts the earlier one again if and only if calling the
   earlier one gives no promise and the step is one of its own: the callback of an entry that has not
   fired yet, or the call on behalf of its submitter.
   */
  lemma EarlierStartsAgainIff(s: State, step: Step, j: nat, k: nat)
    requires Inv(s) && j < k < |s.jobs| && ShareALock(s.jobs[j], s.jobs[k]) && s.jobs[k].starts > 0 && Enabled(s, step)
    ensures |Next(s, step).jobs| >= |s.jobs|
    ensures Next(s, step).jobs[j].starts != s.jobs[j].starts
            <==> !s.jobs[j].thenable && (step == Return(j) || (step.Fire? && step.e.job == j))
  {
    InOrder(s, j, k);
    assert JobOk(s.jobs[j]);
  }

  lemma NextKeepsShape(s: State, step: Step, j: nat)
    requires Enabled(s, step) && j < |s.jobs|
    ensures j < |Next(s, step).jobs| && SameShape(s.jobs[j], Next(s, step).jobs[j])
    ensures Next(s, step).jobs[j].starts >= s.jobs[j].starts
  {
  }

  predicate SameShape(a: Job, b: Job) {
    |b.slots| == |a.slots| && b.thenable == a.thenable && forall i :: 0 <= i < |a.slots| ==> b.slots[i].lock == a.slots[i].lock
  }

  lemma SharingIsKept(s: State, step: Step, j: nat, k: nat)
    requires Enabled(s, step) && j < |s.jobs| && k < |s.jobs| && ShareALock(s.jobs[j], s.jobs[k])
    ensures j < |Next(s, step).jobs| && k < |Next(s, step).jobs| && ShareALock(Next(s, step).jobs[j], Next(s, step).jobs[k])
  {
    NextKeepsShape(s, step, j);
    NextKeepsShape(s, step, k);
    var a, b :| 0 <= a < |s.jobs[j].slots| && 0 <= b < |s.jobs[k].slots| && s.jobs[j].slots[a].lock == s.jobs[k].slots[b].lock;
    assert Next(s, step).jobs[j].slots[a].lock == Next(s, step).jobs[k].slots[b].lock;
  }

  /**
   Mutual exclusion for tasks that give promises: from the moment the later task has started, whatever
   happens next, the earlier one is settled and never starts again.
   */
  lemma {:induction false} PromisedTasksNeverOverlap(s: State, steps: seq<Step>, t: State, j: nat, k: nat)
    requires Inv(s) && Reaches(s, steps, t) && j < k < |s.jobs| && ShareALock(s.jobs[j], s.jobs[k])
    requires s.jobs[k].starts > 0 && s.jobs[j].thenable
    ensures j < |t.jobs| && t.jobs[j].settled && t.jobs[j].starts == 1
    decreases |steps|
  {
    if steps == [] {
      InOrder(s, j, k);
    } else {
      NextKeeps(s, steps[0]);
      SharingIsKept(s, steps[0], j, k);
      NextKeepsShape(s, steps[0], j);
      NextKeepsShape(s, steps[0], k);
      PromisedTasksNeverOverlap(Next(s, steps[0]), steps[1..], t, j, k);
    }
  }

  /** The body starts only while the task's entries are at the head of every queue they are in. */
  lemma StartsAtEveryHead(steps: seq<Step>, s: State, e: Entry, i: nat)
    requires Reaches(EMPTY, steps, s) && Enabled(s, Fire(e)) && s.jobs[e.job].starts == 0 && i < |s.jobs[e.job].slots|
    ensures var lock := s.jobs[e.job].slots[i].lock;
            lock in s.queues && s.queues[lock] != [] && s.queues[lock][0] == Entry(e.job, i)
  {
    EmptyInv();
    AlwaysInv(EMPTY, steps, s);
    ResolvedIsHead(s, Entry(e.job, i));
  }

  lemma ResolvedIsHead(s: State, e: Entry)
    requires Inv(s) && IsSlot(s, e) && At(s, e).resolved && !At(s, e).done
    ensures var lock := At(s, e).lock; lock in s.queues && s.queues[lock] != [] && s.queues[lock][0] == e
  {
    var lock := At(s, e).lock;
    assert Queued(s, e) && QueueOk(s, lock);
    var q := s.queues[lock];
    var n :| 0 <= n < |q| && q[n] == e;
    assert n > 0 ==> Before(q[0], e);
    assert InTurn(s, q[0], e);
  }

  lemma {:induction false} AllFired(slots: seq<Slot>)
    requires forall i :: 0 <= i < |slots| ==> slots[i].fired
    ensures FiredCount(slots) == |slots|
  {
    if slots != [] {
      AllFired(slots[..|slots| - 1]);
    }
  }

  /**
   A task that holds locks has run exactly once when it returns if and only if calling it gives a
   promise; a task that gives nothing to memoise is called again by every queue and once more at the end.
   */
  lemma ExactlyOnceIff(steps: seq<Step>, s: State, j: nat)
    requires Reaches(EMPTY, steps, s) && j < |s.jobs| && s.jobs[j].returned && s.jobs[j].slots != []
    ensures s.jobs[j].starts == 1 <==> s.jobs[j].thenable
    ensures !s.jobs[j].thenable ==> s.jobs[j].starts == |s.jobs[j].slots| + 1
  {
    EmptyInv();
    AlwaysInv(EMPTY, steps, s);
    var job := s.jobs[j];
    assert JobOk(job) && job.slots[0].done;
    if !job.thenable {
      AllFired(job.slots);
    }
  }

  // ---- Deadlock freedom -----------------------------------------------------------------------

  predicate DuplicateFree(job: Job) {
    forall i, k :: 0 <= i < k < |job.slots| ==> job.slots[i].lock != job.slots[k].lock
  }

  ghost predicate CanStep(s: State) {
    exists step: Step :: !step.Submit? && Enabled(s, step)
  }

  lemma Steps(s: State, step: Step)
    requires !step.Submit? && Enabled(s, step)
    ensures CanStep(s)
  {
  }

  /** The oldest job with an unfinished entry heads every queue it still sits in. */
  lemma OldestHeadsItsQueues(s: State, j: nat, i: nat)
    requires Inv(s) && j < |s.jobs| && DuplicateFree(s.jobs[j]) && i < |s.jobs[j].slots| && !s.jobs[j].slots[i].done
    requires forall k :: 0 <= k < j ==> AllDone(s.jobs[k])
    ensures var lock := s.jobs[j].slots[i].lock; HasHead(s, lock) && s.queues[lock][0] == Entry(j, i)
  {
    var lock := s.jobs[j].slots[i].lock;
    assert Queued(s, Entry(j, i)) && QueueOk(s, lock);
    var q := s.queues[lock];
    var n :| 0 <= n < |q| && q[n] == Entry(j, i);
    assert IsSlot(s, q[0]) && !At(s, q[0]).done && At(s, q[0]).lock == lock;
    assert n > 0 ==> Before(q[0], q[n]);
  }

  lemma OldestMoves(s: State, j: nat)
    requires Inv(s) && j < |s.jobs| && DuplicateFree(s.jobs[j]) && !AllDone(s.jobs[j])
    requires forall k :: 0 <= k < j ==> AllDone(s.jobs[k])
    ensures CanStep(s)
  {
    var job := s.jobs[j];
    assert JobOk(job);
    if i :| 0 <= i < |job.slots| && !job.slots[i].resolved {
      OldestHeadsItsQueues(s, j, i);
      Steps(s, Activate(job.slots[i].lock));
    } else if i :| 0 <= i < |job.slots| && !job.slots[i].fired {
      Steps(s, Fire(Entry(j, i)));
    } else if !job.settled {
      Steps(s, Settle(j));
    } else {
      var i :| 0 <= i < |job.slots| && !job.slots[i].done;
      OldestHeadsItsQueues(s, j, i);
      Steps(s, Dequeue(job.slots[i].lock));
    }
  }

  lemma {:induction false} OldestUnfinished(s: State, n: nat) returns (j: nat)
    requires n <= |s.jobs|
    ensures j <= n && (forall k :: 0 <= k < j ==> AllDone(s.jobs[k])) && (j < n ==> !AllDone(s.jobs[j]))
  {
    if n == 0 {
      j := 0;
    } else {
      j := OldestUnfinished(s, n - 1);
      if j == n - 1 && AllDone(s.jobs[j]) { j := n; }
    }
  }

  /** Without repeated lock names, as long as some task has not returned something can happen. */
  lemma Progress(s: State)
    requires Inv(s) && forall j :: 0 <= j < |s.jobs| ==> DuplicateFree(s.jobs[j])
    ensures CanStep(s) || forall j :: 0 <= j < |s.jobs| ==> s.jobs[j].returned
  {
    var j := OldestUnfinished(s, |s.jobs|);
    if j < |s.jobs| {
      OldestMoves(s, j);
    } else if k :| 0 <= k < |s.jobs| && !s.jobs[k].returned {
      assert JobOk(s.jobs[k]) && AllDone(s.jobs[k]);
      if s.jobs[k].slots == [] && !s.jobs[k].settled {
        Steps(s, Settle(k));
      } else {
        Steps(s, Return(k));
      }
    }
  }

  function SlotWork(slot: Slot): nat {
    (if slot.resolved then 0 else 1) + (if slot.fired then 0 else 1) + (if slot.done then 0 else 1)
  }

  function SlotsWork(slots: seq<Slot>): nat {
    if slots == [] then 0 else SlotsWork(slots[..|slots| - 1]) + SlotWork(slots[|slots| - 1])
  }

  function JobWork(job: Job): nat {
    SlotsWork(job.slots) + (if job.settled then 0 else 1) + (if job.returned then 0 else 1)
  }

  /** What is left to happen: three steps for each queued entry, and two for each task. */
  function Work(jobs: seq<Job>): nat {
    if jobs == [] then 0 else Work(jobs[..|jobs| - 1]) + JobWork(jobs[|jobs| - 1])
  }

  lemma {:induction false} SlotsWorkUpdate(slots: seq<Slot>, i: nat, slot: Slot)
    requires i < |slots|
    ensures SlotsWork(slots[i := slot]) == SlotsWork(slots) - SlotWork(slots[i]) + SlotWork(slot)
  {
    var n := |slots| - 1;
    if i < n {
      assert slots[i := slot][..n] == slots[..n][i := slot];
      SlotsWorkUpdate(slots[..n], i, slot);
    } else {
      assert slots[i := slot][..n] == slots[..n];
    }
  }

  lemma {:induction false} WorkUpdate(jobs: seq<Job>, i: nat, job: Job)
    requires i < |jobs|
    ensures Work(jobs[i := job]) == Work(jobs) - JobWork(jobs[i]) + JobWork(job)
  {
    var n := |jobs| - 1;
    if i < n {
      assert jobs[i := job][..n] == jobs[..n][i := job];
      WorkUpdate(jobs[..n], i, job);
    } else {
      assert jobs[i := job][..n] == jobs[..n];
    }
  }

  lemma SlotShrinks(s: State, e: Entry, slot: Slot)
    requires IsSlot(s, e) && SlotWork(slot) < SlotWork(At(s, e))
    ensures Work(SetSlot(s, e, slot).jobs) < Work(s.jobs)
  {
    SlotsWorkUpdate(s.jobs[e.job].slots, e.slot, slot);
    WorkUpdate(s.jobs, e.job, s.jobs[e.job].(slots := s.jobs[e.job].slots[e.slot := slot]));
  }

  lemma WorkShrinks(s: State, step: Step)
    requires Inv(s) && !step.Submit? && Enabled(s, step)
    ensures Work(Next(s, step).jobs) < Work(s.jobs)
  {
    match step
    case Activate(lock) => SlotShrinks(s, s.queues[lock][0], At(s, s.queues[lock][0]).(resolved := true));
    case Fire(e) =>
      var s1 := SetSlot(s, e, At(s, e).(fired := true));
      SlotShrinks(s, e, At(s, e).(fired := true));
      WorkUpdate(s1.jobs, e.job, RunTaskWithMemoization(s1.jobs[e.job]));
    case Settle(j) => WorkUpdate(s.jobs, j, s.jobs[j].(settled := true));
    case Dequeue(lock) =>
      assert QueueOk(s, lock);
      SlotShrinks(s, s.queues[lock][0], At(s, s.queues[lock][0]).(done := true));
    case Return(j) => WorkUpdate(s.jobs, j, Next(s, step).jobs[j]);
  }

  lemma NextKeepsLocks(s: State, step: Step)
    requires Inv(s) && !step.Submit? && Enabled(s, step)
    requires forall j :: 0 <= j < |s.jobs| ==> DuplicateFree(s.jobs[j])
    ensures forall j :: 0 <= j < |Next(s, step).jobs| ==> DuplicateFree(Next(s, step).jobs[j])
  {
    var t := Next(s, step);
    assert |t.jobs| == |s.jobs|;
    forall j | 0 <= j < |t.jobs| ensures DuplicateFree(t.jobs[j]) {
      assert DuplicateFree(s.jobs[j]);
      assert |t.jobs[j].slots| == |s.jobs[j].slots|;
      assert forall i :: 0 <= i < |s.jobs[j].slots| ==> t.jobs[j].slots[i].lock == s.jobs[j].slots[i].lock;
    }
  }

  /**
   Without repeated lock names, and whatever the order in which each task lists its locks, every run
   drains: no run is longer than the work left, and a run that cannot go on has returned every task.
   */
  lemma {:induction false} EveryRunDrains(s: State, steps: seq<Step>, t: State)
    requires Inv(s) && Reaches(s, steps, t) && forall step :: step in steps ==> !step.Submit?
    requires forall j :: 0 <= j < |s.jobs| ==> DuplicateFree(s.jobs[j])
    ensures |steps| + Work(t.jobs) <= Work(s.jobs)
    ensures !CanStep(t) ==> forall j :: 0 <= j < |t.jobs| ==> t.jobs[j].returned
    decreases |steps|
  {
    if steps == [] {
      Progress(s);
    } else {
      NextKeeps(s, steps[0]);
      NextKeepsLocks(s, steps[0]);
      WorkShrinks(s, steps[0]);
      EveryRunDrains(Next(s, steps[0]), steps[1..], t);
    }
  }

  /** A job that lists a lock twice waits behind itself. */
  ghost predicate Blocked(s: State, e: Entry, f: Entry) {
    && IsSlot(s, e) && IsSlot(s, f) && e.job == f.job && e.slot < f.slot
    && At(s, e).lock == At(s, f).lock && !At(s, f).resolved
  }

  lemma BlockedStays(s: State, step: Step, e: Entry, f: Entry)
    requires Inv(s) && Enabled(s, step) && Blocked(s, e, f)
    ensures Blocked(Next(s, step), e, f)
  {
    assert JobOk(s.jobs[e.job]);
    if step.Activate? && s.queues[step.lock][0] == f {
      assert QueueOk(s, step.lock);
      HeadIsInTurn(s, step.lock, e);
    }
  }

  predicate Repeats(s: State, e: Entry, f: Entry) {
    IsSlot(s, e) && IsSlot(s, f) && e.job == f.job && e.slot < f.slot && At(s, e).lock == At(s, f).lock
  }

  ghost predicate RepeatsBlocked(s: State) {
    forall e, f :: Repeats(s, e, f) ==> Blocked(s, e, f)
  }

  lemma NextKeepsBlocked(s: State, step: Step)
    requires Inv(s) && Enabled(s, step) && RepeatsBlocked(s)
    ensures RepeatsBlocked(Next(s, step))
  {
    var t := Next(s, step);
    forall e, f | Repeats(t, e, f) ensures Blocked(t, e, f) {
      if e.job < |s.jobs| {
        assert Repeats(s, e, f);
        BlockedStays(s, step, e, f);
      }
    }
  }

  /** A task that lists a lock twice waits behind itself: in no run does it start or return. */
  lemma {:induction false} RepeatedLockDeadlocks(s: State, steps: seq<Step>, t: State)
    requires Inv(s) && RepeatsBlocked(s) && Reaches(s, steps, t)
    ensures forall j :: 0 <= j < |t.jobs| && !DuplicateFree(t.jobs[j]) ==> t.jobs[j].starts == 0 && !t.jobs[j].returned
    decreases |steps|
  {
    if steps == [] {
      forall j | 0 <= j < |t.jobs| && !DuplicateFree(t.jobs[j]) ensures t.jobs[j].starts == 0 && !t.jobs[j].returned {
        var job := t.jobs[j];
        var i, k :| 0 <= i < k < |job.slots| && job.slots[i].lock == job.slots[k].lock;
        assert Repeats(t, Entry(j, i), Entry(j, k));
        assert JobOk(job) && !job.slots[k].resolved;
      }
    } else {
      NextKeepsBlocked(s, steps[0]);
      NextKeeps(s, steps[0]);
      RepeatedLockDeadlocks(Next(s, steps[0]), steps[1..], t);
    }
  }

  /** A run that cannot go on has returned every task exactly when no task listed a lock twice. */
  lemma DrainedIffNoRepeats(steps: seq<Step>, s: State)
    requires Reaches(EMPTY, steps, s) && !CanStep(s)
    ensures (forall j :: 0 <= j < |s.jobs| ==> s.jobs[j].returned)
            <==> forall j :: 0 <= j < |s.jobs| ==> DuplicateFree(s.jobs[j])
  {
    EmptyInv();
    AlwaysInv(EMPTY, steps, s);
    RepeatedLockDeadlocks(EMPTY, steps, s);
    if forall j :: 0 <= j < |s.jobs| ==> DuplicateFree(s.jobs[j]) {
      Progress(s);
    }
  }

  // ---- Starting an idle queue inside `add` ----------------------------------------------------

  /** The queue of the i-th lock has nothing in it when the i-th entry is added. */
  predicate Idle(queues: map<Name, seq<Entry>>, job: nat, locks: seq<Name>, i: nat)
    requires i < |locks| && forall n :: 0 <= n < |locks| ==> locks[n] in queues
  {
    Enqueued(queues, job, locks, i)[locks[i]] == []
  }

  /** The submitted job when the first `n` entries have been added, each started at once if its queue was idle. */
  function StartedJob(queues: map<Name, seq<Entry>>, job: nat, locks: seq<Name>, thenable: bool, n: nat): (r: Job)
    requires n <= |locks| && forall i :: 0 <= i < |locks| ==> locks[i] in queues
    ensures |r.slots| == |locks|
  {
    NewJob(locks, thenable).(
      slots := seq(|locks|, i requires 0 <= i < |locks| => Slot(locks[i], i < n && Idle(queues, job, locks, i), false, false)))
  }

  function SubmittedAndStarted(s: State, locks: seq<Name>, thenable: bool): State {
    StartedUpTo(s, locks, thenable, |locks|)
  }

  /** An entry added to an idle queue stays at its head while the other entries are added. */
  lemma {:induction false} StaysHead(queues: map<Name, seq<Entry>>, job: nat, locks: seq<Name>, i: nat, n: nat)
    requires i < n <= |locks| && (forall k :: 0 <= k < |locks| ==> locks[k] in queues) && Idle(queues, job, locks, i)
    ensures var q := Enqueued(queues, job, locks, n)[locks[i]]; q != [] && q[0] == Entry(job, i)
  {
    if n > i + 1 {
      StaysHead(queues, job, locks, i, n - 1);
    }
  }

  lemma {:induction false} ReachesMore(s: State, steps: seq<Step>, t: State, step: Step)
    requires Reaches(s, steps, t) && Enabled(t, step)
    ensures Reaches(s, steps + [step], Next(t, step))
    decreases |steps|
  {
    if steps == [] {
      assert [] + [step] == [step] && [step][1..] == [];
    } else {
      assert (steps + [step])[1..] == steps[1..] + [step];
      ReachesMore(Next(s, steps[0]), steps[1..], t, step);
    }
  }

  function StartedUpTo(s: State, locks: seq<Name>, thenable: bool, n: nat): State
    requires n <= |locks|
  {
    var queues := WithQueues(s.queues, locks, |locks|);
    State(Enqueued(queues, |s.jobs|, locks, |locks|), s.jobs + [StartedJob(queues, |s.jobs|, locks, thenable, n)])
  }

  lemma StartedOneMore(queues: map<Name, seq<Entry>>, job: nat, locks: seq<Name>, thenable: bool, n: nat)
    requires n < |locks| && forall i :: 0 <= i < |locks| ==> locks[i] in queues
    ensures var r := StartedJob(queues, job, locks, thenable, n);
            StartedJob(queues, job, locks, thenable, n + 1)
            == if Idle(queues, job, locks, n) then r.(slots := r.slots[n := r.slots[n].(resolved := true)]) else r
  {
    var r := StartedJob(queues, job, locks, thenable, n);
    var slots := if Idle(queues, job, locks, n) then r.slots[n := r.slots[n].(resolved := true)] else r.slots;
    assert StartedJob(queues, job, locks, thenable, n + 1).slots == slots;
  }

  lemma StartedNone(queues: map<Name, seq<Entry>>, job: nat, locks: seq<Name>, thenable: bool)
    requires forall i :: 0 <= i < |locks| ==> locks[i] in queues
    ensures StartedJob(queues, job, locks, thenable, 0) == NewJob(locks, thenable)
  {
    assert StartedJob(queues, job, locks, thenable, 0).slots == NewJob(locks, thenable).slots;
  }

  lemma ResolveInLast(s: State, jobs: seq<Job>, job: Job, n: nat)
    requires s.jobs == jobs + [job] && n < |job.slots|
    ensures SetSlot(s, Entry(|jobs|, n), At(s, Entry(|jobs|, n)).(resolved := true))
         == s.(jobs := jobs + [job.(slots := job.slots[n := job.slots[n].(resolved := true)])])
  {
  }

  /** `Queue.add`: an idle queue runs the entry at once. */
  function Added(s: State, lock: Name, e: Entry): State
    requires lock in s.queues && IsSlot(s, e)
  {
    var t := s.(queues := s.queues[lock := s.queues[lock] + [e]]);
    if s.queues[lock] == [] then SetSlot(t, e, At(t, e).(resolved := true)) else t
  }

  /** The state when the first `n` entries have been added. */
  function AddedUpTo(queues: map<Name, seq<Entry>>, jobs: seq<Job>, locks: seq<Name>, thenable: bool, n: nat): State
    requires n <= |locks| && forall i :: 0 <= i < |locks| ==> locks[i] in queues
  {
    State(Enqueued(queues, |jobs|, locks, n), jobs + [StartedJob(queues, |jobs|, locks, thenable, n)])
  }

  lemma AddedOneMore(queues: map<Name, seq<Entry>>, jobs: seq<Job>, locks: seq<Name>, thenable: bool, n: nat)
    requires n < |locks| && forall i :: 0 <= i < |locks| ==> locks[i] in queues
    ensures var s := AddedUpTo(queues, jobs, locks, thenable, n);
            && locks[n] in s.queues && IsSlot(s, Entry(|jobs|, n))
            && Added(s, locks[n], Entry(|jobs|, n)) == AddedUpTo(queues, jobs, locks, thenable, n + 1)
  {
    var s := AddedUpTo(queues, jobs, locks, thenable, n);
    StartedOneMore(queues, |jobs|, locks, thenable, n);
    ResolveInLast(s.(queues := s.queues[locks[n] := s.queues[locks[n]] + [Entry(|jobs|, n)]]),
                  jobs, StartedJob(queues, |jobs|, locks, thenable, n), n);
  }

  lemma StartsNext(s: State, locks: seq<Name>, thenable: bool, n: nat)
    requires n < |locks| && Idle(WithQueues(s.queues, locks, |locks|), |s.jobs|, locks, n)
    ensures var t := StartedUpTo(s, locks, thenable, n);
            Enabled(t, Activate(locks[n])) && Next(t, Activate(locks[n])) == StartedUpTo(s, locks, thenable, n + 1)
  {
    var queues, t := WithQueues(s.queues, locks, |locks|), StartedUpTo(s, locks, thenable, n);
    var job := StartedJob(queues, |s.jobs|, locks, thenable, n);
    StaysHead(queues, |s.jobs|, locks, n, |locks|);
    StartedOneMore(queues, |s.jobs|, locks, thenable, n);
    ResolveInLast(t, s.jobs, job, n);
    assert t.queues[locks[n]][0] == Entry(|s.jobs|, n) && !job.slots[n].resolved;
  }

  lemma SubmitReaches(s: State, locks: seq<Name>, thenable: bool)
    ensures Reaches(s, [Submit(locks, thenable)], StartedUpTo(s, locks, thenable, 0))
  {
    StartedNone(WithQueues(s.queues, locks, |locks|), |s.jobs|, locks, thenable);
    assert [Submit(locks, thenable)][1..] == [];
  }

  /** The entry for one more lock is started, or was behind another. */
  lemma OneMoreStarted(s: State, locks: seq<Name>, thenable: bool, n: nat, before: seq<Step>) returns (steps: seq<Step>)
    requires n < |locks| && Reaches(s, before, StartedUpTo(s, locks, thenable, n))
    ensures Reaches(s, steps, StartedUpTo(s, locks, thenable, n + 1))
    ensures steps == before || steps == before + [Activate(locks[n])]
  {
    if Idle(WithQueues(s.queues, locks, |locks|), |s.jobs|, locks, n) {
      steps := before + [Activate(locks[n])];
      StartsNext(s, locks, thenable, n);
      ReachesMore(s, before, StartedUpTo(s, locks, thenable, n), Activate(locks[n]));
    } else {
      steps := before;
      StartedOneMore(WithQueues(s.queues, locks, |locks|), |s.jobs|, locks, thenable, n);
    }
  }

  /** Starting idle queues inside `add` commutes with adding: it leads where submitting first and starting them afterwards leads. */
  lemma {:induction false} StartingInsideAddCommutes(s: State, locks: seq<Name>, thenable: bool, n: nat) returns (steps: seq<Step>)
    requires n <= |locks|
    ensures Reaches(s, steps, StartedUpTo(s, locks, thenable, n))
    ensures |steps| > 0 && steps[0] == Submit(locks, thenable) && forall i :: 1 <= i < |steps| ==> steps[i].Activate?
  {
    if n == 0 {
      steps := [Submit(locks, thenable)];
      SubmitReaches(s, locks, thenable);
    } else {
      var before := StartingInsideAddCommutes(s, locks, thenable, n - 1);
      steps := OneMoreStarted(s, locks, thenable, n - 1, before);
    }
  }

  /** Of a submitted task's entries, exactly those whose queue was empty and that no earlier entry of the task entered are started at once. */
  lemma IdleQueuesStartAtOnce(s: State, locks: seq<Name>, thenable: bool, i: nat)
    requires i < |locks|
    ensures SubmittedAndStarted(s, locks, thenable).jobs[|s.jobs|].slots[i].resolved <==> QueueOf(s, locks[i]) == [] && locks[i] !in locks[..i]
  {
    var queues, lock := WithQueues(s.queues, locks, |locks|), locks[i];
    WithQueuesContents(s.queues, locks, |locks|, lock);
    EnqueuedContents(queues, |s.jobs|, locks, i, lock);
    NoEntriesIff(|s.jobs|, locks, i, lock);
  }

  lemma {:induction false} NoEntriesIff(job: nat, locks: seq<Name>, n: nat, lock: Name)
    requires n <= |locks|
    ensures EntriesFor(job, locks, n, lock) == [] <==> lock !in locks[..n]
  {
    if n > 0 {
      NoEntriesIff(job, locks, n - 1, lock);
      assert locks[..n] == locks[..n - 1] + [locks[n - 1]];
    }
  }

  // ---- The objects ----------------------------------------------------------------------------

  /** The queues by lock name, created on demand, and the state each submitted task closes over. */
  class ProcessQueue {
    var queues: map<Name, seq<Entry>>
    var jobs: seq<Job>

    ghost function View(): State
      reads this
    {
      State(queues, jobs)
    }

    constructor ()
      ensures View() == EMPTY
    {
      queues, jobs := map[], [];
    }

    method GetOrCreateLockQueue(lockName: Name)
      modifies this`queues
      ensures queues == WithQueue(old(queues), lockName)
    {
      if lockName !in queues {
        queues := queues[lockName := []];
      }
    }

    method AddTask(lockNames: seq<Name>, thenable: bool)
      modifies this
      ensures View() == SubmittedAndStarted(old(View()), lockNames, thenable)
    {
      for i := 0 to |lockNames|
        invariant queues == WithQueues(old(queues), lockNames, i) && jobs == old(jobs)
      {
        GetOrCreateLockQueue(lockNames[i]);
      }
      AddToManyQueues(lockNames, thenable);
    }

    /**
     The part that runs without interruption. An idle queue runs its new head at once, inside `add`, so
     the deferred of an entry can be resolved before the next entry is queued.
     */
    method AddToManyQueues(lockNames: seq<Name>, thenable: bool)
      requires forall i :: 0 <= i < |lockNames| ==> lockNames[i] in queues
      modifies this
      ensures View() == AddedUpTo(old(queues), old(jobs), lockNames, thenable, |lockNames|)
    {
      ghost var s := View();
      var id := |jobs|;
      StartedNone(queues, id, lockNames, thenable);
      jobs := jobs + [NewJob(lockNames, thenable)];
      assert View() == AddedUpTo(s.queues, s.jobs, lockNames, thenable, 0);
      for i := 0 to |lockNames|
        invariant View() == AddedUpTo(s.queues, s.jobs, lockNames, thenable, i)
      {
        AddedOneMore(s.queues, s.jobs, lockNames, thenable, i);
        Add(lockNames[i], Entry(id, i));
      }
    }

    method Add(lock: Name, e: Entry)
      requires lock in queues && IsSlot(View(), e)
      modifies this
      ensures View() == Added(old(View()), lock, e)
    {
      var idle := queues[lock] == [];
      queues := queues[lock := queues[lock] + [e]];
      if idle {
        ResolveDeferred(e);
      }
    }

    /** A queue runs its head: its deferred is resolved in place. */
    method RunHead(lock: Name)
      requires Enabled(View(), Activate(lock))
      modifies this`jobs
      ensures View() == Next(old(View()), Activate(lock))
    {
      var head := queues[lock][0];
      ResolveDeferred(head);
    }

    method ResolveDeferred(e: Entry)
      requires IsSlot(View(), e)
      modifies this`jobs
      ensures View() == SetSlot(old(View()), e, old(At(View(), e)).(resolved := true))
    {
      var job := jobs[e.job];
      jobs := jobs[e.job := job.(slots := job.slots[e.slot := job.slots[e.slot].(resolved := true)])];
    }

    /** The memoised call; the first one starts the task's body. */
    method RunMemoised(j: nat) returns (started: bool)
      requires j < |jobs|
      modifies this`jobs
      ensures jobs == old(jobs)[j := RunTaskWithMemoization(old(jobs)[j])]
      ensures started <==> !old(jobs)[j].memo
    {
      var job := jobs[j];
      started := false;
      if !job.memo {
        started := true;
        job := job.(starts := job.starts + 1);
        if job.thenable { job := job.(memo := true); } else { job := job.(settled := true); }
      }
      jobs := jobs[j := job];
    }

    method Rendezvous(e: Entry)
      requires Enabled(View(), Fire(e))
      modifies this`jobs
      ensures View() == Next(old(View()), Fire(e))
    {
      var job := jobs[e.job];
      jobs := jobs[e.job := job.(slots := job.slots[e.slot := job.slots[e.slot].(fired := true)])];
      var started := RunMemoised(e.job);
    }

    method MoveOn(lock: Name)
      requires Enabled(View(), Dequeue(lock))
      modifies this
      ensures View() == Next(old(View()), Dequeue(lock))
    {
      var head := queues[lock][0];
      var job := jobs[head.job];
      jobs := jobs[head.job := job.(slots := job.slots[head.slot := job.slots[head.slot].(done := true)])];
      queues := queues[lock := queues[lock][1..]];
    }

    /** The promise of a started task settles. */
    method SettleTask(j: nat)
      requires Enabled(View(), Settle(j))
      modifies this`jobs
      ensures View() == Next(old(View()), Settle(j))
    {
      jobs := jobs[j := jobs[j].(settled := true)];
    }

    /** All entries are finished: the submitter awaits the memoised call once more. */
    method ReturnToSubmitter(j: nat)
      requires Enabled(View(), Return(j))
      modifies this`jobs
      ensures View() == Next(old(View()), Return(j))
    {
      if jobs[j].slots != [] {
        var started := RunMemoised(j);
      }
      jobs := jobs[j := jobs[j].(returned := true)];
    }
  }
}
