/** Runs of the multi-lock queue in which it does not do what it is meant to do. */
module QueueWitnesses {
  import opened Queues

  /** The states a run goes through. */
  lemma {:induction false} Path(states: seq<State>, steps: seq<Step>)
    requires |states| == |steps| + 1
    requires forall i :: 0 <= i < |steps| ==> Enabled(states[i], steps[i]) && Next(states[i], steps[i]) == states[i + 1]
    ensures Reaches(states[0], steps, states[|steps|])
    decreases |steps|
  {
    if steps != [] {
      Path(states[1..], steps[1..]);
    }
  }

  predicate SameJob(a: Job, b: Job) {
    a == b.(slots := a.slots) && |a.slots| == |b.slots| && forall k :: 0 <= k < |a.slots| ==> a.slots[k] == b.slots[k]
  }

  /** States are equal when their queues and their jobs are, slot by slot. */
  lemma SameState(s: State, t: State)
    requires s.queues.Keys == t.queues.Keys && forall l :: l in s.queues ==> s.queues[l] == t.queues[l]
    requires |s.jobs| == |t.jobs| && forall i :: 0 <= i < |s.jobs| ==> SameJob(s.jobs[i], t.jobs[i])
    ensures s == t
  {
    assert s.queues == t.queues;
    forall i | 0 <= i < |s.jobs| ensures s.jobs[i] == t.jobs[i] {
      assert s.jobs[i].slots == t.jobs[i].slots;
    }
  }

  function OneLock(resolved: bool, fired: bool, done: bool): seq<Slot> {
    [Slot(0, resolved, fired, done)]
  }

  lemma SubmitOne(s: State, thenable: bool)
    requires s.queues.Keys <= {0}
    ensures Submitted(s, [0], thenable)
         == State(map[0 := QueueOf(s, 0) + [Entry(|s.jobs|, 0)]], s.jobs + [Job(OneLock(false, false, false), thenable, false, 0, false, false)])
  {
    var queues := WithQueues(s.queues, [0], 1);
    assert queues == WithQueue(WithQueues(s.queues, [0], 0), 0) == map[0 := QueueOf(s, 0)];
    var added := Enqueued(queues, |s.jobs|, [0], 1);
    assert Enqueued(queues, |s.jobs|, [0], 0) == queues;
    assert added == map[0 := QueueOf(s, 0) + [Entry(|s.jobs|, 0)]];
    assert NewSlots([0]) == OneLock(false, false, false);
  }

  // ---- One task without a promise -------------------------------------------------------------

  function Alone(q: seq<Entry>, slots: seq<Slot>, starts: nat, returned: bool): State {
    State(map[0 := q], [Job(slots, false, false, starts, starts > 0, returned)])
  }

  const ALONE: seq<Step> := [Submit([0], false), Activate(0), Fire(Entry(0, 0)), Dequeue(0), Return(0)]

  lemma AloneFirst()
    ensures Submitted(EMPTY, [0], false) == Alone([Entry(0, 0)], OneLock(false, false, false), 0, false)
    ensures var s := Alone([Entry(0, 0)], OneLock(false, false, false), 0, false);
            Enabled(s, Activate(0)) && Next(s, Activate(0)) == Alone([Entry(0, 0)], OneLock(true, false, false), 0, false)
    ensures var s := Alone([Entry(0, 0)], OneLock(true, false, false), 0, false);
            Enabled(s, Fire(Entry(0, 0))) && Next(s, Fire(Entry(0, 0))) == Alone([Entry(0, 0)], OneLock(true, true, false), 1, false)
  {
    var s1, s2 := Alone([Entry(0, 0)], OneLock(false, false, false), 0, false), Alone([Entry(0, 0)], OneLock(true, false, false), 0, false);
    SubmitOne(EMPTY, false);
    SameState(Submitted(EMPTY, [0], false), s1);
    SameState(Next(s1, Activate(0)), s2);
    SameState(Next(s2, Fire(Entry(0, 0))), Alone([Entry(0, 0)], OneLock(true, true, false), 1, false));
  }

  lemma AloneSecond()
    ensures var s := Alone([Entry(0, 0)], OneLock(true, true, false), 1, false);
            Enabled(s, Dequeue(0)) && Next(s, Dequeue(0)) == Alone([], OneLock(true, true, true), 1, false)
    ensures var s := Alone([], OneLock(true, true, true), 1, false);
            Enabled(s, Return(0)) && Next(s, Return(0)) == Alone([], OneLock(true, true, true), 2, true)
  {
    var s3, s4 := Alone([Entry(0, 0)], OneLock(true, true, false), 1, false), Alone([], OneLock(true, true, true), 1, false);
    SameState(Next(s3, Dequeue(0)), s4);
    SameState(Next(s4, Return(0)), Alone([], OneLock(true, true, true), 2, true));
  }

  /** A task with one lock that gives no promise: its body has run twice when it returns. */
  lemma NoPromiseRunsTwice()
    ensures Reaches(EMPTY, ALONE, Alone([], OneLock(true, true, true), 2, true))
  {
    AloneFirst();
    AloneSecond();
    Path([EMPTY, Alone([Entry(0, 0)], OneLock(false, false, false), 0, false),
          Alone([Entry(0, 0)], OneLock(true, false, false), 0, false),
          Alone([Entry(0, 0)], OneLock(true, true, false), 1, false),
          Alone([], OneLock(true, true, true), 1, false),
          Alone([], OneLock(true, true, true), 2, true)], ALONE);
  }

  // ---- Two tasks that share a lock ------------------------------------------------------------

  /** The first task gives no promise; the second one does. */
  function Both(q: seq<Entry>, first: seq<Slot>, starts: nat, returned: bool, second: seq<Slot>, started: bool): State {
    State(map[0 := q], [Job(first, false, false, starts, starts > 0, returned),
                        Job(second, true, started, if started then 1 else 0, false, false)])
  }

  /** Both are submitted, and the first has run and left the queue; the second starts. */
  const BEFORE: seq<Step> := [Submit([0], false), Submit([0], true), Activate(0), Fire(Entry(0, 0))]
  const THEN: seq<Step> := [Dequeue(0), Activate(0), Fire(Entry(1, 0))]

  lemma {:induction false} Join(s: State, a: seq<Step>, t: State, b: seq<Step>, u: State)
    requires Reaches(s, a, t) && Reaches(t, b, u)
    ensures Reaches(s, a + b, u)
    decreases |a|
  {
    if a == [] {
      assert a + b == b;
    } else {
      assert (a + b)[1..] == a[1..] + b;
      Join(Next(s, a[0]), a[1..], t, b, u);
    }
  }

  lemma OverlapStarts()
    ensures Submitted(EMPTY, [0], false) == Alone([Entry(0, 0)], OneLock(false, false, false), 0, false)
    ensures Submitted(Alone([Entry(0, 0)], OneLock(false, false, false), 0, false), [0], true)
         == Both([Entry(0, 0), Entry(1, 0)], OneLock(false, false, false), 0, false, OneLock(false, false, false), false)
  {
    var one, new0 := Alone([Entry(0, 0)], OneLock(false, false, false), 0, false), OneLock(false, false, false);
    SubmitOne(EMPTY, false);
    SameState(Submitted(EMPTY, [0], false), one);
    SubmitOne(one, true);
    SameState(Submitted(one, [0], true), Both([Entry(0, 0), Entry(1, 0)], new0, 0, false, new0, false));
  }

  lemma FirstTaskRuns()
    ensures Reaches(EMPTY, BEFORE, Both([Entry(0, 0), Entry(1, 0)], OneLock(true, true, false), 1, false, OneLock(false, false, false), false))
  {
    var new0, up, fired := OneLock(false, false, false), OneLock(true, false, false), OneLock(true, true, false);
    OverlapStarts();
    OverlapFirst();
    Path([EMPTY, Alone([Entry(0, 0)], new0, 0, false),
          Both([Entry(0, 0), Entry(1, 0)], new0, 0, false, new0, false),
          Both([Entry(0, 0), Entry(1, 0)], up, 0, false, new0, false),
          Both([Entry(0, 0), Entry(1, 0)], fired, 1, false, new0, false)], BEFORE);
  }

  lemma SecondTaskStarts()
    ensures Reaches(Both([Entry(0, 0), Entry(1, 0)], OneLock(true, true, false), 1, false, OneLock(false, false, false), false), THEN,
                    Both([Entry(1, 0)], OneLock(true, true, true), 1, false, OneLock(true, true, false), true))
  {
    var new0, up, fired, over := OneLock(false, false, false), OneLock(true, false, false), OneLock(true, true, false), OneLock(true, true, true);
    OverlapFirst();
    OverlapSecond();
    Path([Both([Entry(0, 0), Entry(1, 0)], fired, 1, false, new0, false),
          Both([Entry(1, 0)], over, 1, false, new0, false),
          Both([Entry(1, 0)], over, 1, false, up, false),
          Both([Entry(1, 0)], over, 1, false, fired, true)], THEN);
  }

  lemma FirstStartsAgain()
    ensures var s := Both([Entry(1, 0)], OneLock(true, true, true), 1, false, OneLock(true, true, false), true);
            && ShareALock(s.jobs[0], s.jobs[1]) && s.jobs[1].starts == 1 && !s.jobs[1].settled
            && Enabled(s, Return(0)) && Next(s, Return(0)).jobs[0].starts == 2 && Next(s, Return(0)).jobs[1] == s.jobs[1]
  {
    var s := Both([Entry(1, 0)], OneLock(true, true, true), 1, false, OneLock(true, true, false), true);
    assert s.jobs[0].slots[0].lock == s.jobs[1].slots[0].lock;
  }

  /**
   The body of the first task starts a second time, on behalf of its submitter, while the second task
   with the same lock has started and has not settled.
   */
  lemma NoPromiseOverlaps()
    ensures var s := Both([Entry(1, 0)], OneLock(true, true, true), 1, false, OneLock(true, true, false), true);
            && Reaches(EMPTY, BEFORE + THEN, s) && ShareALock(s.jobs[0], s.jobs[1])
            && s.jobs[1].starts == 1 && !s.jobs[1].settled
            && Enabled(s, Return(0)) && Next(s, Return(0)).jobs[0].starts == 2
            && Next(s, Return(0)).jobs[1] == s.jobs[1]
  {
    FirstTaskRuns();
    SecondTaskStarts();
    Join(EMPTY, BEFORE, Both([Entry(0, 0), Entry(1, 0)], OneLock(true, true, false), 1, false, OneLock(false, false, false), false), THEN,
         Both([Entry(1, 0)], OneLock(true, true, true), 1, false, OneLock(true, true, false), true));
    FirstStartsAgain();
  }

  lemma OverlapFirst()
    ensures var new0, up, fired, over := OneLock(false, false, false), OneLock(true, false, false), OneLock(true, true, false), OneLock(true, true, true);
            var q := [Entry(0, 0), Entry(1, 0)];
            && Enabled(Both(q, new0, 0, false, new0, false), Activate(0))
            && Next(Both(q, new0, 0, false, new0, false), Activate(0)) == Both(q, up, 0, false, new0, false)
            && Enabled(Both(q, up, 0, false, new0, false), Fire(Entry(0, 0)))
            && Next(Both(q, up, 0, false, new0, false), Fire(Entry(0, 0))) == Both(q, fired, 1, false, new0, false)
            && Enabled(Both(q, fired, 1, false, new0, false), Dequeue(0))
            && Next(Both(q, fired, 1, false, new0, false), Dequeue(0)) == Both([Entry(1, 0)], over, 1, false, new0, false)
  {
    var new0, up, fired, over := OneLock(false, false, false), OneLock(true, false, false), OneLock(true, true, false), OneLock(true, true, true);
    var q := [Entry(0, 0), Entry(1, 0)];
    SameState(Next(Both(q, new0, 0, false, new0, false), Activate(0)), Both(q, up, 0, false, new0, false));
    SameState(Next(Both(q, up, 0, false, new0, false), Fire(Entry(0, 0))), Both(q, fired, 1, false, new0, false));
    SameState(Next(Both(q, fired, 1, false, new0, false), Dequeue(0)), Both([Entry(1, 0)], over, 1, false, new0, false));
  }

  lemma OverlapSecond()
    ensures var new0, up, fired, over := OneLock(false, false, false), OneLock(true, false, false), OneLock(true, true, false), OneLock(true, true, true);
            && Enabled(Both([Entry(1, 0)], over, 1, false, new0, false), Activate(0))
            && Next(Both([Entry(1, 0)], over, 1, false, new0, false), Activate(0)) == Both([Entry(1, 0)], over, 1, false, up, false)
            && Enabled(Both([Entry(1, 0)], over, 1, false, up, false), Fire(Entry(1, 0)))
            && Next(Both([Entry(1, 0)], over, 1, false, up, false), Fire(Entry(1, 0))) == Both([Entry(1, 0)], over, 1, false, fired, true)
  {
    var new0, up, fired, over := OneLock(false, false, false), OneLock(true, false, false), OneLock(true, true, false), OneLock(true, true, true);
    SameState(Next(Both([Entry(1, 0)], over, 1, false, new0, false), Activate(0)), Both([Entry(1, 0)], over, 1, false, up, false));
    SameState(Next(Both([Entry(1, 0)], over, 1, false, up, false), Fire(Entry(1, 0))), Both([Entry(1, 0)], over, 1, false, fired, true));
  }

  // ---- A task that lists a lock twice ---------------------------------------------------------

  const STUCK: State := State(
    map[0 := [Entry(0, 0), Entry(0, 1)]],
    [Job([Slot(0, true, false, false), Slot(0, false, false, false)], true, false, 0, false, false)])

  lemma SubmitTwice()
    ensures Submitted(EMPTY, [0, 0], true)
         == State(map[0 := [Entry(0, 0), Entry(0, 1)]],
                  [Job([Slot(0, false, false, false), Slot(0, false, false, false)], true, false, 0, false, false)])
  {
    var locks := [0, 0];
    assert WithQueues(map[], locks, 0) == map[];
    assert WithQueues(map[], locks, 1) == map[0 := []];
    assert WithQueues(map[], locks, 2) == map[0 := []];
    var q: map<Name, seq<Entry>> := map[0 := []];
    var q1 := Enqueued(q, 0, locks, 1);
    assert Enqueued(q, 0, locks, 0) == q;
    assert q1[0] == [Entry(0, 0)];
    assert Enqueued(q, 0, locks, 2)[0] == [Entry(0, 0), Entry(0, 1)];
    SameState(Submitted(EMPTY, locks, true),
              State(map[0 := [Entry(0, 0), Entry(0, 1)]],
                    [Job([Slot(0, false, false, false), Slot(0, false, false, false)], true, false, 0, false, false)]));
  }

  /** One task with locks [0, 0]: after its first entry has started nothing can happen, and it has not run. */
  lemma RepeatedLockIsStuck()
    ensures Reaches(EMPTY, [Submit([0, 0], true), Activate(0)], STUCK) && !CanStep(STUCK)
    ensures STUCK.jobs[0].starts == 0 && !STUCK.jobs[0].returned
  {
    SubmitTwice();
    SameState(Next(Submitted(EMPTY, [0, 0], true), Activate(0)), STUCK);
    Path([EMPTY, Submitted(EMPTY, [0, 0], true), STUCK], [Submit([0, 0], true), Activate(0)]);
    NothingEnabled();
  }

  lemma NothingEnabled()
    ensures !CanStep(STUCK)
  {
    forall step: Step | !step.Submit? ensures !Enabled(STUCK, step) {
      assert !STUCK.jobs[0].slots[1].resolved && !STUCK.jobs[0].slots[0].done;
    }
  }
}
