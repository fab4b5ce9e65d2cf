/** What every run of a lock keeps, and what follows for its users. */
module LockRuns {
  import opened Wrappers
  import opened Tasks
  import opened Sequences
  import opened Waiters
  import opened LockState

  /** In a handler or in client code, the owner's `release()` meets no completed future. */
  lemma LiveIsPending(st: State, t: TaskId)
    requires OkBut(st, Some(t)) || (Ok(st) && t !in st.calls)
    requires st.owner == Some(t) && t !in st.calls
    ensures var k := FirstLive(st.queue, st.calls, 0);
            k < |st.queue| ==>
              && st.queue[k] in st.calls && st.queue[k] != t
              && st.calls[st.queue[k]].task.waiter == Pending
  {
    var k := FirstLive(st.queue, st.calls, 0);
    FirstIsLive(st.queue, st.calls, 0);
    if k < |st.queue| {
      var w := st.queue[k];
      assert w in st.queue;
      assert CallAt(st, w);
      assert OwnerAt(st, None, w) || OwnerAt(st, Some(t), w);
    }
  }

  /** The hand-off to the first live waiter, at position `k` of the queue. */
  lemma HandOffKeeps(st: State, t: TaskId, k: nat)
    requires OkBut(st, Some(t)) && !Granted(st, t) && t !in st.calls
    requires k < |st.queue| && st.queue[k] in st.calls && st.calls[st.queue[k]].task.waiter == Pending
    requires forall j :: 0 <= j < k ==>
               st.queue[j] in st.calls && st.calls[st.queue[j]].task.waiter == WaiterCancelled
    ensures var w := st.queue[k];
            var c := st.calls[w];
            Ok(st.(owner := Some(w), calls := st.calls[w := c.(task := Woken(c.task))],
                   acquired := st.acquired + [c.ticket]))
  {
    var w := st.queue[k];
    var c := st.calls[w];
    var n := st.(owner := Some(w), calls := st.calls[w := c.(task := Woken(c.task))],
                 acquired := st.acquired + [c.ticket]);
    assert CallAt(st, w) && OwnerAt(st, Some(t), t);
    RisingAppend(st.acquired, c.ticket);
    assert forall a :: a in n.acquired ==> a in st.acquired || a == c.ticket;
    forall x | x in n.calls
      ensures CallAt(n, x)
    {
      assert CallAt(st, x);
      if x != w && st.calls[x].task.waiter == Pending {
        assert x in st.queue;
        var j :| 0 <= j < |st.queue| && st.queue[j] == x;
        assert k < j;
      }
    }
    forall x
      ensures OwnerAt(n, None, x)
    {
      assert OwnerAt(st, Some(t), x);
    }
    assert QueueOk(n) by {
      forall i | 0 <= i < |st.queue|
        ensures n.queue[i] in st.calls && n.calls[n.queue[i]].ticket == st.calls[st.queue[i]].ticket
      {
        assert st.queue[i] in st.queue;
      }
    }
  }

  /** `release()` by the owner: `st` is the state in which nobody but `t` was granted the lock. */
  lemma ReleaseKeeps(st: State, t: TaskId)
    requires OkBut(st, Some(t)) && st.owner == Some(t) && !Granted(st, t) && t !in st.calls
    ensures Ok(Release(st, t).0)
    ensures Release(st, t).1 == Released
  {
    var n := Release(st, t).0;
    var k := FirstLive(st.queue, st.calls, 0);
    FirstIsLive(st.queue, st.calls, 0);
    LiveIsPending(st, t);
    if k < |st.queue| {
      HandOffKeeps(st, t, k);
    } else {
      forall x | x in n.calls
        ensures CallAt(n, x)
      {
        assert CallAt(st, x);
      }
      forall x
        ensures OwnerAt(n, None, x)
      {
        assert OwnerAt(st, Some(t), x);
      }
    }
  }

  lemma ClientReleaseKeeps(st: State, t: TaskId)
    requires Ok(st) && t !in st.calls
    ensures Ok(ClientRelease(st, t).0)
    ensures ClientRelease(st, t).1 == (if st.owner == Some(t) then Released else Misuse)
  {
    assert OwnerAt(st, None, t);
    if st.owner == Some(t) {
      var gone := st.(holders := st.holders - {t});
      forall x
        ensures OwnerAt(gone, Some(t), x)
      {
        assert OwnerAt(st, None, x);
      }
      forall x | x in gone.calls
        ensures CallAt(gone, x)
      {
        assert CallAt(st, x);
      }
      ReleaseKeeps(gone, t);
      assert ClientRelease(st, t).0 == Release(gone, t).0;
    } else {
      assert ClientRelease(st, t).0 == st;
    }
  }

  // ----- a blocked call runs again -----

  lemma GoneKeepsQueue(st: State, t: TaskId)
    requires QueueOk(st) && t in st.calls
    ensures QueueOk(st.(calls := st.calls - {t}, queue := Without(st.queue, t)))
    ensures forall x :: x in Without(st.queue, t) <==> x in st.queue && x != t
  {
    WithoutKeepsOthers(st.queue, t);
    var queue := Without(st.queue, t);
    forall i, j | 0 <= i < j < |queue|
      ensures queue[i] in st.calls && queue[j] in st.calls
      ensures st.calls[queue[i]].ticket < st.calls[queue[j]].ticket
    {
      var a, b := WithoutKeepsPair(st.queue, t, i, j);
      assert st.queue[a] in st.queue && st.queue[b] in st.queue;
    }
  }

  /** The state in which `t` has left the queue and is about to return or to release. */
  lemma GoneKeeps(st: State, t: TaskId, leaving: Option<TaskId>)
    requires Ok(st) && t in st.calls
    requires leaving == (if st.owner == Some(t) then Some(t) else None)
    ensures OkBut(st.(calls := st.calls - {t}, queue := Without(st.queue, t)), leaving)
  {
    var gone := st.(calls := st.calls - {t}, queue := Without(st.queue, t));
    GoneKeepsQueue(st, t);
    assert CallAt(st, t);
    forall x | x in gone.calls
      ensures CallAt(gone, x)
    {
      assert CallAt(st, x);
    }
    forall x
      ensures OwnerAt(gone, leaving, x)
    {
      assert OwnerAt(st, None, x);
    }
  }

  lemma ResumeKeeps(st: State, t: TaskId)
    requires Ok(st) && t in st.calls && MayResume(st.calls[t].task)
    ensures Ok(Resume(st, t).0)
    ensures Resume(st, t).1 == (if IsInterrupted(st.calls[t].task) then Interrupted else Acquired)
    ensures Resume(st, t).1 == Acquired ==> Resume(st, t).0.owner == Some(t)
  {
    var c := st.calls[t];
    var gone := st.(calls := st.calls - {t}, queue := Without(st.queue, t));
    assert CallAt(st, t) && OwnerAt(st, None, t);
    GoneKeeps(st, t, if st.owner == Some(t) then Some(t) else None);
    if !IsInterrupted(c.task) {
      var n := gone.(holders := gone.holders + {t});
      forall x | x in n.calls
        ensures CallAt(n, x)
      {
        assert CallAt(gone, x);
      }
      forall x
        ensures OwnerAt(n, None, x)
      {
        assert OwnerAt(gone, Some(t), x);
      }
    } else if st.owner == Some(t) {
      ReleaseKeeps(gone, t);
    }
  }

  // ----- the other steps -----

  lemma JoinKeepsQueue(st: State, n: State, t: TaskId)
    requires Ok(st) && t !in st.calls
    requires n.queue == st.queue || (n.queue == st.queue + [t] && t in n.calls && n.calls[t].ticket == st.nextTicket)
    requires forall x :: x in st.calls ==> x in n.calls && n.calls[x] == st.calls[x]
    ensures QueueOk(n)
  {
    forall i | 0 <= i < |st.queue|
      ensures n.queue[i] in st.calls && n.calls[n.queue[i]] == st.calls[st.queue[i]]
      ensures st.calls[st.queue[i]].ticket < st.nextTicket
    {
      assert st.queue[i] in st.queue;
      assert CallAt(st, st.queue[i]);
    }
    forall x | x in n.queue
      ensures x in n.calls
    {
      var i :| 0 <= i < |n.queue| && n.queue[i] == x;
      assert i < |st.queue| || x == t;
    }
  }

  lemma AcquireKeeps(st: State, t: TaskId, me: Task, cancelled: bool)
    requires Ok(st) && Enabled(st, DoAcquire(t, me, cancelled))
    ensures Ok(Acquire(st, t, me, cancelled).0)
  {
    var n := Acquire(st, t, me, cancelled).0;
    assert OwnerAt(st, None, t);
    RisingAppend(st.acquired, st.nextTicket);
    assert t in st.queue ==> t in st.calls;
    forall x | x in n.calls
      ensures CallAt(n, x)
    {
      if x in st.calls {
        assert CallAt(st, x) && OwnerAt(st, None, x);
      }
    }
    forall x
      ensures OwnerAt(n, None, x)
    {
      assert OwnerAt(st, None, x);
    }
    JoinKeepsQueue(st, n, t);
  }

  lemma AcquireNowaitKeeps(st: State, t: TaskId)
    requires Ok(st) && t !in st.calls
    ensures Ok(AcquireNowait(st, t).0)
  {
    var n := AcquireNowait(st, t).0;
    assert OwnerAt(st, None, t);
    RisingAppend(st.acquired, st.nextTicket);
    forall x | x in n.calls
      ensures CallAt(n, x)
    {
      assert CallAt(st, x) && OwnerAt(st, None, x);
    }
    forall x
      ensures OwnerAt(n, None, x)
    {
      assert OwnerAt(st, None, x);
    }
  }

  lemma TaskChangeKeeps(st: State, t: TaskId, task: Task)
    requires Ok(st) && t in st.calls
    requires var was := st.calls[t].task;
             || (task == Delivered(was) && st.calls[t].phase.Queued?) || task == NativelyCancelled(was)
    ensures Ok(ChangeTask(st, t, task))
  {
    var n := ChangeTask(st, t, task);
    assert CallAt(st, t);
    forall x | x in n.calls
      ensures CallAt(n, x)
    {
      assert CallAt(st, x);
    }
    forall x
      ensures OwnerAt(n, None, x)
    {
      assert OwnerAt(st, None, x);
    }
  }

  lemma NewOk(fast: bool)
    ensures Ok(New(fast))
  {
    forall x
      ensures OwnerAt(New(fast), None, x)
    {
    }
  }

  lemma StepKeeps(st: State, step: Step)
    requires Ok(st) && Enabled(st, step)
    ensures Ok(Next(st, step).0)
    ensures Next(st, step).1 != InvalidState
  {
    match step
    case DoAcquire(t, me, c) => AcquireKeeps(st, t, me, c);
    case DoAcquireNowait(t) => AcquireNowaitKeeps(st, t);
    case DoResume(t) => ResumeKeeps(st, t);
    case DoRelease(t) => ClientReleaseKeeps(st, t);
    case DoDeliver(t) => TaskChangeKeeps(st, t, Delivered(st.calls[t].task));
    case DoNative(t) => TaskChangeKeeps(st, t, NativelyCancelled(st.calls[t].task));
  }

  lemma {:induction false} RunKeeps(st: State, steps: seq<Step>)
    requires Ok(st) && Runs(st, steps)
    ensures Ok(After(st, steps))
    decreases |steps|
  {
    if steps != [] {
      StepKeeps(st, steps[0]);
      RunKeeps(Next(st, steps[0]).0, steps[1..]);
    }
  }

  // ----- the theorems -----

  /** `st` is a state of some run of a lock. */
  ghost predicate Reachable(st: State) {
    exists steps :: Runs(New(st.fast), steps) && After(New(st.fast), steps) == st
  }

  lemma ReachableOk(st: State)
    requires Reachable(st)
    ensures Ok(st)
  {
    var steps :| Runs(New(st.fast), steps) && After(New(st.fast), steps) == st;
    NewOk(st.fast);
    RunKeeps(New(st.fast), steps);
  }

  /** Mutual exclusion, with the gap between a hand-off and its return: the tasks that hold the
      lock, that took it and still yield, and whose future holds a result are together exactly
      the owner, so there is at most one. */
  lemma OwnerIsUnique(st: State, t: TaskId, u: TaskId)
    requires Reachable(st)
    ensures st.owner == Some(t) <==> Granted(st, t)
    ensures Granted(st, t) && Granted(st, u) ==> t == u
  {
    ReachableOk(st);
    assert OwnerAt(st, None, t) && OwnerAt(st, None, u);
  }

  /** Nobody was given the lock. */
  ghost predicate IsFree(st: State) {
    forall u :: !Granted(st, u)
  }

  lemma FreeMeans(st: State)
    requires Ok(st)
    ensures IsFree(st) <==> st.owner == None
  {
    if st.owner.Some? {
      assert OwnerAt(st, None, st.owner.value);
    }
    forall u
      ensures st.owner == None ==> !Granted(st, u)
    {
      assert OwnerAt(st, None, u);
    }
  }

  /** A result `Acquired` means what it says: the caller did not hold the lock, holds it now and
      is its owner. Nobody else comes to hold the lock, and only `release()` ends it. */
  lemma HoldersMean(st: State, step: Step)
    requires Reachable(st) && Enabled(st, step)
    ensures var (n, r) := Next(st, step);
            && (r == Acquired ==>
                  step.t !in st.holders && n.holders == st.holders + {step.t} && n.owner == Some(step.t))
            && (r == Released ==> step.DoRelease? && step.t in st.holders && n.holders == st.holders - {step.t})
            && (r !in {Acquired, Released} ==> n.holders == st.holders)
  {
    ReachableOk(st);
    StepKeeps(st, step);
    assert OwnerAt(st, None, step.t) && OwnerAt(Next(st, step).0, None, step.t);
    assert step.t in st.calls ==> CallAt(st, step.t);
    if step.DoResume? {
      ResumeMeans(st, step.t);
    } else if step.DoRelease? {
      ReleaseMeans(st, step.t);
    }
  }

  /** The same for any well-formed lock, as a condition uses it. */
  lemma AcquireHolds(st: State, step: Step)
    requires Ok(st) && Enabled(st, step) && Next(st, step).1 == Acquired
    ensures var n := Next(st, step).0;
            step.t in n.holders && n.owner == Some(step.t) && step.t !in n.calls
  {
    StepKeeps(st, step);
    var n := Next(st, step).0;
    assert OwnerAt(st, None, step.t) && OwnerAt(n, None, step.t);
    if step.DoResume? {
      ResumeKeeps(st, step.t);
    }
  }

  /** When each result of `acquire()` comes: an error for the task that has the lock; the lock if
      it is free and nobody queues, unless the scope is cancelled, at once or after a yield; and
      otherwise the last place in the queue. An error changes nothing. */
  lemma AcquireMeans(st: State, t: TaskId, me: Task, cancelled: bool)
    requires Reachable(st) && Enabled(st, DoAcquire(t, me, cancelled))
    ensures var (n, r) := Next(st, DoAcquire(t, me, cancelled));
            var open := IsFree(st) && st.queue == [];
            && (r == Misuse <==> Granted(st, t))
            && (r == Interrupted <==> open && cancelled)
            && (r == Acquired <==> open && !cancelled && st.fast)
            && (r == Blocked <==> !Granted(st, t) && !(open && (cancelled || st.fast)))
            && (r in {Misuse, Interrupted} ==> n == st)
            && (r == Blocked ==> t in n.calls && t !in n.holders)
            && (r == Blocked && open ==> Granted(n, t) && n.queue == [] && MayResume(n.calls[t].task))
            && (r == Blocked && !open ==>
                  && n.queue == st.queue + [t] && n.owner == st.owner && !Granted(n, t)
                  && n.calls[t].task.waiter == if me.mustCancel then WaiterCancelled else Pending)
  {
    ReachableOk(st);
    FreeMeans(st);
    assert OwnerAt(st, None, t);
  }

  /** `acquire_nowait()` gives the lock iff it is free and nobody queues, an error to the task
      that has it, and `WouldBlock` otherwise. */
  lemma AcquireNowaitMeans(st: State, t: TaskId)
    requires Reachable(st) && Enabled(st, DoAcquireNowait(t))
    ensures var (n, r) := Next(st, DoAcquireNowait(t));
            && (r == Acquired <==> IsFree(st) && st.queue == [])
            && (r == Misuse <==> Granted(st, t))
            && (r == WouldBlock <==> !Granted(st, t) && !(IsFree(st) && st.queue == []))
            && (r != Acquired ==> n == st)
  {
    ReachableOk(st);
    FreeMeans(st);
    assert OwnerAt(st, None, t);
  }

  /** A call of `acquire()` returns normally iff no cancellation reached it, and then its task
      is the owner. A call that is cancelled, even in the gap after it was granted the lock,
      leaves nothing behind and passes the lock on. */
  lemma ResumeMeans(st: State, t: TaskId)
    requires Reachable(st) && Enabled(st, DoResume(t))
    ensures var (n, r) := Next(st, DoResume(t));
            && (r == Acquired <==> !IsInterrupted(st.calls[t].task))
            && (r == Acquired ==>
                  n.owner == Some(t) && t in n.holders
                  && st.acquired != [] && st.calls[t].ticket == st.acquired[|st.acquired| - 1])
            && (r != Acquired ==> r == Interrupted && !Granted(n, t) && n.owner != Some(t))
            && t !in n.calls && t !in n.queue
            && (st.owner != Some(t) ==> n.owner == st.owner)
  {
    ReachableOk(st);
    ResumeKeeps(st, t);
    var n := Next(st, DoResume(t)).0;
    assert CallAt(st, t) && OwnerAt(st, None, t) && OwnerAt(n, None, t);
    if st.owner == Some(t) && IsInterrupted(st.calls[t].task) {
      var gone := st.(calls := st.calls - {t}, queue := Without(st.queue, t));
      GoneKeeps(st, t, Some(t));
      LiveIsPending(gone, t);
    }
  }

  /** Without native cancellation a granted waiter always gets the lock: a scope cannot strike
      in the gap. */
  lemma GrantedReturns(st: State, t: TaskId)
    requires Reachable(st) && t in st.calls && Granted(st, t)
    ensures Enabled(st, DoResume(t))
    ensures Next(st, DoResume(t)).1 == Acquired <==> !st.calls[t].task.mustCancel
    ensures st.calls[t].task.native == 0 ==> Next(st, DoResume(t)).1 == Acquired
  {
    ReachableOk(st);
    assert CallAt(st, t);
    ResumeKeeps(st, t);
  }

  /** `release()` succeeds exactly for the owner, never meets a completed future, and hands the
      lock to the oldest waiter that is not cancelled, if there is one. */
  lemma ReleaseMeans(st: State, t: TaskId)
    requires Reachable(st) && Enabled(st, DoRelease(t))
    ensures forall x :: x in st.queue ==> x in st.calls
    ensures var (n, r) := Next(st, DoRelease(t));
            && (r == Released <==> t in st.holders)
            && (r != Released ==> r == Misuse && n == st)
            && t !in n.holders
            && (r == Released && n.owner.Some? ==>
                  && n.owner.value in st.queue
                  && st.calls[n.owner.value].task.waiter == Pending
                  && n.calls[n.owner.value].task.waiter == HasResult
                  && (forall x :: x in st.queue && st.calls[x].ticket < st.calls[n.owner.value].ticket ==>
                        st.calls[x].task.waiter == WaiterCancelled))
            && (r == Released && n.owner == None ==>
                  forall x :: x in st.queue ==> st.calls[x].task.waiter == WaiterCancelled)
  {
    ReachableOk(st);
    assert OwnerAt(st, None, t);
    ClientReleaseKeeps(st, t);
    if st.owner == Some(t) {
      FirstIsLive(st.queue, st.calls, 0);
      LiveIsPending(st, t);
    }
  }

  /** The lock is acquired in the order of the calls: over any run, each acquisition is by a
      later call than the one before, and whoever still waits uncancelled called later. */
  lemma AcquiredInOrder(st: State, t: TaskId)
    requires Reachable(st)
    ensures Rising(st.acquired)
    ensures t in st.calls && st.calls[t].task.waiter == Pending ==>
              forall a :: a in st.acquired ==> a < st.calls[t].ticket
  {
    ReachableOk(st);
    assert t in st.calls ==> CallAt(st, t);
  }

  // ----- a waiter that nobody will wake -----

  /** Somebody waits uncancelled although the lock is free. */
  predicate Stranded(st: State) {
    st.owner == None && exists t :: t in st.calls && st.calls[t].task.waiter == Pending
  }

  /** A `release()` that frees the lock leaves no live waiter. */
  lemma ReleaseLeavesNobody(st: State, t: TaskId)
    requires forall x :: x in st.calls ==> CallAt(st, x)
    requires st.owner == Some(t) && Release(st, t).0.owner == None
    ensures forall x :: x in st.calls ==> st.calls[x].task.waiter != Pending
  {
    FirstIsLive(st.queue, st.calls, 0);
    forall x | x in st.calls
      ensures st.calls[x].task.waiter != Pending
    {
      assert CallAt(st, x);
    }
  }

  lemma ResumeStrandsNobody(st: State, t: TaskId)
    requires Ok(st) && Enabled(st, DoResume(t)) && !Stranded(st)
    ensures !Stranded(Resume(st, t).0)
  {
    if st.owner == Some(t) && IsInterrupted(st.calls[t].task) {
      var gone := st.(calls := st.calls - {t}, queue := Without(st.queue, t));
      GoneKeeps(st, t, Some(t));
      assert CallAt(st, t);
      if Release(gone, t).0.owner == None {
        ReleaseLeavesNobody(gone, t);
      }
    } else {
      ResumeKeeps(st, t);
    }
  }

  /** The exact step that strands a waiter: a call of `acquire()` that finds the lock free but
      cancelled waiters still in the queue. */
  lemma StrandsOnlyIf(st: State, step: Step)
    requires Reachable(st) && Enabled(st, step) && !Stranded(st)
    ensures Stranded(Next(st, step).0) <==>
              step.DoAcquire? && st.owner == None && st.queue != [] && !step.me.mustCancel
  {
    ReachableOk(st);
    var n := Next(st, step).0;
    match step
    case DoAcquire(t, me, c) =>
      if n.owner == None && st.queue != [] && !me.mustCancel {
        assert t in n.calls && n.calls[t].task.waiter == Pending;
      }
    case DoAcquireNowait(t) =>
    case DoResume(t) => ResumeStrandsNobody(st, t);
    case DoRelease(t) =>
      if st.owner == Some(t) && n.owner == None {
        ReleaseLeavesNobody(st, t);
      }
    case DoDeliver(t) =>
    case DoNative(t) =>
  }

  /** Task 0 holds the lock, task 1 queues and is cancelled, task 0 releases, and task 2 finds
      the lock free but queues behind task 1. */
  lemma AcquireCanStrand() returns (st: State)
    ensures Reachable(st) && Stranded(st)
  {
    var me := Task(Running, NoWaiter, false, 0, 0, 0);
    var s1 := Acquire(New(true), 0, me, false).0;
    var s2 := Acquire(s1, 1, me, false).0;
    var s3 := ChangeTask(s2, 1, Delivered(s2.calls[1].task));
    var s4 := ClientRelease(s3, 0).0;
    st := Acquire(s4, 2, me, false).0;
    assert FirstLive(s3.queue, s3.calls, 0) == 1;
    RunsBack(s4, DoAcquire(2, me, false), []);
    var steps := [DoAcquire(2, me, false)] + [];
    RunsBack(s3, DoRelease(0), steps);
    RunsBack(s2, DoDeliver(1), [DoRelease(0)] + steps);
    RunsBack(s1, DoAcquire(1, me, false), [DoDeliver(1)] + ([DoRelease(0)] + steps));
    steps := [DoAcquire(1, me, false)] + ([DoDeliver(1)] + ([DoRelease(0)] + steps));
    RunsBack(New(true), DoAcquire(0, me, false), steps);
    assert st.calls[2].task.waiter == Pending;
  }

  lemma RunsBack(st: State, step: Step, steps: seq<Step>)
    requires Enabled(st, step) && Runs(Next(st, step).0, steps)
    ensures Runs(st, [step] + steps)
    ensures After(st, [step] + steps) == After(Next(st, step).0, steps)
  {
    assert ([step] + steps)[1..] == steps;
  }

  /** A stranded waiter has to be cancelled: nobody gets the lock before that. */
  lemma StrandedIsStuck(st: State, step: Step)
    requires Reachable(st) && Enabled(st, step) && Stranded(st)
    ensures Next(st, step).1 != Acquired && Next(st, step).0.owner == None
  {
    ReachableOk(st);
    var t :| t in st.calls && st.calls[t].task.waiter == Pending;
    assert CallAt(st, t);
    if step.DoResume? {
      assert CallAt(st, step.t) && OwnerAt(st, None, step.t);
    }
  }
}
