/** What every run of a condition variable keeps, and what follows for its users. */
module ConditionRuns {
  import opened Wrappers
  import opened Tasks
  import opened Sequences
  import opened ConditionState
  import L = LockState
  import LR = LockRuns

  // ----- the lock below -----

  /** A step of the lock by one task leaves the calls of the others alone, but for the waiter
      that it wakes. */
  lemma OthersKeep(lock: L.State, step: L.Step, u: TaskId)
    requires L.Ok(lock) && L.Enabled(lock, step) && step.t != u
    ensures var n := L.Next(lock, step).0;
            && (u in n.calls <==> u in lock.calls)
            && (u in n.holders <==> u in lock.holders)
            && (u in n.calls && IsInterrupted(n.calls[u].task) ==> n.calls[u] == lock.calls[u])
  {
    assert u in lock.calls ==> L.CallAt(lock, u);
  }

  lemma LockStepKeeps(st: State, step: L.Step, n: State)
    requires Ok(st) && L.Enabled(st.lock, step)
    requires step.DoNative? || forall e :: e in st.waits ==> st.waits[e].host != step.t
    requires n.lock == L.Next(st.lock, step).0
    requires n.waits == st.waits && n.waiters == st.waiters && n.next == st.next
    ensures Ok(n)
  {
    LR.StepKeeps(st.lock, step);
    forall e | e in n.waits
      ensures WaitAt(n, e)
    {
      assert WaitAt(st, e);
      if st.waits[e].host != step.t {
        OthersKeep(st.lock, step, st.waits[e].host);
      }
    }
  }

  // ----- notify -----

  lemma SetEventKeeps(st: State)
    requires Ok(st) && st.waiters != []
    ensures Ok(SetEvent(st.(waiters := st.waiters[1..]), st.waiters[0]))
  {
    var x := st.waiters[0];
    var n := SetEvent(st.(waiters := st.waiters[1..]), x);
    assert forall e :: e in st.waiters[1..] ==> e in st.waiters;
    forall e | e in n.waits
      ensures WaitAt(n, e)
    {
      assert WaitAt(st, e);
      assert e in st.waiters <==> e == x || e in st.waiters[1..];
    }
  }

  lemma {:induction false} NotifyKeeps(st: State, n: int)
    requires Ok(st)
    ensures Ok(Notify(st, n))
    decreases n
  {
    if n > 0 && st.waiters != [] {
      SetEventKeeps(st);
      NotifyKeeps(SetEvent(st.(waiters := st.waiters[1..]), st.waiters[0]), n - 1);
    }
  }

  function Min(n: int, m: nat): nat {
    if n <= 0 then 0 else if n <= m then n else m
  }

  /** The events of `woken` are set, and no others. */
  ghost predicate Woke(a: map<EventId, WaitCall>, b: map<EventId, WaitCall>, woken: seq<EventId>) {
    && b.Keys == a.Keys
    && forall e :: e in a ==>
         b[e] == if e in woken then a[e].(isSet := true, task := Woken(a[e].task)) else a[e]
  }

  lemma WokeMore(a: map<EventId, WaitCall>, m: map<EventId, WaitCall>, b: map<EventId, WaitCall>,
                 x: EventId, rest: seq<EventId>)
    requires x !in rest && Woke(m, b, rest)
    requires m == if x in a then a[x := a[x].(isSet := true, task := Woken(a[x].task))] else a
    ensures Woke(a, b, [x] + rest)
  {
  }

  lemma FirstAndRest(q: seq<EventId>, k: nat)
    requires 0 < k <= |q| && Rising(q)
    ensures q[..k] == [q[0]] + q[1..][..k - 1] && q[k..] == q[1..][k - 1..]
    ensures q[0] !in q[1..][..k - 1]
  {
    var rest := q[1..][..k - 1];
    assert forall i :: 0 <= i < |rest| ==> rest[i] == q[i + 1];
  }

  /** The loop sets the events of the `n` oldest waiters, or of all if there are fewer, and of
      nobody else. */
  lemma {:induction false} NotifyWakesOldest(st: State, n: int)
    requires Rising(st.waiters)
    ensures var r := Notify(st, n);
            var k := Min(n, |st.waiters|);
            && r == st.(waiters := st.waiters[k..], waits := r.waits)
            && Woke(st.waits, r.waits, st.waiters[..k])
    decreases n
  {
    if n > 0 && st.waiters != [] {
      var k := Min(n, |st.waiters|);
      var rest := st.waiters[1..];
      var m := SetEvent(st.(waiters := rest), st.waiters[0]);
      FirstAndRest(st.waiters, k);
      NotifyWakesOldest(m, n - 1);
      WokeMore(st.waits, m.waits, Notify(m, n - 1).waits, st.waiters[0], rest[..k - 1]);
    }
  }

  // ----- wait -----

  lemma WaitKeeps(st: State, t: TaskId)
    requires Ok(st) && Free(st, t)
    ensures Ok(Wait(st, t).0)
  {
    var mid := st.(lock := L.ClientRelease(st.lock, t).0);
    LockStepKeeps(st, L.DoRelease(t), mid);
    var n := Wait(st, t).0;
    RisingAppend(st.waiters, st.next);
    forall e | e in n.waits
      ensures WaitAt(n, e)
    {
      assert e in n.waiters <==> e in st.waiters || e == st.next;
      if e in st.waits {
        assert WaitAt(mid, e);
        assert st.waits[e].host != t;
      }
    }
  }

  /** All is well but for the call `e`, which has left the queue and runs. */
  ghost predicate OkBut(st: State, e: EventId)
    requires e in st.waits
  {
    && L.Ok(st.lock)
    && Rising(st.waiters) && (forall x :: x in st.waiters ==> x < st.next)
    && (forall f {:trigger WaitAt(st, f)} :: f in st.waits && f != e ==> WaitAt(st, f))
    && e < st.next && e !in st.waiters
    && (forall f :: f in st.waits && st.waits[f].host == st.waits[e].host ==> f == e)
  }

  lemma RemovalKeeps(st: State, e: EventId)
    requires Ok(st) && e in st.waits
    ensures OkBut(st.(waiters := Without(st.waiters, e)), e)
  {
    var n := st.(waiters := Without(st.waiters, e));
    assert WaitAt(st, e);
    RisingWithout(st.waiters, e);
    forall f | f in n.waits && f != e
      ensures WaitAt(n, f)
    {
      assert WaitAt(st, f);
    }
  }

  /** A step of the lock by the task of `e`, after which `e` has left or acquires the lock. */
  lemma LeaveKeeps(st: State, e: EventId, step: L.Step, n: State)
    requires e in st.waits && OkBut(st, e) && L.Enabled(st.lock, step)
    requires step.t == st.waits[e].host
    requires n.lock == L.Next(st.lock, step).0 && n.waiters == st.waiters && n.next == st.next
    requires n.waits.Keys == st.waits.Keys || n.waits.Keys == st.waits.Keys - {e}
    requires forall f :: f in n.waits && f != e ==> n.waits[f] == st.waits[f]
    requires e in n.waits ==>
               && n.waits[e].host == step.t && step.t in n.lock.calls && step.t !in n.lock.holders
               && n.waits[e].reacquiring && (!n.waits[e].failed ==> n.waits[e].isSet)
               && !IsInterrupted(n.lock.calls[step.t].task)
    ensures Ok(n)
  {
    LR.StepKeeps(st.lock, step);
    forall f | f in n.waits
      ensures WaitAt(n, f)
    {
      if f != e {
        assert WaitAt(st, f);
        OthersKeep(st.lock, step, st.waits[f].host);
      }
    }
  }

  /** The call `e` is out of `wait()` and its task holds the lock. */
  ghost predicate LeftWithLock(st: State, n: State, e: EventId)
    requires e in st.waits
  {
    var t := st.waits[e].host;
    n.lock.owner == Some(t) && t in n.lock.holders && n.ownerTask == Some(t) && e !in n.waits
  }

  /** The shielded `acquire()` neither fails nor is interrupted before it blocks. */
  lemma ReacquireKeeps(st: State, e: EventId, failed: bool)
    requires e in st.waits && OkBut(st, e) && (failed || st.waits[e].isSet)
    requires st.waits[e].host !in st.lock.calls && st.waits[e].host !in st.lock.holders
    ensures var (n, r) := Reacquire(st, e, failed);
            && Ok(n)
            && (r == Blocked(e) || r == (if failed then Cancelled else Notified))
            && (r != Blocked(e) ==> LeftWithLock(st, n, e))
  {
    var t := st.waits[e].host;
    var me := Task(Running, NoWaiter, false, 0, 0, 0);
    assert L.OwnerAt(st.lock, None, t);
    LeaveKeeps(st, e, L.DoAcquire(t, me, false), Reacquire(st, e, failed).0);
  }

  lemma ResumeWaitKeeps(st: State, e: EventId)
    requires Ok(st) && Enabled(st, DoResumeWait(e))
    ensures var (n, r) := ResumeWait(st, e);
            && Ok(n)
            && (r == Blocked(e)
                || r == (if IsInterrupted(st.waits[e].task) then Cancelled else Notified))
            && (r != Blocked(e) ==> LeftWithLock(st, n, e))
            && (r == Notified ==> st.waits[e].isSet)
  {
    var w := st.waits[e];
    assert WaitAt(st, e);
    RemovalKeeps(st, e);
    WithoutAbsent(st.waiters, e);
    ReacquireKeeps(st.(waiters := Without(st.waiters, e)), e, IsInterrupted(w.task));
  }

  lemma FinishWaitKeeps(st: State, e: EventId)
    requires Ok(st) && Enabled(st, DoFinishWait(e))
    ensures var (n, r) := FinishWait(st, e);
            && Ok(n)
            && (r == Unlocked <==> IsInterrupted(st.lock.calls[st.waits[e].host].task))
            && (r != Unlocked ==>
                  r == (if st.waits[e].failed then Cancelled else Notified) && LeftWithLock(st, n, e))
            && (r == Notified ==> st.waits[e].isSet)
  {
    assert WaitAt(st, e);
    RemovalKeeps(st, e);
    WithoutAbsent(st.waiters, e);
    LR.ResumeKeeps(st.lock, st.waits[e].host);
    LeaveKeeps(st, e, L.DoResume(st.waits[e].host), FinishWait(st, e).0);
  }

  // ----- the other steps -----

  lemma WaitTaskKeeps(st: State, e: EventId, task: Task)
    requires Ok(st) && e in st.waits && !st.waits[e].reacquiring
    requires task == Delivered(st.waits[e].task) || task == NativelyCancelled(st.waits[e].task)
    ensures Ok(ChangeTask(st, e, task))
  {
    var n := ChangeTask(st, e, task);
    forall f | f in n.waits
      ensures WaitAt(n, f)
    {
      assert WaitAt(st, f);
    }
  }

  lemma ClientStepKeeps(st: State, step: Step)
    requires Ok(st) && Enabled(st, step)
    requires step.DoAcquire? || step.DoAcquireNowait? || step.DoResumeAcquire? || step.DoRelease?
    ensures Ok(Next(st, step).0)
  {
    var n := Next(st, step).0;
    var lockStep :=
      if step.DoAcquire? then L.DoAcquire(step.t, step.me, step.cancelled)
      else if step.DoAcquireNowait? then L.DoAcquireNowait(step.t)
      else if step.DoResumeAcquire? then L.DoResume(step.t)
      else L.DoRelease(step.t);
    LockStepKeeps(st, lockStep, n);
  }

  lemma StepKeeps(st: State, step: Step)
    requires Ok(st) && Enabled(st, step)
    ensures Ok(Next(st, step).0)
  {
    match step
    case DoAcquire(t, me, c, direct) => ClientStepKeeps(st, step);
    case DoAcquireNowait(t) => ClientStepKeeps(st, step);
    case DoResumeAcquire(t) => ClientStepKeeps(st, step);
    case DoRelease(t) => ClientStepKeeps(st, step);
    case DoNotify(t, k) => NotifyKeeps(st, k);
    case DoNotifyAll(t) => NotifyKeeps(st, |st.waiters|);
    case DoWait(t) => WaitKeeps(st, t);
    case DoResumeWait(e) => ResumeWaitKeeps(st, e);
    case DoFinishWait(e) => FinishWaitKeeps(st, e);
    case DoDeliverLock(t) => LockStepKeeps(st, L.DoDeliver(t), Next(st, step).0);
    case DoDeliverWait(e) => WaitTaskKeeps(st, e, Delivered(st.waits[e].task));
    case DoNativeLock(t) => LockStepKeeps(st, L.DoNative(t), Next(st, step).0);
    case DoNativeWait(e) => WaitTaskKeeps(st, e, NativelyCancelled(st.waits[e].task));
  }

  lemma {:induction false} RunKeeps(st: State, steps: seq<Step>)
    requires Ok(st) && Runs(st, steps)
    ensures Ok(After(st, steps))
    decreases |steps|
  {
    if steps != [] {
      StepKeeps(st, steps[0]);
      RunKeeps(Next(st, steps[0]).0, steps[1..]);
    }
  }

  // ----- the theorems -----

  ghost predicate Reachable(st: State) {
    exists steps :: Runs(New(st.lock.fast), steps) && After(New(st.lock.fast), steps) == st
  }

  lemma ReachableOk(st: State)
    requires Reachable(st)
    ensures Ok(st)
  {
    var steps :| Runs(New(st.lock.fast), steps) && After(New(st.lock.fast), steps) == st;
    LR.NewOk(st.lock.fast);
    RunKeeps(New(st.lock.fast), steps);
  }

  /** Every way out of a `wait()` that had released the lock leaves the caller owning it again,
      except when a native cancellation interrupts the acquisition; it returns normally only if
      it was notified, and the removal on cancellation never fails. */
  lemma WaitLeavesWithLock(st: State, step: Step)
    requires Reachable(st) && Enabled(st, step) && (step.DoResumeWait? || step.DoFinishWait?)
    ensures var e := step.e;
            var (n, r) := Next(st, step);
            && r in {Blocked(e), Notified, Cancelled, Unlocked}
            && (r in {Notified, Cancelled} ==> LeftWithLock(st, n, e))
            && (r == Notified ==> st.waits[e].isSet)
            && (r == Unlocked ==> step.DoFinishWait? && st.lock.calls[st.waits[e].host].task.native > 0)
            && (step.DoFinishWait? ==>
                  r != Blocked(e)
                  && (r == Unlocked <==> IsInterrupted(st.lock.calls[st.waits[e].host].task)))
  {
    ReachableOk(st);
    assert WaitAt(st, step.e);
    if step.DoResumeWait? {
      ResumeWaitKeeps(st, step.e);
    } else {
      FinishWaitKeeps(st, step.e);
    }
  }

  /** The event of a `wait()` is in the queue iff it is not set and its call still awaits it. */
  lemma QueuedIffUnset(st: State, e: EventId)
    requires Reachable(st) && e in st.waits
    ensures e in st.waiters <==> !st.waits[e].isSet && !st.waits[e].reacquiring
    ensures st.waits[e].isSet && !st.waits[e].reacquiring ==> Enabled(st, DoResumeWait(e))
  {
    ReachableOk(st);
    assert WaitAt(st, e);
  }

  /** `e` is queued but nobody awaits it. */
  predicate Stale(st: State, e: EventId) {
    e in st.waiters && e !in st.waits
  }

  lemma WaitMakesStale(st: State, t: TaskId, e: EventId)
    requires Ok(st) && Free(st, t) && !Stale(st, e)
    ensures Stale(Wait(st, t).0, e) <==> t !in st.lock.holders && e == st.next
  {
    LR.ClientReleaseKeeps(st.lock, t);
    assert L.OwnerAt(st.lock, None, t);
    assert e in st.waits ==> WaitAt(st, e);
    assert st.next !in st.waits || WaitAt(st, st.next);
  }

  lemma NotifyMakesNoneStale(st: State, n: int, e: EventId)
    requires Ok(st) && !Stale(st, e)
    ensures !Stale(Notify(st, n), e)
  {
    NotifyWakesOldest(st, n);
  }

  lemma ResumeMakesNoneStale(st: State, step: Step, e: EventId)
    requires Ok(st) && Enabled(st, step) && (step.DoResumeWait? || step.DoFinishWait?) && !Stale(st, e)
    ensures !Stale(Next(st, step).0, e)
  {
    assert WaitAt(st, step.e);
    if step.DoResumeWait? {
      RemovalKeeps(st, step.e);
    }
  }

  /** An event that no call awaits gets into the queue by exactly one kind of step: a `wait()`
      whose caller does not hold the lock, which fails and leaves its event behind. */
  lemma StaleOnlyByMisuse(st: State, step: Step, e: EventId)
    requires Reachable(st) && Enabled(st, step) && !Stale(st, e)
    ensures Stale(Next(st, step).0, e) <==>
              step.DoWait? && step.t !in st.lock.holders && e == st.next
  {
    ReachableOk(st);
    match step
    case DoWait(t) => WaitMakesStale(st, t, e);
    case DoNotify(t, n) => NotifyMakesNoneStale(st, n, e);
    case DoNotifyAll(t) => NotifyMakesNoneStale(st, |st.waiters|, e);
    case DoResumeWait(x) => ResumeMakesNoneStale(st, step, e);
    case DoFinishWait(x) => ResumeMakesNoneStale(st, step, e);
    case _ =>
  }

  /** `notify(n)` by the last task that acquired through the condition wakes exactly the
      `min(n, waiting)` calls that came first; anyone else gets an error. */
  lemma NotifyMeans(st: State, t: TaskId, n: int)
    requires Reachable(st) && Enabled(st, DoNotify(t, n))
    ensures var (r, result) := Next(st, DoNotify(t, n));
            var k := Min(n, |st.waiters|);
            && (result == Done <==> st.ownerTask == Some(t))
            && (result != Done ==> result == Misuse && r == st)
            && (result == Done ==>
                  && r.waiters == st.waiters[k..] && r.lock == st.lock && r.waits.Keys == st.waits.Keys
                  && (forall e :: e in st.waits ==>
                        (r.waits[e].isSet <==> st.waits[e].isSet || e in st.waiters[..k]))
                  && (forall e, f :: e in st.waiters[..k] && f in st.waiters[k..] ==> e < f)
                  && (forall e :: e in st.waits && e in st.waiters[..k] ==> MayResume(r.waits[e].task)))
  {
    ReachableOk(st);
    NotifyWakesOldest(st, n);
  }

  // ----- the condition and its lock -----

  /** The step of the lock that a client's step of the condition is. */
  function LockStepOf(step: Step): L.Step
    requires step.DoAcquire? || step.DoAcquireNowait? || step.DoResumeAcquire? || step.DoRelease?
  {
    match step
    case DoAcquire(t, me, c, direct) => L.DoAcquire(t, me, c)
    case DoAcquireNowait(t) => L.DoAcquireNowait(t)
    case DoResumeAcquire(t) => L.DoResume(t)
    case DoRelease(t) => L.DoRelease(t)
  }

  /** To its clients the condition is its lock: they get the lock's results, and events and queue
      stay as they are. */
  lemma ClientsGetTheLock(st: State, step: Step)
    requires Enabled(st, step)
    requires step.DoAcquire? || step.DoAcquireNowait? || step.DoResumeAcquire? || step.DoRelease?
    ensures L.Enabled(st.lock, LockStepOf(step))
    ensures var (n, r) := Next(st, step);
            && (n.lock, r) == (L.Next(st.lock, LockStepOf(step)).0, Lock(L.Next(st.lock, LockStepOf(step)).1))
            && n.waiters == st.waiters && n.waits == st.waits && n.next == st.next
  {
  }

  /** The calls of `acquire()` that came through the condition are blocked in the lock. */
  ghost predicate EnteringOk(st: State) {
    forall t :: t in st.entering ==> t in st.lock.calls && !InWait(st, t)
  }

  /** A step by `u` at the lock, which gives no other task a `wait()`. */
  lemma OthersStayEntering(st: State, step: L.Step, n: State)
    requires Ok(st) && EnteringOk(st) && L.Enabled(st.lock, step) && n.lock == L.Next(st.lock, step).0
    requires n.entering - {step.t} <= st.entering
    requires step.t in n.entering ==> step.t in n.lock.calls && !InWait(n, step.t)
    requires forall e :: e in n.waits ==> n.waits[e].host == step.t || (e in st.waits && st.waits[e].host == n.waits[e].host)
    ensures EnteringOk(n)
  {
    forall t | t in n.entering
      ensures t in n.lock.calls && !InWait(n, t)
    {
      if t != step.t {
        OthersKeep(st.lock, step, t);
      }
    }
  }

  lemma ClientKeepsEntering(st: State, step: Step)
    requires Ok(st) && EnteringOk(st) && Enabled(st, step)
    requires step.DoAcquire? || step.DoAcquireNowait? || step.DoResumeAcquire? || step.DoRelease?
    ensures EnteringOk(Next(st, step).0)
  {
    ClientsGetTheLock(st, step);
    OthersStayEntering(st, LockStepOf(step), Next(st, step).0);
  }

  lemma WaitKeepsEntering(st: State, step: Step)
    requires Ok(st) && EnteringOk(st) && Enabled(st, step)
    requires step.DoWait? || step.DoResumeWait? || step.DoFinishWait?
    ensures EnteringOk(Next(st, step).0)
  {
    var n := Next(st, step).0;
    match step
    case DoWait(t) => OthersStayEntering(st, L.DoRelease(t), n);
    case DoResumeWait(e) =>
      assert WaitAt(st, e);
      var me := Task(Running, NoWaiter, false, 0, 0, 0);
      OthersStayEntering(st, L.DoAcquire(st.waits[e].host, me, false), n);
    case DoFinishWait(e) => OthersStayEntering(st, L.DoResume(st.waits[e].host), n);
  }

  lemma StepKeepsEntering(st: State, step: Step)
    requires Ok(st) && EnteringOk(st) && Enabled(st, step)
    ensures EnteringOk(Next(st, step).0)
  {
    match step
    case DoAcquire(t, me, c, direct) => ClientKeepsEntering(st, step);
    case DoAcquireNowait(t) => ClientKeepsEntering(st, step);
    case DoResumeAcquire(t) => ClientKeepsEntering(st, step);
    case DoRelease(t) => ClientKeepsEntering(st, step);
    case DoNotify(t, k) => NotifyKeepsEntering(st, k);
    case DoNotifyAll(t) => NotifyKeepsEntering(st, |st.waiters|);
    case DoWait(t) => WaitKeepsEntering(st, step);
    case DoResumeWait(e) => WaitKeepsEntering(st, step);
    case DoFinishWait(e) => WaitKeepsEntering(st, step);
    case DoDeliverLock(t) => OthersStayEntering(st, L.DoDeliver(t), Next(st, step).0);
    case DoNativeLock(t) => OthersStayEntering(st, L.DoNative(t), Next(st, step).0);
    case DoDeliverWait(e) =>
    case DoNativeWait(e) =>
  }

  lemma NotifyKeepsEntering(st: State, k: int)
    requires Ok(st) && EnteringOk(st)
    ensures EnteringOk(Notify(st, k))
  {
    NotifyWakesOldest(st, k);
  }

  lemma {:induction false} RunKeepsEntering(st: State, steps: seq<Step>)
    requires Ok(st) && EnteringOk(st) && Runs(st, steps)
    ensures EnteringOk(After(st, steps))
    decreases |steps|
  {
    if steps != [] {
      StepKeeps(st, steps[0]);
      StepKeepsEntering(st, steps[0]);
      RunKeepsEntering(Next(st, steps[0]).0, steps[1..]);
    }
  }

  /** The step makes its task acquire the lock through the condition: at once, or because it
      blocked in an `acquire()` of the condition before. */
  predicate AcquiresThrough(st: State, step: Step) {
    || (step.DoAcquire? && !step.direct)
    || step.DoAcquireNowait?
    || (step.DoResumeAcquire? && step.t in st.entering)
  }

  /** A call is known as one of the condition exactly if it blocked in the condition's own
      `acquire()`, and until its task runs again. */
  lemma EnteringMeans(st: State, step: Step, t: TaskId)
    requires Reachable(st) && Enabled(st, step)
    ensures var (n, r) := Next(st, step);
            t in n.entering <==>
              if step.DoAcquire? && step.t == t then !step.direct && r == Lock(L.Blocked)
              else t in st.entering && step != DoResumeAcquire(t)
    ensures t in st.entering ==> t in st.lock.calls && !InWait(st, t)
  {
    ReachableOk(st);
    var steps :| Runs(New(st.lock.fast), steps) && After(New(st.lock.fast), steps) == st;
    LR.NewOk(st.lock.fast);
    RunKeepsEntering(New(st.lock.fast), steps);
    if step.DoNotify? {
      NotifyWakesOldest(st, step.n);
      NotifyLeavesEntering(st, step.n);
    } else if step.DoNotifyAll? {
      NotifyLeavesEntering(st, |st.waiters|);
    }
  }

  lemma NotifyLeavesEntering(st: State, k: int)
    requires Ok(st)
    ensures Notify(st, k).entering == st.entering && Notify(st, k).ownerTask == st.ownerTask
  {
    NotifyWakesOldest(st, k);
  }

  /** A task that gets the lock through the condition is the one that may notify, and it holds
      the lock; the same goes for one that leaves `wait()` with the lock. */
  lemma AcquiredMayNotify(st: State, step: Step, k: int)
    requires Reachable(st) && Enabled(st, step)
    requires step.DoAcquire? || step.DoAcquireNowait? || step.DoResumeAcquire?
    requires AcquiresThrough(st, step) && Next(st, step).1 == Lock(L.Acquired)
    ensures var n := Next(st, step).0;
            && n.ownerTask == Some(step.t) && step.t in n.lock.holders && n.lock.owner == Some(step.t)
            && Enabled(n, DoNotify(step.t, k)) && Next(n, DoNotify(step.t, k)).1 == Done
  {
    ReachableOk(st);
    StepKeeps(st, step);
    ClientsGetTheLock(st, step);
    var n := Next(st, step).0;
    LR.AcquireHolds(st.lock, LockStepOf(step));
    assert step.t !in n.lock.calls;
  }

  /** Nothing else makes a task the one that may notify. */
  lemma OwnerTaskMeans(st: State, step: Step)
    requires Reachable(st) && Enabled(st, step)
    ensures var (n, r) := Next(st, step);
            || n.ownerTask == st.ownerTask
            || (AcquiresThrough(st, step) && r == Lock(L.Acquired) && n.ownerTask == Some(step.t))
            || ((step.DoResumeWait? || step.DoFinishWait?) && r in {Notified, Cancelled}
                && n.ownerTask == Some(st.waits[step.e].host))
  {
    ReachableOk(st);
    match step
    case DoNotify(t, k) => NotifyLeavesEntering(st, k);
    case DoNotifyAll(t) => NotifyLeavesEntering(st, |st.waiters|);
    case DoResumeWait(e) =>
      assert WaitAt(st, e);
      ResumeWaitKeeps(st, e);
    case _ =>
  }

  /** `wait()` blocks iff its caller holds the lock, which it then gives back and passes on, with
      its event at the end of the queue; anyone else gets the lock's error. */
  lemma WaitMeans(st: State, t: TaskId)
    requires Reachable(st) && Enabled(st, DoWait(t))
    ensures var (n, r) := Next(st, DoWait(t));
            && (r.Blocked? <==> t in st.lock.holders)
            && (r.Blocked? ==>
                  && r.event !in st.waits && r.event !in st.waiters
                  && n.waiters == st.waiters + [r.event]
                  && n.waits == st.waits[r.event := WaitCall(t, false, Waiting(0), false, false)]
                  && n.lock == L.Next(st.lock, L.DoRelease(t)).0 && t !in n.lock.holders)
            && (!r.Blocked? ==>
                  r == Lock(L.Misuse) && n.lock == st.lock && n.waits == st.waits
                  && |n.waiters| == |st.waiters| + 1 && n.waiters[..|st.waiters|] == st.waiters)
  {
    ReachableOk(st);
    LR.ClientReleaseKeeps(st.lock, t);
    assert L.OwnerAt(st.lock, None, t);
    assert st.next in st.waits ==> WaitAt(st, st.next);
  }

  /** `notify_all()` by the last task that acquired through the condition wakes every call. */
  lemma NotifyAllMeans(st: State, t: TaskId)
    requires Reachable(st) && Enabled(st, DoNotifyAll(t))
    ensures var (r, result) := Next(st, DoNotifyAll(t));
            && (result == Done <==> st.ownerTask == Some(t))
            && (result != Done ==> result == Misuse && r == st)
            && (result == Done ==>
                  && r.waiters == [] && r.lock == st.lock && r.waits.Keys == st.waits.Keys
                  && forall e :: e in st.waits ==>
                       && (r.waits[e].isSet <==> st.waits[e].isSet || e in st.waiters)
                       && (e in st.waiters ==> MayResume(r.waits[e].task)))
  {
    ReachableOk(st);
    NotifyWakesOldest(st, |st.waiters|);
    assert st.waiters[..|st.waiters|] == st.waiters;
  }

  // ----- a run, one step at a time -----

  ghost predicate Leads(steps: seq<Step>, st: State) {
    Runs(New(true), steps) && After(New(true), steps) == st
  }

  lemma {:induction false} RunsOn(start: State, steps: seq<Step>, step: Step)
    requires Runs(start, steps) && Enabled(After(start, steps), step)
    ensures Runs(start, steps + [step])
    ensures After(start, steps + [step]) == Next(After(start, steps), step).0
    decreases |steps|
  {
    if steps == [] {
      assert [] + [step] == [step] && [step][1..] == [];
      assert Runs(Next(start, step).0, []);
    } else {
      assert (steps + [step])[1..] == steps[1..] + [step];
      RunsOn(Next(start, steps[0]).0, steps[1..], step);
    }
  }

  lemma OneMore(steps: seq<Step>, st: State, step: Step, n: State)
    requires Leads(steps, st) && Enabled(st, step) && n == Next(st, step).0
    ensures Leads(steps + [step], n)
  {
    RunsOn(New(true), steps, step);
  }

  lemma LeadsToReachable(steps: seq<Step>, st: State)
    requires Leads(steps, st) && st.lock.fast
    ensures Reachable(st)
  {
  }

  /** A first `wait()` by a task that never acquired the lock leaves its event in the queue. */
  lemma WaitCanLeaveStale() returns (st: State, t: TaskId, e: EventId)
    ensures Reachable(st) && Enabled(st, DoWait(t)) && t !in st.lock.holders
    ensures !Stale(st, e) && Stale(Next(st, DoWait(t)).0, e)
  {
    st, t, e := New(true), 0, 0;
    assert Leads([], st);
    LeadsToReachable([], st);
  }

  // ----- where a notification goes -----

  /** A call that was woken says that it was notified iff its task is not interrupted: at once,
      or when it has the lock again. */
  lemma WokenMeans(st: State, e: EventId)
    requires Reachable(st) && Enabled(st, DoResumeWait(e)) && st.waits[e].isSet
    ensures var (n, r) := Next(st, DoResumeWait(e));
            var struck := IsInterrupted(st.waits[e].task);
            && (r in {Notified, Cancelled} || r == Blocked(e))
            && (r == Notified ==> !struck) && (r == Cancelled ==> struck)
            && (r == Blocked(e) ==> e in n.waits && n.waits[e].reacquiring && n.waits[e].failed == struck)
  {
    ReachableOk(st);
    assert WaitAt(st, e);
    ResumeWaitKeeps(st, e);
  }

  /** A call that has the lock again says that it was notified iff it had not failed before. */
  lemma FinishMeans(st: State, e: EventId)
    requires Reachable(st) && Enabled(st, DoFinishWait(e))
    ensures var r := Next(st, DoFinishWait(e)).1;
            r == Unlocked || r == if st.waits[e].failed then Cancelled else Notified
  {
    WaitLeavesWithLock(st, DoFinishWait(e));
  }

  /** The call `e` was notified and is cancelled: the notification reaches nobody. */
  predicate Spent(st: State, e: EventId) {
    && e in st.waits && !st.waits[e].reacquiring
    && st.waits[e].isSet && IsInterrupted(st.waits[e].task)
  }

  /** The step notifies `e`. */
  predicate Notifies(st: State, step: Step, e: EventId) {
    match step
    case DoNotify(t, n) => st.ownerTask == Some(t) && e in st.waiters[..Min(n, |st.waiters|)]
    case DoNotifyAll(t) => st.ownerTask == Some(t) && e in st.waiters
    case _ => false
  }

  lemma NotifySpends(st: State, n: int, e: EventId)
    requires Ok(st) && !Spent(st, e)
    ensures Spent(Notify(st, n), e) <==>
              && e in st.waiters[..Min(n, |st.waiters|)]
              && e in st.waits && IsInterrupted(st.waits[e].task)
  {
    NotifyWakesOldest(st, n);
    assert e in st.waits ==> WaitAt(st, e);
    assert e in st.waiters[..Min(n, |st.waiters|)] ==> e in st.waiters;
  }

  lemma StrikeSpends(st: State, x: EventId, task: Task, e: EventId)
    requires x in st.waits && !Spent(st, e)
    ensures Spent(ChangeTask(st, x, task), e) <==>
              e == x && !st.waits[e].reacquiring && st.waits[e].isSet && IsInterrupted(task)
  {
  }

  lemma ResumeSpendsNone(st: State, step: Step, e: EventId)
    requires Ok(st) && Enabled(st, step) && (step.DoResumeWait? || step.DoFinishWait?) && !Spent(st, e)
    ensures !Spent(Next(st, step).0, e)
  {
  }

  /** A notification is spent on a cancelled call by exactly two kinds of step: a `notify` whose
      event belongs to a call that is cancelled but has not left the queue, and a native
      cancellation of a call that was notified. */
  lemma SpentOnlyIf(st: State, step: Step, e: EventId)
    requires Reachable(st) && Enabled(st, step) && !Spent(st, e)
    ensures Spent(Next(st, step).0, e) <==>
              || (Notifies(st, step, e) && e in st.waits && IsInterrupted(st.waits[e].task))
              || (step == DoNativeWait(e) && st.waits[e].isSet)
  {
    ReachableOk(st);
    match step
    case DoNotify(t, n) => NotifySpends(st, n, e);
    case DoNotifyAll(t) =>
      NotifySpends(st, |st.waiters|, e);
      assert st.waiters[..|st.waiters|] == st.waiters;
    case DoResumeWait(x) => ResumeSpendsNone(st, step, e);
    case DoFinishWait(x) => ResumeSpendsNone(st, step, e);
    case DoDeliverWait(x) =>
      assert WaitAt(st, x);
      StrikeSpends(st, x, Delivered(st.waits[x].task), e);
    case DoNativeWait(x) => StrikeSpends(st, x, NativelyCancelled(st.waits[x].task), e);
    case DoWait(t) => assert st.next !in st.waits || WaitAt(st, st.next);
    case _ =>
  }

  /** Nobody holds the lock or queues for it. */
  predicate Idle(lock: L.State) {
    lock.fast && lock.owner == None && lock.queue == [] && lock.calls == map[] && lock.holders == {}
  }

  lemma TakeAndRelease(lock: L.State, t: TaskId)
    requires Idle(lock)
    ensures L.AcquireNowait(lock, t).1 == L.Acquired
    ensures L.ClientRelease(L.AcquireNowait(lock, t).0, t).1 == L.Released
    ensures Idle(L.ClientRelease(L.AcquireNowait(lock, t).0, t).0)
  {
  }

  /** A task that is in no `wait()` takes the idle lock and waits. */
  lemma OneWaits(steps: seq<Step>, st: State, t: TaskId) returns (more: seq<Step>, n: State)
    requires Leads(steps, st) && Idle(st.lock) && !InWait(st, t)
    ensures Leads(more, n) && Idle(n.lock)
    ensures n.waiters == st.waiters + [st.next] && n.next == st.next + 1
    ensures n.waits == st.waits[st.next := WaitCall(t, false, Waiting(0), false, false)]
  {
    TakeAndRelease(st.lock, t);
    var held := AcquireNowait(st, t).0;
    OneMore(steps, st, DoAcquireNowait(t), held);
    n := Wait(held, t).0;
    more := steps + [DoAcquireNowait(t)] + [DoWait(t)];
    OneMore(steps + [DoAcquireNowait(t)], held, DoWait(t), n);
  }

  /** Another task takes the idle lock and notifies one call, which was cancelled by a scope. */
  lemma OneNotifies(steps: seq<Step>, st: State, t: TaskId, e: EventId) returns (more: seq<Step>, n: State)
    requires Leads(steps, st) && Idle(st.lock) && !InWait(st, t)
    requires e in st.waits && !st.waits[e].reacquiring && st.waits[e].task == Waiting(0)
    requires st.waiters != [] && st.waiters[0] == e
    ensures Leads(more, n) && n.lock.fast && n.waiters == st.waiters[1..]
    ensures n.waits == st.waits[e := st.waits[e].(isSet := true, task := Delivered(Waiting(0)))]
  {
    var struck := ChangeTask(st, e, Delivered(Waiting(0)));
    OneMore(steps, st, DoDeliverWait(e), struck);
    var held := AcquireNowait(struck, t).0;
    more := steps + [DoDeliverWait(e)] + [DoAcquireNowait(t)];
    assert forall x :: x in struck.waits ==> x in st.waits && struck.waits[x].host == st.waits[x].host;
    OneMore(steps + [DoDeliverWait(e)], struck, DoAcquireNowait(t), held);
    n := Notify(held, 1);
    assert n == SetEvent(held.(waiters := held.waiters[1..]), e);
    OneMore(more, held, DoNotify(t, 1), n);
    more := more + [DoNotify(t, 1)];
  }

  /** A notification is spent on a call that a scope cancelled, while a call that is not
      cancelled stays in the queue. */
  lemma NotifyCanBeSpent() returns (st: State)
    ensures Reachable(st) && Spent(st, 0) && st.waits[0].task.native == 0
    ensures st.waiters == [1] && 1 in st.waits && st.waits[1].task.waiter == Pending
  {
    var steps, s := OneWaits([], New(true), 0);
    steps, s := OneWaits(steps, s, 1);
    steps, st := OneNotifies(steps, s, 2, 0);
    LeadsToReachable(steps, st);
  }
}
