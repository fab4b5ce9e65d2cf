/** What every run of a semaphore keeps, and what follows for its users. */
module SemaphoreRuns {
  import opened Wrappers
  import opened Tasks
  import opened Sequences
  import opened Waiters
  import opened SemaphoreState

  // ----- the granted calls -----

  lemma GrantedAfterRemoval(calls: map<CallId, Call>, op: CallId)
    requires op in calls
    ensures GrantedCalls(calls - {op}) == GrantedCalls(calls) - {op}
    ensures |GrantedCalls(calls)| ==
            |GrantedCalls(calls - {op})| + if Granted(calls[op]) then 1 else 0
  {
  }

  lemma GrantedSetAfterUpdate(calls: map<CallId, Call>, op: CallId, c: Call)
    ensures var g := GrantedCalls(calls) - {op};
            GrantedCalls(calls[op := c]) == if Granted(c) then g + {op} else g
  {
  }

  lemma GrantedAfterUpdate(calls: map<CallId, Call>, op: CallId, c: Call)
    ensures |GrantedCalls(calls[op := c])| ==
            |GrantedCalls(calls)|
            - (if op in calls && Granted(calls[op]) then 1 else 0) + if Granted(c) then 1 else 0
  {
    GrantedSetAfterUpdate(calls, op, c);
    var g := GrantedCalls(calls);
    assert op in g <==> op in calls && Granted(calls[op]);
    assert |g - {op}| == |g| - if op in g then 1 else 0;
  }

  // ----- release -----

  lemma HandOverKeeps(st: State, k: nat)
    requires OkBut(st, 1)
    requires k < |st.queue| && st.queue[k] in st.calls && st.calls[st.queue[k]].task.waiter == Pending
    requires forall j :: 0 <= j < k ==>
               st.queue[j] in st.calls && st.calls[st.queue[j]].task.waiter == WaiterCancelled
    ensures var w := st.queue[k];
            var c := st.calls[w];
            Ok(st.(queue := Without(st.queue, w), calls := st.calls[w := c.(task := Woken(c.task))],
                   granted := st.granted + [w]))
  {
    var w := st.queue[k];
    var c := st.calls[w];
    var n := st.(queue := Without(st.queue, w), calls := st.calls[w := c.(task := Woken(c.task))],
                 granted := st.granted + [w]);
    assert CallAt(st, w);
    RisingAppend(st.granted, w);
    RisingWithout(st.queue, w);
    GrantedAfterUpdate(st.calls, w, n.calls[w]);
    forall x | x in n.calls
      ensures CallAt(n, x)
    {
      assert CallAt(st, x);
      if x != w && st.calls[x].task.waiter == Pending {
        assert x in st.queue;
        var j :| 0 <= j < |st.queue| && st.queue[j] == x;
        assert k < j;
      }
    }
  }

  lemma ReleaseKeeps(st: State)
    requires OkBut(st, 1)
    ensures Ok(Release(st).0) && Release(st).1 == Released
  {
    var k := FirstLive(st.queue, st.calls, 0);
    FirstIsLive(st.queue, st.calls, 0);
    if k < |st.queue| {
      var w := st.queue[k];
      assert w in st.queue;
      assert CallAt(st, w);
      HandOverKeeps(st, k);
    } else {
      var n := Release(st).0;
      forall x | x in n.calls
        ensures CallAt(n, x)
      {
        assert CallAt(st, x);
      }
    }
  }

  // ----- the steps -----

  lemma ClientReleaseKeeps(st: State)
    requires Ok(st) && st.held > 0
    ensures Ok(Release(st.(held := st.held - 1)).0)
    ensures Release(st.(held := st.held - 1)).1 == Released
  {
    var n := st.(held := st.held - 1);
    forall x | x in n.calls
      ensures CallAt(n, x)
    {
      assert CallAt(st, x);
    }
    ReleaseKeeps(n);
  }

  lemma GoneKeeps(st: State, op: CallId)
    requires Ok(st) && op in st.calls
    ensures var gone := st.(calls := st.calls - {op}, queue := Without(st.queue, op));
            OkBut(gone, if Granted(st.calls[op]) then 1 else 0)
  {
    var gone := st.(calls := st.calls - {op}, queue := Without(st.queue, op));
    assert CallAt(st, op);
    RisingWithout(st.queue, op);
    GrantedAfterRemoval(st.calls, op);
    forall x | x in gone.calls
      ensures CallAt(gone, x)
    {
      assert CallAt(st, x);
    }
  }

  lemma ResumeKeeps(st: State, op: CallId)
    requires Ok(st) && op in st.calls && MayResume(st.calls[op].task)
    ensures Ok(Resume(st, op).0)
    ensures Resume(st, op).1 == (if IsInterrupted(st.calls[op].task) then Interrupted else Acquired)
  {
    var c := st.calls[op];
    var gone := st.(calls := st.calls - {op}, queue := Without(st.queue, op));
    assert CallAt(st, op);
    GoneKeeps(st, op);
    WithoutAbsent(st.queue, op);
    if !IsInterrupted(c.task) {
      var n := gone.(held := gone.held + 1);
      forall x | x in n.calls
        ensures CallAt(n, x)
      {
        assert CallAt(gone, x);
      }
    } else if Granted(c) {
      ReleaseKeeps(gone);
    }
  }

  lemma TakeKeeps(st: State, me: Task)
    requires Ok(st) && Enabled(st, DoAcquire(me, false)) && st.value > 0 && st.queue == []
    ensures Ok(Acquire(st, me, false).0)
  {
    var n := Acquire(st, me, false).0;
    NextIsFresh(st);
    RisingAppend(st.granted, st.next);
    if !st.fast {
      GrantedAfterUpdate(st.calls, st.next, n.calls[st.next]);
    }
    forall x | x in n.calls
      ensures CallAt(n, x)
    {
      if x in st.calls {
        assert CallAt(st, x);
      }
    }
  }

  lemma NextIsFresh(st: State)
    requires Ok(st)
    ensures st.next !in st.calls && forall op :: op in st.queue ==> op < st.next
  {
    assert st.next in st.calls ==> CallAt(st, st.next);
    assert forall op :: op in st.queue ==> CallAt(st, op);
  }

  lemma JoinKeeps(st: State, me: Task)
    requires Ok(st)
    ensures Ok(st.(queue := st.queue + [st.next],
                   calls := st.calls[st.next := Call(Queued, Suspended(me, true), st.next)],
                   next := st.next + 1))
  {
    var c := Call(Queued, Suspended(me, true), st.next);
    var n := st.(queue := st.queue + [st.next], calls := st.calls[st.next := c], next := st.next + 1);
    NextIsFresh(st);
    RisingAppend(st.queue, st.next);
    GrantedAfterUpdate(st.calls, st.next, c);
    assert !Granted(c);
    forall x | x in n.calls
      ensures CallAt(n, x)
    {
      assert x in n.queue <==> x in st.queue || x == st.next;
      if x != st.next {
        assert CallAt(st, x);
      }
    }
  }

  lemma AcquireKeeps(st: State, me: Task, cancelled: bool)
    requires Ok(st) && Enabled(st, DoAcquire(me, cancelled))
    ensures Ok(Acquire(st, me, cancelled).0)
  {
    if !(st.value > 0 && st.queue == []) {
      JoinKeeps(st, me);
    } else if !cancelled {
      TakeKeeps(st, me);
    }
  }

  lemma AcquireNowaitKeeps(st: State)
    requires Ok(st)
    ensures Ok(AcquireNowait(st).0)
  {
    var n := AcquireNowait(st).0;
    forall x | x in n.calls
      ensures CallAt(n, x)
    {
      assert CallAt(st, x);
    }
  }

  lemma TaskChangeKeeps(st: State, op: CallId, task: Task)
    requires Ok(st) && op in st.calls
    requires || (task == Delivered(st.calls[op].task) && st.calls[op].phase.Queued?)
             || task == NativelyCancelled(st.calls[op].task)
    ensures Ok(ChangeTask(st, op, task))
  {
    var n := ChangeTask(st, op, task);
    assert CallAt(st, op);
    GrantedAfterUpdate(st.calls, op, n.calls[op]);
    forall x | x in n.calls
      ensures CallAt(n, x)
    {
      assert CallAt(st, x);
    }
  }

  lemma StepKeeps(st: State, step: Step)
    requires Ok(st) && Enabled(st, step)
    ensures Ok(Next(st, step).0)
    ensures Next(st, step).1 !in {TooMany, InvalidState}
    ensures Next(st, step).0.initial == st.initial && Next(st, step).0.max == st.max
  {
    match step
    case DoAcquire(me, c) => AcquireKeeps(st, me, c);
    case DoAcquireNowait => AcquireNowaitKeeps(st);
    case DoResume(op) => ResumeKeeps(st, op);
    case DoRelease => ClientReleaseKeeps(st);
    case DoDeliver(op) => TaskChangeKeeps(st, op, Delivered(st.calls[op].task));
    case DoNative(op) => TaskChangeKeeps(st, op, NativelyCancelled(st.calls[op].task));
  }

  lemma NewOk(fast: bool, initial: nat, max: Option<nat>)
    requires MayCreate(initial, max)
    ensures Ok(New(fast, initial, max))
  {
    assert GrantedCalls(map[]) == {};
  }

  lemma {:induction false} RunKeeps(st: State, steps: seq<Step>)
    requires Ok(st) && Runs(st, steps)
    ensures Ok(After(st, steps))
    decreases |steps|
  {
    if steps != [] {
      StepKeeps(st, steps[0]);
      RunKeeps(Next(st, steps[0]).0, steps[1..]);
    }
  }

  // ----- the theorems -----

  ghost predicate Reachable(st: State) {
    && MayCreate(st.initial, st.max)
    && exists steps :: Runs(New(st.fast, st.initial, st.max), steps)
                    && After(New(st.fast, st.initial, st.max), steps) == st
  }

  lemma ReachableOk(st: State)
    requires Reachable(st)
    ensures Ok(st)
  {
    var steps :| Runs(New(st.fast, st.initial, st.max), steps)
              && After(New(st.fast, st.initial, st.max), steps) == st;
    NewOk(st.fast, st.initial, st.max);
    RunKeeps(New(st.fast, st.initial, st.max), steps);
  }

  /** Permits are conserved in every state, also in the gap between a grant and its return;
      so the value stays between zero and the maximum, and no `release()`, in a handler or by
      a client that holds a permit, raises. */
  lemma PermitsAreConserved(st: State, step: Step)
    requires Reachable(st)
    ensures st.value + st.held + |GrantedCalls(st.calls)| == st.initial
    ensures 0 <= st.value && (st.max.Some? ==> st.value <= st.max.value)
    ensures Enabled(st, step) ==> Next(st, step).1 !in {TooMany, InvalidState}
  {
    ReachableOk(st);
    if Enabled(st, step) {
      StepKeeps(st, step);
    }
  }

  /** Every permit is held or granted. */
  predicate NoneLeft(st: State) {
    st.held + |GrantedCalls(st.calls)| == st.initial
  }

  /** A result `Acquired` means one more permit held, `release()` one less, and nothing else
      changes how many are held. */
  lemma HeldMeans(st: State, step: Step)
    requires Reachable(st) && Enabled(st, step)
    ensures var (n, r) := Next(st, step);
            && (r == Acquired ==> n.held == st.held + 1)
            && (step.DoRelease? ==> r == Released && n.held == st.held - 1)
            && (r != Acquired && !step.DoRelease? ==> n.held == st.held)
  {
    ReachableOk(st);
    StepKeeps(st, step);
    if step.DoResume? {
      ResumeMeans(st, step.op);
    }
  }

  /** When each result of `acquire()` comes: with a permit left and nobody in the queue it is
      taken, at once or after a yield, unless the scope is cancelled, which changes nothing;
      otherwise the call gets the last place in the queue. */
  lemma AcquireMeans(st: State, me: Task, cancelled: bool)
    requires Reachable(st) && Enabled(st, DoAcquire(me, cancelled))
    ensures var (n, r) := Next(st, DoAcquire(me, cancelled));
            var open := !NoneLeft(st) && st.queue == [];
            && (r == Interrupted <==> open && cancelled)
            && (r == Acquired <==> open && !cancelled && st.fast)
            && (r.Blocked? <==> !(open && (cancelled || st.fast)))
            && (r == Interrupted ==> n == st)
            && (open && !cancelled ==>
                  n.granted != [] && n.granted[|n.granted| - 1] < n.next && |n.granted| == |st.granted| + 1)
            && (r.Blocked? ==> r.op !in st.calls && r.op in n.calls)
            && (r.Blocked? && open ==>
                  Granted(n.calls[r.op]) && n.queue == [] && MayResume(n.calls[r.op].task) && n.value == st.value - 1)
            && (r.Blocked? && !open ==>
                  && n.queue == st.queue + [r.op] && n.value == st.value && !Granted(n.calls[r.op])
                  && n.calls[r.op].task.waiter == if me.mustCancel then WaiterCancelled else Pending)
  {
    ReachableOk(st);
    assert st.next in st.calls ==> CallAt(st, st.next);
  }

  /** `acquire_nowait()` gives a permit iff one is left. */
  lemma AcquireNowaitMeans(st: State)
    requires Reachable(st)
    ensures var (n, r) := Next(st, DoAcquireNowait);
            && (r == WouldBlock <==> NoneLeft(st))
            && (r == Acquired <==> !NoneLeft(st))
            && (r == WouldBlock ==> n == st)
            && (r == Acquired ==> n.value == st.value - 1 && n.queue == st.queue && n.calls == st.calls)
  {
    ReachableOk(st);
  }

  /** Without regard to who holds what, `release()` raises iff the value is at its maximum, and
      then changes nothing. */
  lemma ReleaseRaises(st: State)
    requires Reachable(st)
    ensures Release(st).1 == TooMany <==> st.max == Some(st.value)
    ensures Release(st).1 == TooMany ==> Release(st).0 == st
    ensures Release(st).1 != TooMany ==> Release(st).1 == Released
  {
    ReachableOk(st);
    var k := FirstLive(st.queue, st.calls, 0);
    FirstIsLive(st.queue, st.calls, 0);
    if k < |st.queue| {
      assert st.queue[k] in st.queue && CallAt(st, st.queue[k]);
    }
  }

  /** `release()` by a client passes its permit on. */
  lemma ReleaseMeans(st: State)
    requires Reachable(st) && Enabled(st, DoRelease)
    ensures PermitPassed(st, Next(st, DoRelease).0)
  {
    ReachableOk(st);
    var m := st.(held := st.held - 1);
    forall x | x in m.calls
      ensures CallAt(m, x)
    {
      assert CallAt(st, x);
    }
    ReleasePasses(m);
  }

  /** What a released permit does: it goes to the oldest live waiter, or back to the value. */
  ghost predicate PermitPassed(st: State, n: State) {
    if forall x :: x in st.queue ==> x in st.calls && st.calls[x].task.waiter == WaiterCancelled
    then n.value == st.value + 1 && n.calls == st.calls && n.queue == st.queue
    else
      && n.value == st.value
      && exists w :: w in st.queue && w in st.calls && st.calls[w].task.waiter == Pending
           && n.calls == st.calls[w := st.calls[w].(task := Woken(st.calls[w].task))]
           && n.queue == Without(st.queue, w)
           && forall x :: x in st.queue && x < w ==>
                x in st.calls && st.calls[x].task.waiter == WaiterCancelled
  }

  lemma ReleasePasses(st: State)
    requires OkBut(st, 1)
    ensures PermitPassed(st, Release(st).0) && Release(st).0.held == st.held
  {
    ReleaseKeeps(st);
    var n := Release(st).0;
    var k := FirstLive(st.queue, st.calls, 0);
    FirstIsLive(st.queue, st.calls, 0);
    if k < |st.queue| {
      var w := st.queue[k];
      assert w in st.queue && CallAt(st, w);
      forall x | x in st.queue && x < w
        ensures x in st.calls && st.calls[x].task.waiter == WaiterCancelled
      {
        var j :| 0 <= j < |st.queue| && st.queue[j] == x;
        assert j < k;
      }
      assert n.calls == st.calls[w := st.calls[w].(task := Woken(st.calls[w].task))];
    }
  }

  /** A call of `acquire()` returns with a permit iff no cancellation reached it. One that is
      cancelled passes a permit on iff it was granted one. */
  lemma ResumeMeans(st: State, op: CallId)
    requires Reachable(st) && Enabled(st, DoResume(op))
    ensures var (n, r) := Next(st, DoResume(op));
            var gone := st.(calls := st.calls - {op}, queue := Without(st.queue, op));
            && (r == Acquired <==> !IsInterrupted(st.calls[op].task))
            && (r == Acquired ==> n == gone.(held := st.held + 1) && Granted(st.calls[op]))
            && (r != Acquired ==> r == Interrupted && n.held == st.held)
            && (r != Acquired && Granted(st.calls[op]) ==> PermitPassed(gone, n))
            && (r != Acquired && !Granted(st.calls[op]) ==> n == gone)
  {
    ReachableOk(st);
    assert CallAt(st, op);
    ResumeKeeps(st, op);
    GoneKeeps(st, op);
    WithoutAbsent(st.queue, op);
    if IsInterrupted(st.calls[op].task) && Granted(st.calls[op]) {
      ReleasePasses(st.(calls := st.calls - {op}, queue := Without(st.queue, op)));
    }
  }

  /** Without native cancellation a granted call always returns with its permit. */
  lemma GrantedReturns(st: State, op: CallId)
    requires Reachable(st) && op in st.calls && Granted(st.calls[op])
    ensures Enabled(st, DoResume(op))
    ensures Next(st, DoResume(op)).1 == Acquired <==> !st.calls[op].task.mustCancel
    ensures st.calls[op].task.native == 0 ==> Next(st, DoResume(op)).1 == Acquired
  {
    ReachableOk(st);
    assert CallAt(st, op);
    ResumeKeeps(st, op);
  }

  /** Calls of `acquire()` are granted permits in the order in which they were made. */
  lemma GrantedInOrder(st: State, op: CallId)
    requires Reachable(st)
    ensures Rising(st.granted)
    ensures op in st.calls && st.calls[op].task.waiter == Pending ==>
              forall a :: a in st.granted ==> a < op
  {
    ReachableOk(st);
    assert op in st.calls ==> CallAt(st, op);
  }

  // ----- a waiter beside a free permit -----

  predicate Stranded(st: State) {
    st.value > 0 && exists op :: op in st.calls && st.calls[op].task.waiter == Pending
  }

  lemma ReleaseStrandsNobody(st: State)
    requires OkBut(st, 1) && !Stranded(st)
    ensures !Stranded(Release(st).0)
  {
    ReleasePasses(st);
    var n := Release(st).0;
    if n.value > st.value {
      forall x | x in n.calls
        ensures n.calls[x].task.waiter != Pending
      {
        assert CallAt(st, x);
      }
    }
  }

  /** The exact step that leaves a waiter beside a free permit: a call of `acquire()` that
      finds a permit but cancelled waiters still in the queue. */
  lemma StrandsOnlyIf(st: State, step: Step)
    requires Reachable(st) && Enabled(st, step) && !Stranded(st)
    ensures Stranded(Next(st, step).0) <==>
              step.DoAcquire? && st.value > 0 && st.queue != [] && !step.me.mustCancel
  {
    ReachableOk(st);
    var n := Next(st, step).0;
    match step
    case DoAcquire(me, c) =>
      if st.value > 0 && st.queue != [] && !me.mustCancel {
        assert st.next in n.calls && n.calls[st.next].task.waiter == Pending;
      }
    case DoAcquireNowait =>
    case DoResume(op) =>
      assert CallAt(st, op);
      GoneKeeps(st, op);
      WithoutAbsent(st.queue, op);
      if IsInterrupted(st.calls[op].task) && Granted(st.calls[op]) {
        ReleaseStrandsNobody(st.(calls := st.calls - {op}, queue := Without(st.queue, op)));
      }
    case DoRelease =>
      var m := st.(held := st.held - 1);
      forall x | x in m.calls
        ensures CallAt(m, x)
      {
        assert CallAt(st, x);
      }
      ReleaseStrandsNobody(m);
    case DoDeliver(op) =>
    case DoNative(op) =>
  }

  lemma RunsBack(st: State, step: Step, steps: seq<Step>)
    requires Enabled(st, step) && Runs(Next(st, step).0, steps)
    ensures Runs(st, [step] + steps)
    ensures After(st, [step] + steps) == After(Next(st, step).0, steps)
  {
    assert ([step] + steps)[1..] == steps;
  }

  /** The one permit is held, call 1 queues and is cancelled, the permit comes back, and call 2
      finds it but queues behind call 1. */
  lemma AcquireCanStrand() returns (st: State)
    ensures Reachable(st) && Stranded(st)
  {
    var me := Task(Running, NoWaiter, false, 0, 0, 0);
    var s0 := New(true, 1, None);
    var s1 := Acquire(s0, me, false).0;
    var s2 := Acquire(s1, me, false).0;
    var s3 := ChangeTask(s2, 1, Delivered(s2.calls[1].task));
    assert FirstLive(s3.queue, s3.calls, 0) == 1;
    var s4 := Next(s3, DoRelease).0;
    st := Acquire(s4, me, false).0;
    RunsBack(s4, DoAcquire(me, false), []);
    var steps := [DoAcquire(me, false)] + [];
    RunsBack(s3, DoRelease, steps);
    RunsBack(s2, DoDeliver(1), [DoRelease] + steps);
    RunsBack(s1, DoAcquire(me, false), [DoDeliver(1)] + ([DoRelease] + steps));
    steps := [DoAcquire(me, false)] + ([DoDeliver(1)] + ([DoRelease] + steps));
    RunsBack(s0, DoAcquire(me, false), steps);
    assert st.calls[2].task.waiter == Pending;
  }
}
