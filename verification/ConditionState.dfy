/**
 The condition variable on top of its lock. A call of `wait()` that has released the lock first
 awaits its event and then, shielded from scopes, acquires the lock again. Calls are named by
 their events.
 */
module ConditionState {
  import opened Wrappers
  import opened Tasks
  import opened Sequences
  import L = LockState

  type EventId = nat

  /** `set` is the event's flag. While the call awaits the event, `task` is the record of its
      task; afterwards the lock keeps that record. `failed` says that a `CancelledError` is on
      its way out. */
  datatype WaitCall = WaitCall(host: TaskId, isSet: bool, task: Task, reacquiring: bool, failed: bool)

  datatype State = State(
    lock: L.State,
    ownerTask: Option<TaskId>,
    entering: set<TaskId>,
    waiters: seq<EventId>,
    waits: map<EventId, WaitCall>,
    next: EventId)

  /** `Notified` and `Cancelled` are the two ways out of `wait()` with the lock; `Unlocked` is
      the way out without it. `NotWaiting` stands for the `ValueError` of a failed removal. */
  datatype Result =
    | Lock(result: L.Result)
    | Blocked(event: EventId)
    | Notified
    | Cancelled
    | Unlocked
    | Misuse
    | NotWaiting
    | Done

  function New(fast: bool): State {
    State(L.New(fast), None, {}, [], map[], 0)
  }

  // ----- the operations -----

  /** `acquire()` up to the point where it returns or blocks. */
  function Acquire(st: State, t: TaskId, me: Task, cancelled: bool): (State, Result) {
    var (lock, r) := L.Acquire(st.lock, t, me, cancelled);
    (st.(lock := lock,
         ownerTask := if r == L.Acquired then Some(t) else st.ownerTask,
         entering := if r == L.Blocked then st.entering + {t} else st.entering),
     Lock(r))
  }

  function AcquireNowait(st: State, t: TaskId): (State, Result) {
    var (lock, r) := L.AcquireNowait(st.lock, t);
    (st.(lock := lock, ownerTask := if r == L.Acquired then Some(t) else st.ownerTask), Lock(r))
  }

  /** The rest of a blocked `acquire()` of the condition, or of the lock itself. */
  function ResumeAcquire(st: State, t: TaskId): (State, Result)
    requires t in st.lock.calls
  {
    var (lock, r) := L.Resume(st.lock, t);
    (st.(lock := lock,
         ownerTask := if r == L.Acquired && t in st.entering then Some(t) else st.ownerTask,
         entering := st.entering - {t}),
     Lock(r))
  }

  /** `release()`; it leaves `_owner_task` as it is. */
  function Release(st: State, t: TaskId): (State, Result) {
    var (lock, r) := L.ClientRelease(st.lock, t);
    (st.(lock := lock), Lock(r))
  }

  /** `event.set()`. */
  function SetEvent(st: State, e: EventId): State {
    if e in st.waits then
      var w := st.waits[e];
      st.(waits := st.waits[e := w.(isSet := true, task := Woken(w.task))])
    else st
  }

  /** The loop of `notify(n)`. */
  function Notify(st: State, n: int): State
    decreases n
  {
    if n <= 0 || st.waiters == [] then st
    else Notify(SetEvent(st.(waiters := st.waiters[1..]), st.waiters[0]), n - 1)
  }

  function CheckedNotify(st: State, t: TaskId, n: int): (State, Result) {
    if st.ownerTask != Some(t) then (st, Misuse) else (Notify(st, n), Done)
  }

  function NotifyAll(st: State, t: TaskId): (State, Result) {
    if st.ownerTask != Some(t) then (st, Misuse) else (Notify(st, |st.waiters|), Done)
  }

  /** `wait()` after its checkpoint, up to the point where it blocks. If the caller does not
      hold the lock, the event stays in the queue. */
  function Wait(st: State, t: TaskId): (State, Result) {
    var queued := st.(waiters := st.waiters + [st.next], next := st.next + 1);
    var (lock, r) := L.ClientRelease(st.lock, t);
    if r != L.Released then (queued.(lock := lock), Lock(r))
    else
      (queued.(lock := lock, waits := st.waits[st.next := WaitCall(t, false, Waiting(0), false, false)]),
       Blocked(st.next))
  }

  /** The shielded `acquire()` at the end of `wait()`. */
  function Reacquire(st: State, e: EventId, failed: bool): (State, Result)
    requires e in st.waits
  {
    var t := st.waits[e].host;
    var (lock, r) := L.Acquire(st.lock, t, Task(Running, NoWaiter, false, 0, 0, 0), false);
    if r == L.Acquired then Leave(st.(lock := lock), e, failed)
    else if r == L.Blocked then
      (st.(lock := lock, waits := st.waits[e := st.waits[e].(reacquiring := true, failed := failed)]),
       Blocked(e))
    else (st.(lock := lock, waits := st.waits - {e}), Unlocked)
  }

  /** `wait()` returns or raises with the lock in hand. */
  function Leave(st: State, e: EventId, failed: bool): (State, Result)
    requires e in st.waits
  {
    (st.(ownerTask := Some(st.waits[e].host), waits := st.waits - {e}),
     if failed then Cancelled else Notified)
  }

  /** `wait()` after its event. */
  function ResumeWait(st: State, e: EventId): (State, Result)
    requires e in st.waits
  {
    var w := st.waits[e];
    if IsInterrupted(w.task) && !w.isSet then
      if e in st.waiters then Reacquire(st.(waiters := Without(st.waiters, e)), e, true)
      else (st, NotWaiting)
    else Reacquire(st, e, IsInterrupted(w.task))
  }

  /** `wait()` after its lock became free. */
  function FinishWait(st: State, e: EventId): (State, Result)
    requires e in st.waits && st.waits[e].host in st.lock.calls
  {
    var (lock, r) := L.Resume(st.lock, st.waits[e].host);
    if r == L.Acquired then Leave(st.(lock := lock), e, st.waits[e].failed)
    else (st.(lock := lock, waits := st.waits - {e}), Unlocked)
  }

  // ----- runs -----

  /** `direct` marks an `acquire()` that goes to the lock and not through the condition. */
  datatype Step =
    | DoAcquire(t: TaskId, me: Task, cancelled: bool, direct: bool)
    | DoAcquireNowait(t: TaskId)
    | DoResumeAcquire(t: TaskId)
    | DoRelease(t: TaskId)
    | DoNotify(t: TaskId, n: int)
    | DoNotifyAll(t: TaskId)
    | DoWait(t: TaskId)
    | DoResumeWait(e: EventId)
    | DoFinishWait(e: EventId)
    | DoDeliverLock(t: TaskId)
    | DoDeliverWait(e: EventId)
    | DoNativeLock(t: TaskId)
    | DoNativeWait(e: EventId)

  /** `t` is inside a `wait()` that has released the lock. */
  predicate InWait(st: State, t: TaskId) {
    exists e :: e in st.waits && st.waits[e].host == t
  }

  predicate Free(st: State, t: TaskId) {
    t !in st.lock.calls && !InWait(st, t)
  }

  predicate Enabled(st: State, step: Step) {
    match step
    case DoAcquire(t, me, c, d) => Free(st, t) && L.Enabled(st.lock, L.DoAcquire(t, me, c))
    case DoAcquireNowait(t) => Free(st, t)
    case DoResumeAcquire(t) => !InWait(st, t) && L.Enabled(st.lock, L.DoResume(t))
    case DoRelease(t) => Free(st, t)
    case DoNotify(t, n) => Free(st, t)
    case DoNotifyAll(t) => Free(st, t)
    case DoWait(t) => Free(st, t)
    case DoResumeWait(e) => e in st.waits && !st.waits[e].reacquiring && MayResume(st.waits[e].task)
    case DoFinishWait(e) =>
      e in st.waits && st.waits[e].reacquiring && L.Enabled(st.lock, L.DoResume(st.waits[e].host))
    case DoDeliverLock(t) => !InWait(st, t) && L.Enabled(st.lock, L.DoDeliver(t))
    case DoDeliverWait(e) => e in st.waits && !st.waits[e].reacquiring
    case DoNativeLock(t) => L.Enabled(st.lock, L.DoNative(t))
    case DoNativeWait(e) => e in st.waits && !st.waits[e].reacquiring
  }

  function ChangeTask(st: State, e: EventId, task: Task): State
    requires e in st.waits
  {
    st.(waits := st.waits[e := st.waits[e].(task := task)])
  }

  function LockStep(st: State, step: L.Step): (State, Result)
    requires L.Enabled(st.lock, step)
  {
    var (lock, r) := L.Next(st.lock, step);
    (st.(lock := lock), Lock(r))
  }

  function Next(st: State, step: Step): (State, Result)
    requires Enabled(st, step)
  {
    match step
    case DoAcquire(t, me, c, direct) =>
      if direct then LockStep(st, L.DoAcquire(t, me, c)) else Acquire(st, t, me, c)
    case DoAcquireNowait(t) => AcquireNowait(st, t)
    case DoResumeAcquire(t) => ResumeAcquire(st, t)
    case DoRelease(t) => Release(st, t)
    case DoNotify(t, n) => CheckedNotify(st, t, n)
    case DoNotifyAll(t) => NotifyAll(st, t)
    case DoWait(t) => Wait(st, t)
    case DoResumeWait(e) => ResumeWait(st, e)
    case DoFinishWait(e) => FinishWait(st, e)
    case DoDeliverLock(t) => LockStep(st, L.DoDeliver(t))
    case DoDeliverWait(e) => (ChangeTask(st, e, Delivered(st.waits[e].task)), Done)
    case DoNativeLock(t) => LockStep(st, L.DoNative(t))
    case DoNativeWait(e) => (ChangeTask(st, e, NativelyCancelled(st.waits[e].task)), Done)
  }

  predicate Runs(st: State, steps: seq<Step>)
    decreases |steps|
  {
    steps == [] || (Enabled(st, steps[0]) && Runs(Next(st, steps[0]).0, steps[1..]))
  }

  function After(st: State, steps: seq<Step>): State
    requires Runs(st, steps)
    decreases |steps|
  {
    if steps == [] then st else After(Next(st, steps[0]).0, steps[1..])
  }

  // ----- what every state keeps -----

  /** The event of a blocked call is in the queue iff it is not set. A call that acquires the
      lock again was notified or has failed, and only a native cancellation can interrupt it. */
  ghost predicate WaitAt(st: State, e: EventId)
    requires e in st.waits
  {
    var w := st.waits[e];
    && e < st.next
    && w.host !in st.lock.holders
    && (w.host in st.lock.calls <==> w.reacquiring)
    && (e in st.waiters <==> !w.reacquiring && !w.isSet)
    && (!w.reacquiring ==>
          && w.task.waiter != NoWaiter
          && (w.task.waiter == Pending ==> !w.isSet && !w.task.mustCancel)
          && (w.task.waiter == HasResult ==> w.isSet)
          && (w.task.mustCancel ==> w.task.native > 0))
    && (w.reacquiring ==>
          && (!w.failed ==> w.isSet)
          && (IsInterrupted(st.lock.calls[w.host].task) ==> st.lock.calls[w.host].task.native > 0))
    && (forall f :: f in st.waits && st.waits[f].host == w.host ==> f == e)
  }

  ghost predicate Ok(st: State) {
    && L.Ok(st.lock)
    && Rising(st.waiters) && (forall e :: e in st.waiters ==> e < st.next)
    && (forall e {:trigger WaitAt(st, e)} :: e in st.waits ==> WaitAt(st, e))
  }
}
