/**
 The lock as a value: its owner, its queue of waiters and the calls of `acquire()` that have
 not returned. Tickets number the calls that took the lock or joined the queue.
 */
module LockState {
  import opened Wrappers
  import opened Tasks
  import opened Sequences
  import opened Waiters

  /** `holders` are the tasks that returned from `acquire()` and did not release. `acquired`
      lists the tickets in the order in which they became the owner. */
  datatype State = State(
    fast: bool,
    owner: Option<TaskId>,
    queue: seq<TaskId>,
    calls: map<TaskId, Call>,
    holders: set<TaskId>,
    nextTicket: nat,
    acquired: seq<nat>)

  datatype Result =
    | Acquired
    | Released
    | Blocked
    | WouldBlock
    | Interrupted
    | Misuse
    | InvalidState

  function New(fast: bool): State {
    State(fast, None, [], map[], {}, 0, [])
  }

  // ----- the operations -----

  /** `release()` called by `t`. */
  function Release(st: State, t: TaskId): (State, Result) {
    if st.owner != Some(t) then (st, Misuse)
    else
      var k := FirstLive(st.queue, st.calls, 0);
      if k == |st.queue| then (st.(owner := None), Released)
      else
        var w := st.queue[k];
        if w !in st.calls || st.calls[w].task.waiter != Pending
        then (st.(owner := Some(w)), InvalidState)
        else
          var c := st.calls[w];
          (st.(owner := Some(w), calls := st.calls[w := c.(task := Woken(c.task))],
               acquired := st.acquired + [c.ticket]),
           Released)
  }

  /** A free lock without waiters goes to `t`. */
  function Take(st: State, t: TaskId): State {
    st.(owner := Some(t), acquired := st.acquired + [st.nextTicket], nextTicket := st.nextTicket + 1)
  }

  /** `acquire()` called by `t`, up to the point where it returns or blocks. `me` is the task's
      record and `cancelled` says that its current scope is effectively cancelled. */
  function Acquire(st: State, t: TaskId, me: Task, cancelled: bool): (State, Result) {
    if st.owner == None && st.queue == [] then
      if cancelled then (st, Interrupted)
      else
        var n := Take(st, t);
        if st.fast then (n.(holders := n.holders + {t}), Acquired)
        else (n.(calls := n.calls[t := Call(Yielding, Suspended(me, false), st.nextTicket)]), Blocked)
    else if st.owner == Some(t) then (st, Misuse)
    else
      (st.(queue := st.queue + [t],
           calls := st.calls[t := Call(Queued, Suspended(me, true), st.nextTicket)],
           nextTicket := st.nextTicket + 1),
       Blocked)
  }

  /** The rest of `acquire()`, when its task runs again. */
  function Resume(st: State, t: TaskId): (State, Result)
    requires t in st.calls
  {
    var c := st.calls[t];
    var gone := st.(calls := st.calls - {t}, queue := Without(st.queue, t));
    if !IsInterrupted(c.task) then (gone.(holders := gone.holders + {t}), Acquired)
    else if c.phase.Queued? && gone.owner != Some(t) then (gone, Interrupted)
    else
      var (n, r) := Release(gone, t);
      (n, if r == Released then Interrupted else r)
  }

  /** `acquire_nowait()`. */
  function AcquireNowait(st: State, t: TaskId): (State, Result) {
    if st.owner == None && st.queue == [] then
      (Take(st, t).(holders := st.holders + {t}), Acquired)
    else if st.owner == Some(t) then (st, Misuse)
    else (st, WouldBlock)
  }

  /** `release()` called by client code in task `t`. */
  function ClientRelease(st: State, t: TaskId): (State, Result) {
    var (n, r) := Release(st, t);
    (n.(holders := n.holders - {t}), r)
  }

  // ----- runs -----

  datatype Step =
    | DoAcquire(t: TaskId, me: Task, cancelled: bool)
    | DoAcquireNowait(t: TaskId)
    | DoResume(t: TaskId)
    | DoRelease(t: TaskId)
    | DoDeliver(t: TaskId)
    | DoNative(t: TaskId)

  /** A task with a pending call runs nothing else. The yield of a fast acquisition is shielded
      from scopes. */
  predicate Enabled(st: State, step: Step) {
    match step
    case DoAcquire(t, me, c) => t !in st.calls && (me.mustCancel ==> me.native > 0)
    case DoAcquireNowait(t) => t !in st.calls
    case DoResume(t) => t in st.calls && MayResume(st.calls[t].task)
    case DoRelease(t) => t !in st.calls
    case DoDeliver(t) => t in st.calls && st.calls[t].phase.Queued?
    case DoNative(t) => t in st.calls
  }

  function ChangeTask(st: State, t: TaskId, task: Task): State
    requires t in st.calls
  {
    st.(calls := st.calls[t := st.calls[t].(task := task)])
  }

  function Next(st: State, step: Step): (State, Result)
    requires Enabled(st, step)
  {
    match step
    case DoAcquire(t, me, c) => Acquire(st, t, me, c)
    case DoAcquireNowait(t) => AcquireNowait(st, t)
    case DoResume(t) => Resume(st, t)
    case DoRelease(t) => ClientRelease(st, t)
    case DoDeliver(t) => (ChangeTask(st, t, Delivered(st.calls[t].task)), Blocked)
    case DoNative(t) => (ChangeTask(st, t, NativelyCancelled(st.calls[t].task)), Blocked)
  }

  predicate Runs(st: State, steps: seq<Step>)
    decreases |steps|
  {
    steps == [] || (Enabled(st, steps[0]) && Runs(Next(st, steps[0]).0, steps[1..]))
  }

  function After(st: State, steps: seq<Step>): State
    requires Runs(st, steps)
    decreases |steps|
  {
    if steps == [] then st else After(Next(st, steps[0]).0, steps[1..])
  }

  // ----- what every state keeps -----

  /** `t` was given the lock and has not passed it on. */
  predicate Granted(st: State, t: TaskId) {
    || t in st.holders
    || (t in st.calls && (st.calls[t].phase.Yielding? || st.calls[t].task.waiter == HasResult))
  }

  /** `leaving` is the task that is inside the `release()` of a cancellation handler. */
  ghost predicate OwnerAt(st: State, leaving: Option<TaskId>, t: TaskId) {
    st.owner == Some(t) <==> Granted(st, t) || leaving == Some(t)
  }

  ghost predicate CallAt(st: State, t: TaskId)
    requires t in st.calls
  {
    var c := st.calls[t];
    && (c.phase.Queued? <==> t in st.queue)
    && (c.phase.Queued? <==> c.task.waiter != NoWaiter)
    && t !in st.holders
    && (c.task.mustCancel ==> c.task.native > 0)
    && c.ticket < st.nextTicket
    && (c.task.waiter == Pending ==>
          !c.task.mustCancel && forall a :: a in st.acquired ==> a < c.ticket)
    && (st.owner == Some(t) ==> st.acquired != [] && st.acquired[|st.acquired| - 1] == c.ticket)
  }

  /** The queue is in the order in which its calls joined it. */
  ghost predicate QueueOk(st: State) {
    && (forall t :: t in st.queue ==> t in st.calls)
    && (forall i, j :: 0 <= i < j < |st.queue| ==>
          st.calls[st.queue[i]].ticket < st.calls[st.queue[j]].ticket)
  }

  ghost predicate OkBut(st: State, leaving: Option<TaskId>) {
    && QueueOk(st)
    && Rising(st.acquired) && (forall a :: a in st.acquired ==> a < st.nextTicket)
    && (forall t {:trigger OwnerAt(st, leaving, t)} :: OwnerAt(st, leaving, t))
    && (forall t {:trigger CallAt(st, t)} :: t in st.calls ==> CallAt(st, t))
  }

  ghost predicate Ok(st: State) {
    OkBut(st, None)
  }
}
