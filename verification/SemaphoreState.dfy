/**
 The semaphore as a value: its counter, its queue of waiters, the calls of `acquire()` that
 have not returned and the permits that clients hold. A call is named by its number.
 */
module SemaphoreState {
  import opened Wrappers
  import opened Tasks
  import opened Sequences
  import opened Waiters

  type CallId = nat

  /** `granted` lists the calls of `acquire()` that were given a permit, in that order. */
  datatype State = State(
    fast: bool,
    initial: nat,
    max: Option<nat>,
    value: int,
    queue: seq<CallId>,
    calls: map<CallId, Call>,
    held: nat,
    next: CallId,
    granted: seq<CallId>)

  datatype Result =
    | Acquired
    | Released
    | Blocked(op: CallId)
    | WouldBlock
    | Interrupted
    | TooMany
    | InvalidState

  /** The constructor refuses an initial value above the maximum. */
  predicate MayCreate(initial: nat, max: Option<nat>) {
    max.Some? ==> initial <= max.value
  }

  function New(fast: bool, initial: nat, max: Option<nat>): State {
    State(fast, initial, max, initial, [], map[], 0, 0, [])
  }

  // ----- the operations -----

  /** `release()`; the maximum is checked first. */
  function Release(st: State): (State, Result) {
    if st.max.Some? && st.value == st.max.value then (st, TooMany)
    else
      var k := FirstLive(st.queue, st.calls, 0);
      if k == |st.queue| then (st.(value := st.value + 1), Released)
      else
        var w := st.queue[k];
        if w !in st.calls || st.calls[w].task.waiter != Pending then (st, InvalidState)
        else
          var c := st.calls[w];
          (st.(queue := Without(st.queue, w), calls := st.calls[w := c.(task := Woken(c.task))],
               granted := st.granted + [w]),
           Released)
  }

  /** `acquire()` called by a task with record `me`, up to the point where it returns or
      blocks. `cancelled` says that the task's scope is effectively cancelled. */
  function Acquire(st: State, me: Task, cancelled: bool): (State, Result) {
    var op := st.next;
    if st.value > 0 && st.queue == [] then
      if cancelled then (st, Interrupted)
      else
        var n := st.(value := st.value - 1, granted := st.granted + [op], next := op + 1);
        if st.fast then (n.(held := n.held + 1), Acquired)
        else (n.(calls := n.calls[op := Call(Yielding, Suspended(me, false), op)]), Blocked(op))
    else
      (st.(queue := st.queue + [op],
           calls := st.calls[op := Call(Queued, Suspended(me, true), op)],
           next := op + 1),
       Blocked(op))
  }

  /** The rest of `acquire()`, when its task runs again. */
  function Resume(st: State, op: CallId): (State, Result)
    requires op in st.calls
  {
    var c := st.calls[op];
    var gone := st.(calls := st.calls - {op});
    if !IsInterrupted(c.task) then (gone.(held := gone.held + 1), Acquired)
    else if c.phase.Queued? && op in gone.queue then
      (gone.(queue := Without(gone.queue, op)), Interrupted)
    else
      var (n, r) := Release(gone);
      (n, if r == Released then Interrupted else r)
  }

  /** `acquire_nowait()`, which does not look at the queue. */
  function AcquireNowait(st: State): (State, Result) {
    if st.value == 0 then (st, WouldBlock)
    else (st.(value := st.value - 1, held := st.held + 1), Acquired)
  }

  // ----- runs -----

  datatype Step =
    | DoAcquire(me: Task, cancelled: bool)
    | DoAcquireNowait
    | DoResume(op: CallId)
    | DoRelease
    | DoDeliver(op: CallId)
    | DoNative(op: CallId)

  /** Clients release only what they hold. The yield of a fast acquisition is shielded from
      scopes. */
  predicate Enabled(st: State, step: Step) {
    match step
    case DoAcquire(me, c) => me.mustCancel ==> me.native > 0
    case DoAcquireNowait => true
    case DoResume(op) => op in st.calls && MayResume(st.calls[op].task)
    case DoRelease => st.held > 0
    case DoDeliver(op) => op in st.calls && st.calls[op].phase.Queued?
    case DoNative(op) => op in st.calls
  }

  function ChangeTask(st: State, op: CallId, task: Task): State
    requires op in st.calls
  {
    st.(calls := st.calls[op := st.calls[op].(task := task)])
  }

  function Next(st: State, step: Step): (State, Result)
    requires Enabled(st, step)
  {
    match step
    case DoAcquire(me, c) => Acquire(st, me, c)
    case DoAcquireNowait => AcquireNowait(st)
    case DoResume(op) => Resume(st, op)
    case DoRelease => Release(st.(held := st.held - 1))
    case DoDeliver(op) => (ChangeTask(st, op, Delivered(st.calls[op].task)), Blocked(op))
    case DoNative(op) => (ChangeTask(st, op, NativelyCancelled(st.calls[op].task)), Blocked(op))
  }

  predicate Runs(st: State, steps: seq<Step>)
    decreases |steps|
  {
    steps == [] || (Enabled(st, steps[0]) && Runs(Next(st, steps[0]).0, steps[1..]))
  }

  function After(st: State, steps: seq<Step>): State
    requires Runs(st, steps)
    decreases |steps|
  {
    if steps == [] then st else After(Next(st, steps[0]).0, steps[1..])
  }

  // ----- what every state keeps -----

  /** A call that was given a permit and has not resumed. */
  predicate Granted(c: Call) {
    c.phase.Yielding? || c.task.waiter == HasResult
  }

  function GrantedCalls(calls: map<CallId, Call>): set<CallId> {
    set op | op in calls && Granted(calls[op])
  }

  ghost predicate CallAt(st: State, op: CallId)
    requires op in st.calls
  {
    var c := st.calls[op];
    && op < st.next
    && (op in st.queue <==> !Granted(c))
    && (Granted(c) ==> op in st.granted)
    && (c.phase.Queued? <==> c.task.waiter != NoWaiter)
    && (c.task.mustCancel ==> c.task.native > 0)
    && (c.task.waiter == Pending ==> !c.task.mustCancel && forall a :: a in st.granted ==> a < op)
  }

  /** Permits are conserved: `loose` is the one that a cancellation handler or a client is
      about to release. */
  ghost predicate OkBut(st: State, loose: nat) {
    && st.value >= 0
    && st.value + st.held + |GrantedCalls(st.calls)| + loose == st.initial
    && MayCreate(st.initial, st.max)
    && (forall op :: op in st.queue ==> op in st.calls)
    && Rising(st.queue)
    && Rising(st.granted) && (forall a :: a in st.granted ==> a < st.next)
    && (forall op {:trigger CallAt(st, op)} :: op in st.calls ==> CallAt(st, op))
  }

  ghost predicate Ok(st: State) {
    OkBut(st, 0)
  }
}
