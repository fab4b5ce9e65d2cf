/** An asyncio task as a value: what it awaits and which cancellations it has seen. */
module Tasks {
  type TaskId = nat

  /** What a task awaits: nothing (it is scheduled), or a future in one of its states. */
  datatype Waiter = NoWaiter | Pending | HasResult | WaiterCancelled

  datatype Life = Created | Running | Returned

  /** `requests` is `task.cancelling()`. `native` counts the calls of `task.cancel()` that no
      scope made, `foreign` those made by scopes that the task does not host. */
  datatype Task = Task(
    life: Life, waiter: Waiter, mustCancel: bool, requests: nat, native: nat, foreign: nat)

  /** `asyncio.Task.cancel()` on a task that has not finished. */
  function Struck(t: Task): (r: Task)
    ensures r.mustCancel || r.waiter == WaiterCancelled
    ensures r.requests == t.requests + 1
  {
    if t.waiter == Pending then t.(requests := t.requests + 1, waiter := WaiterCancelled)
    else t.(requests := t.requests + 1, mustCancel := true)
  }

  /** A task that blocks on a future while a cancellation is due cancels the future. */
  function Suspended(t: Task, onFuture: bool): Task {
    if !onFuture then t.(waiter := NoWaiter)
    else if t.mustCancel then t.(waiter := WaiterCancelled, mustCancel := false)
    else t.(waiter := Pending)
  }

  /** A task that starts to await a future, with the requests it already has. */
  function Waiting(requests: nat): Task {
    Task(Running, Pending, false, requests, 0, 0)
  }

  /** `future.set_result()` or `event.set()` on the future a task awaits, unless it is done. */
  function Woken(t: Task): Task {
    if t.waiter == Pending then t.(waiter := HasResult) else t
  }

  /** One delivery of a scope cancellation to a blocked task. */
  function Delivered(t: Task): Task {
    if !t.mustCancel && t.waiter in {NoWaiter, Pending} then Struck(t) else t
  }

  /** `task.cancel()` called by anyone but a scope. */
  function NativelyCancelled(t: Task): Task {
    Struck(t).(native := t.native + 1)
  }

  predicate MayResume(t: Task) {
    t.waiter != Pending
  }

  /** A task that runs again finds a `CancelledError` in place of its result. */
  predicate IsInterrupted(t: Task) {
    t.mustCancel || t.waiter == WaiterCancelled
  }
}
