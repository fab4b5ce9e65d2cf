/** The queues of locks and semaphores: calls of `acquire()` that await their futures. */
module Waiters {
  import opened Tasks

  /** A call of `acquire()` either yields once after it took a free lock, or awaits its future. */
  datatype Phase = Yielding | Queued

  datatype Call = Call(phase: Phase, task: Task, ticket: nat)

  type Calls = map<nat, Call>

  /** The first waiter from position `i` on whose future is not cancelled. */
  function FirstLive(queue: seq<nat>, calls: Calls, i: nat): (k: nat)
    requires i <= |queue|
    ensures i <= k <= |queue|
    decreases |queue| - i
  {
    if i == |queue| then i
    else if queue[i] in calls && calls[queue[i]].task.waiter == WaiterCancelled
    then FirstLive(queue, calls, i + 1)
    else i
  }

  lemma {:induction false} FirstIsLive(queue: seq<nat>, calls: Calls, i: nat)
    requires i <= |queue|
    ensures var k := FirstLive(queue, calls, i);
            && (forall j :: i <= j < k ==>
                  queue[j] in calls && calls[queue[j]].task.waiter == WaiterCancelled)
            && (k < |queue| && queue[k] in calls ==>
                  calls[queue[k]].task.waiter != WaiterCancelled)
    decreases |queue| - i
  {
    if i < |queue| && FirstLive(queue, calls, i) != i {
      FirstIsLive(queue, calls, i + 1);
    }
  }
}
