/**
 The class `Semaphore`. Every method changes the semaphore as the functions of
 `SemaphoreState` say; the coroutine `acquire()` is split where it blocks.
 */
module Semaphores {
  import opened Wrappers
  import opened Tasks
  import opened Sequences
  import opened Waiters
  import opened SemaphoreState
  import opened SemaphoreRuns

  class Semaphore {
    const fastAcquire: bool
    const initialValue: nat
    const maxValue: Option<nat>
    var value: int
    var waiters: seq<CallId>
    var calls: map<CallId, Call>
    var next: CallId
    ghost var held: nat
    ghost var granted: seq<CallId>

    ghost function View(): State
      reads this
    {
      State(fastAcquire, initialValue, maxValue, value, waiters, calls, held, next, granted)
    }

    ghost predicate Valid()
      reads this
    {
      Ok(View())
    }

    constructor (fast: bool, initial: nat, max: Option<nat>)
      requires MayCreate(initial, max)
      ensures Valid() && View() == New(fast, initial, max)
    {
      fastAcquire, initialValue, maxValue := fast, initial, max;
      value, waiters, calls, next := initial, [], map[], 0;
      held, granted := 0, [];
      new;
      NewOk(fast, initial, max);
    }

    /** `acquire()` up to the point where it returns or blocks. */
    method Acquire(me: Task, cancelled: bool) returns (r: Result)
      requires Valid() && Enabled(View(), DoAcquire(me, cancelled))
      modifies this
      ensures Valid() && (View(), r) == SemaphoreState.Acquire(old(View()), me, cancelled)
    {
      AcquireKeeps(View(), me, cancelled);
      if value > 0 && waiters == [] {
        if cancelled {
          return Interrupted;
        }
        value := value - 1;
        granted := granted + [next];
        next := next + 1;
        if !fastAcquire {
          calls := calls[next - 1 := Call(Yielding, Suspended(me, false), next - 1)];
          return Blocked(next - 1);
        }
        held := held + 1;
        return Acquired;
      }
      waiters := waiters + [next];
      calls := calls[next := Call(Queued, Suspended(me, true), next)];
      next := next + 1;
      r := Blocked(next - 1);
    }

    /** `acquire()` after its yield or its future. */
    method Resume(op: CallId) returns (r: Result)
      requires Valid() && Enabled(View(), DoResume(op))
      modifies this
      ensures Valid() && (View(), r) == SemaphoreState.Resume(old(View()), op)
    {
      ResumeKeeps(View(), op);
      assert CallAt(View(), op);
      assert op !in waiters ==> forall w :: w in waiters ==> w in calls - {op};
      var c := calls[op];
      calls := calls - {op};
      if !IsInterrupted(c.task) {
        held := held + 1;
        return Acquired;
      }
      if c.phase.Queued? && op in waiters {
        waiters := Without(waiters, op);
      } else {
        r := GiveBack();
        if r != Released {
          return;
        }
      }
      r := Interrupted;
    }

    method AcquireNowait() returns (r: Result)
      requires Valid()
      modifies this
      ensures Valid() && (View(), r) == SemaphoreState.AcquireNowait(old(View()))
    {
      AcquireNowaitKeeps(View());
      if value == 0 {
        return WouldBlock;
      }
      value := value - 1;
      held := held + 1;
      r := Acquired;
    }

    /** The body of `release()`, for client code and for the handlers of `acquire()`. */
    method GiveBack() returns (r: Result)
      requires forall w :: w in waiters ==> w in calls
      modifies this`value, this`waiters, this`calls, this`granted
      ensures (View(), r) == SemaphoreState.Release(old(View()))
    {
      if maxValue.Some? && value == maxValue.value {
        return TooMany;
      }
      ghost var st := View();
      var i := 0;
      while i < |waiters|
        invariant i <= |waiters| && View() == st
        invariant FirstLive(waiters, calls, 0) == FirstLive(waiters, calls, i)
      {
        var w := waiters[i];
        assert w in waiters;
        var c := calls[w];
        if c.task.waiter != WaiterCancelled {
          if c.task.waiter != Pending {
            return InvalidState;
          }
          calls := calls[w := c.(task := Woken(c.task))];
          waiters := Without(waiters, w);
          granted := granted + [w];
          return Released;
        }
        i := i + 1;
      }
      value := value + 1;
      r := Released;
    }

    /** `release()` by a client that holds a permit. */
    method Release() returns (r: Result)
      requires Valid() && held > 0
      modifies this
      ensures Valid() && (View(), r) == SemaphoreState.Release(old(View()).(held := old(held) - 1))
    {
      ClientReleaseKeeps(View());
      held := held - 1;
      r := GiveBack();
    }
  }
}
