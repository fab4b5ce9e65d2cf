/**
 The class `Lock`. Every method changes the lock as the functions of `LockState` say; the
 coroutine `acquire()` is split where it blocks.
 */
module Locks {
  import opened Wrappers
  import opened Tasks
  import opened Sequences
  import opened Waiters
  import opened LockState
  import opened LockRuns

  class Lock {
    const fastAcquire: bool
    var ownerTask: Option<TaskId>
    var waiters: seq<TaskId>
    var calls: map<TaskId, Call>
    var nextTicket: nat
    ghost var holders: set<TaskId>
    ghost var acquired: seq<nat>

    ghost function View(): State
      reads this
    {
      State(fastAcquire, ownerTask, waiters, calls, holders, nextTicket, acquired)
    }

    ghost predicate Valid()
      reads this
    {
      Ok(View())
    }

    constructor (fast: bool)
      ensures Valid() && View() == New(fast)
    {
      fastAcquire := fast;
      ownerTask, waiters, calls, nextTicket := None, [], map[], 0;
      holders, acquired := {}, [];
      new;
      NewOk(fast);
    }

    /** `acquire()` up to the point where it returns or blocks. */
    method Acquire(t: TaskId, me: Task, cancelled: bool) returns (r: Result)
      requires Valid() && Enabled(View(), DoAcquire(t, me, cancelled))
      modifies this
      ensures Valid() && (View(), r) == LockState.Acquire(old(View()), t, me, cancelled)
    {
      AcquireKeeps(View(), t, me, cancelled);
      if ownerTask == None && waiters == [] {
        if cancelled {
          return Interrupted;
        }
        ownerTask := Some(t);
        acquired := acquired + [nextTicket];
        nextTicket := nextTicket + 1;
        if !fastAcquire {
          calls := calls[t := Call(Yielding, Suspended(me, false), nextTicket - 1)];
          return Blocked;
        }
        holders := holders + {t};
        return Acquired;
      }
      if ownerTask == Some(t) {
        return Misuse;
      }
      waiters := waiters + [t];
      calls := calls[t := Call(Queued, Suspended(me, true), nextTicket)];
      nextTicket := nextTicket + 1;
      r := Blocked;
    }

    /** `acquire()` after its yield or its future. */
    method Resume(t: TaskId) returns (r: Result)
      requires Valid() && Enabled(View(), DoResume(t))
      modifies this
      ensures Valid() && (View(), r) == LockState.Resume(old(View()), t)
    {
      ResumeKeeps(View(), t);
      assert CallAt(View(), t);
      GoneKeepsQueue(View(), t);
      WithoutAbsent(waiters, t);
      var c := calls[t];
      calls := calls - {t};
      if c.phase.Queued? {
        waiters := Without(waiters, t);
      }
      if IsInterrupted(c.task) {
        if c.phase.Yielding? || ownerTask == Some(t) {
          r := HandOver(t);
          if r == Released {
            r := Interrupted;
          }
          return;
        }
        return Interrupted;
      }
      holders := holders + {t};
      r := Acquired;
    }

    method AcquireNowait(t: TaskId) returns (r: Result)
      requires Valid() && t !in calls
      modifies this
      ensures Valid() && (View(), r) == LockState.AcquireNowait(old(View()), t)
    {
      AcquireNowaitKeeps(View(), t);
      if ownerTask == None && waiters == [] {
        ownerTask := Some(t);
        acquired := acquired + [nextTicket];
        nextTicket := nextTicket + 1;
        holders := holders + {t};
        return Acquired;
      }
      if ownerTask == Some(t) {
        return Misuse;
      }
      r := WouldBlock;
    }

    /** The body of `release()`, for client code and for the handlers of `acquire()`. */
    method HandOver(t: TaskId) returns (r: Result)
      requires forall w :: w in waiters ==> w in calls
      modifies this`ownerTask, this`calls, this`acquired
      ensures (View(), r) == LockState.Release(old(View()), t)
    {
      if ownerTask != Some(t) {
        return Misuse;
      }
      ghost var st := View();
      var i := 0;
      while i < |waiters|
        invariant i <= |waiters| && View() == st && FirstLive(waiters, calls, 0) == FirstLive(waiters, calls, i)
      {
        var w := waiters[i];
        assert w in waiters;
        var c := calls[w];
        if c.task.waiter != WaiterCancelled {
          ownerTask := Some(w);
          if c.task.waiter != Pending {
            return InvalidState;
          }
          calls := calls[w := c.(task := Woken(c.task))];
          acquired := acquired + [c.ticket];
          return Released;
        }
        i := i + 1;
      }
      ownerTask := None;
      r := Released;
    }

    /** `release()` called by client code. */
    method Release(t: TaskId) returns (r: Result)
      requires Valid() && t !in calls
      modifies this
      ensures Valid() && (View(), r) == ClientRelease(old(View()), t)
    {
      ClientReleaseKeeps(View(), t);
      r := HandOver(t);
      holders := holders - {t};
    }

    method Locked() returns (r: bool)
      requires Valid()
      ensures r <==> exists t :: Granted(View(), t)
    {
      r := ownerTask != None;
      if r {
        assert OwnerAt(View(), None, ownerTask.value);
      } else {
        forall t
          ensures !Granted(View(), t)
        {
          assert OwnerAt(View(), None, t);
        }
      }
    }
  }
}
