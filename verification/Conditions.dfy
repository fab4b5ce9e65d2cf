/**
 The class `Condition`, on top of a `Lock` object. Every method changes the condition as the
 functions of `ConditionState` say; `wait()` is split where it blocks.
 */
module Conditions {
  import opened Wrappers
  import opened Tasks
  import opened Sequences
  import opened ConditionState
  import opened ConditionRuns
  import L = LockState
  import Locks

  class Condition {
    const lock: Locks.Lock
    var ownerTask: Option<TaskId>
    var waiters: seq<EventId>
    var waits: map<EventId, WaitCall>
    var next: EventId
    var entering: set<TaskId>

    ghost function View(): State
      reads this, lock
    {
      State(lock.View(), ownerTask, entering, waiters, waits, next)
    }

    ghost predicate Valid()
      reads this, lock
    {
      Ok(View())
    }

    constructor (l: Locks.Lock)
      requires l.Valid() && l.View() == L.New(l.fastAcquire)
      ensures Valid() && lock == l && View() == New(l.fastAcquire)
    {
      lock := l;
      ownerTask, waiters, waits, next, entering := None, [], map[], 0, {};
    }

    method Acquire(t: TaskId, me: Task, cancelled: bool) returns (r: Result)
      requires Valid() && Enabled(View(), DoAcquire(t, me, cancelled, false))
      modifies this, lock
      ensures Valid() && (View(), r) == ConditionState.Acquire(old(View()), t, me, cancelled)
    {
      ClientStepKeeps(View(), DoAcquire(t, me, cancelled, false));
      var result := lock.Acquire(t, me, cancelled);
      if result == L.Acquired {
        ownerTask := Some(t);
      } else if result == L.Blocked {
        entering := entering + {t};
      }
      r := ConditionState.Lock(result);
    }

    method ResumeAcquire(t: TaskId) returns (r: Result)
      requires Valid() && Enabled(View(), DoResumeAcquire(t))
      modifies this, lock
      ensures Valid() && (View(), r) == ConditionState.ResumeAcquire(old(View()), t)
    {
      ClientStepKeeps(View(), DoResumeAcquire(t));
      var result := lock.Resume(t);
      if result == L.Acquired && t in entering {
        ownerTask := Some(t);
      }
      entering := entering - {t};
      r := ConditionState.Lock(result);
    }

    method Release(t: TaskId) returns (r: Result)
      requires Valid() && Enabled(View(), DoRelease(t))
      modifies lock
      ensures Valid() && (View(), r) == ConditionState.Release(old(View()), t)
    {
      ClientStepKeeps(View(), DoRelease(t));
      var result := lock.Release(t);
      r := ConditionState.Lock(result);
    }

    /** `event.set()` on the oldest event, which leaves the queue. */
    method PopAndSet()
      requires waiters != []
      modifies this`waiters, this`waits
      ensures View() == SetEvent(old(View()).(waiters := old(waiters)[1..]), old(waiters)[0])
    {
      var e := waiters[0];
      waiters := waiters[1..];
      if e in waits {
        waits := waits[e := waits[e].(isSet := true, task := Woken(waits[e].task))];
      }
    }

    method Notify(t: TaskId, n: int) returns (r: Result)
      requires Valid() && Enabled(View(), DoNotify(t, n))
      modifies this`waiters, this`waits
      ensures Valid() && (View(), r) == CheckedNotify(old(View()), t, n)
    {
      NotifyKeeps(View(), n);
      if ownerTask != Some(t) {
        return Misuse;
      }
      ghost var st := View();
      var i := 0;
      while i < n && waiters != []
        invariant 0 <= i && (i <= n || n < 0)
        invariant ConditionState.Notify(View(), n - i) == ConditionState.Notify(st, n)
        invariant ownerTask == st.ownerTask && next == st.next && entering == st.entering
      {
        PopAndSet();
        i := i + 1;
      }
      r := Done;
    }

    method NotifyAll(t: TaskId) returns (r: Result)
      requires Valid() && Enabled(View(), DoNotifyAll(t))
      modifies this`waiters, this`waits
      ensures Valid() && (View(), r) == ConditionState.NotifyAll(old(View()), t)
    {
      NotifyKeeps(View(), |waiters|);
      if ownerTask != Some(t) {
        return Misuse;
      }
      ghost var st := View();
      var i := 0;
      while i < |waiters|
        invariant i <= |waiters| && waiters == st.waiters
        invariant ownerTask == st.ownerTask && next == st.next && entering == st.entering
        invariant ConditionState.Notify(View().(waiters := waiters[i..]), |waiters| - i)
                  == ConditionState.Notify(st, |st.waiters|)
      {
        var e := waiters[i];
        if e in waits {
          waits := waits[e := waits[e].(isSet := true, task := Woken(waits[e].task))];
        }
        i := i + 1;
        assert waiters[i - 1..][1..] == waiters[i..];
      }
      waiters := [];
      r := Done;
    }

    /** `wait()` after its checkpoint, up to its event. */
    method Wait(t: TaskId) returns (r: Result)
      requires Valid() && Enabled(View(), DoWait(t))
      modifies this, lock
      ensures Valid() && (View(), r) == ConditionState.Wait(old(View()), t)
    {
      WaitKeeps(View(), t);
      var e := next;
      next := next + 1;
      waiters := waiters + [e];
      var result := lock.Release(t);
      if result != L.Released {
        return ConditionState.Lock(result);
      }
      waits := waits[e := WaitCall(t, false, Waiting(0), false, false)];
      r := Blocked(e);
    }

    /** The shielded `acquire()` at the end of `wait()`. */
    method Reacquire(e: EventId, failed: bool) returns (r: Result)
      requires e in waits && OkBut(View(), e) && (failed || waits[e].isSet)
      requires waits[e].host !in lock.calls && waits[e].host !in lock.holders
      modifies this, lock
      ensures (View(), r) == ConditionState.Reacquire(old(View()), e, failed)
    {
      var t := waits[e].host;
      var result := lock.Acquire(t, Task(Running, NoWaiter, false, 0, 0, 0), false);
      if result == L.Acquired {
        ownerTask := Some(t);
        waits := waits - {e};
        return if failed then Cancelled else Notified;
      }
      if result == L.Blocked {
        waits := waits[e := waits[e].(reacquiring := true, failed := failed)];
        return Blocked(e);
      }
      waits := waits - {e};
      r := Unlocked;
    }

    /** `wait()` after its event. */
    method ResumeWait(e: EventId) returns (r: Result)
      requires Valid() && Enabled(View(), DoResumeWait(e))
      modifies this, lock
      ensures Valid() && (View(), r) == ConditionState.ResumeWait(old(View()), e)
    {
      ResumeWaitKeeps(View(), e);
      RemovalKeeps(View(), e);
      WithoutAbsent(waiters, e);
      assert WaitAt(View(), e);
      var w := waits[e];
      if IsInterrupted(w.task) && !w.isSet {
        if e !in waiters {
          return NotWaiting;
        }
        waiters := Without(waiters, e);
        r := Reacquire(e, true);
      } else {
        r := Reacquire(e, IsInterrupted(w.task));
      }
    }

    /** `wait()` after its lock became free. */
    method FinishWait(e: EventId) returns (r: Result)
      requires Valid() && Enabled(View(), DoFinishWait(e))
      modifies this, lock
      ensures Valid() && (View(), r) == ConditionState.FinishWait(old(View()), e)
    {
      FinishWaitKeeps(View(), e);
      var w := waits[e];
      var result := lock.Resume(w.host);
      waits := waits - {e};
      if result != L.Acquired {
        return Unlocked;
      }
      ownerTask := Some(w.host);
      r := if w.failed then Cancelled else Notified;
    }
  }
}
