/** Whom a delivery strikes, whom it spares, and what it costs them. */
module Strikes {
  import opened Wrappers
  import opened ScopeTree
  import opened Tasks
  import opened CancelState
  import opened CancelRuns
  import GroupFrames
  import CT = CancelTheorems

  /** The coroutine of `t` has started and has not returned, it is not the one that runs, and no
      cancellation is on its way to it yet, nor a result. */
  predicate IsOpen(st: State, t: TaskId) {
    && t in st.tasks && st.tasks[t].life == Running && st.current != Some(t)
    && !st.tasks[t].mustCancel && st.tasks[t].waiter in {NoWaiter, Pending}
  }

  /** A delivery changes a task iff it reaches it and the task is open. Then the task is
      cancelled once: its pending future is cancelled, or else the task is marked. The call is
      counted by the scope iff the task is its host. */
  lemma DeliveryVictims(st: State, s: ScopeId, t: TaskId)
    requires CT.Reachable(st) && s in st.scopes && t in st.tasks
    ensures s in st.calls && t in Deliver(st, s).tasks && s in Deliver(st, s).calls
    ensures var n := Deliver(st, s);
            var struck := t in ReachedTasks(st.scopes, st.clock, s) && IsOpen(st, t);
            && (n.tasks[t] != st.tasks[t] <==> struck)
            && (struck ==>
                  && n.tasks[t].life == Running && n.tasks[t].native == st.tasks[t].native
                  && n.tasks[t].requests == st.tasks[t].requests + 1
                  && (n.tasks[t].waiter == WaiterCancelled <==> st.tasks[t].waiter == Pending)
                  && (n.tasks[t].mustCancel <==> st.tasks[t].waiter == NoWaiter)
                  && n.tasks[t].foreign
                     == st.tasks[t].foreign + (if st.scopes[s].host == Some(t) then 0 else 1))
            && (st.scopes[s].host == Some(t) ==>
                  n.calls[s] == st.calls[s] + (if struck then 1 else 0))
  {
    CT.ReachableOk(st);
  }

  /** A delivery touches nothing but tasks, its scope's own call count and its callback. It is to
      be repeated iff it met a task, struck or not. */
  lemma DeliveryTouches(st: State, s: ScopeId)
    requires CT.Reachable(st) && s in st.scopes
    ensures s in st.calls && TouchesOnly(st, s, Deliver(st, s))
    ensures CallbackOf(st, s, Deliver(st, s), ReachedTasks(st.scopes, st.clock, s) != {})
  {
    CT.ReachableOk(st);
    var met := ReachedTasks(st.scopes, st.clock, s);
    StrikeTouches(st, s, met);
    RescheduleMeans(StrikeAll(st, s, met), s, met != {});
  }

  predicate TouchesOnly(st: State, s: ScopeId, n: State) {
    && n.scopes == st.scopes && n.places == st.places && n.current == st.current && n.clock == st.clock
    && n.tasks.Keys == st.tasks.Keys && n.calls - {s} == st.calls - {s}
  }

  lemma StrikeTouches(st: State, s: ScopeId, met: set<TaskId>)
    requires s in st.scopes && s in st.calls
    ensures var n := StrikeAll(st, s, met);
            && TouchesOnly(st, s, n)
            && n.handles == st.handles && n.ready == st.ready && n.nextHandle == st.nextHandle
  {
  }

  /** The scope `s` has a new callback iff `retry` says so, and nothing else is scheduled. */
  predicate CallbackOf(st: State, s: ScopeId, n: State, retry: bool) {
    && s in n.handles && n.handles - {s} == st.handles - {s}
    && (n.handles[s].Some? <==> retry)
    && (retry ==> n.handles[s].value !in st.ready && n.ready == st.ready[n.handles[s].value := s])
    && (!retry ==> n.ready == st.ready)
  }

  lemma RescheduleMeans(st: State, s: ScopeId, retry: bool)
    requires forall h :: h in st.ready ==> h < st.nextHandle
    ensures CallbackOf(st, s, Reschedule(st, s, retry), retry)
  {
  }

  /** Entering a scope cancels it iff its deadline has passed, and makes it the active current
      scope of the running task. */
  lemma EntryMeans(st: State, s: ScopeId, expired: bool)
    requires CT.Reachable(st) && Enabled(st, EnterStep(s, expired))
    ensures KeysOk(st) && s in Next(st, EnterStep(s, expired)).scopes
    ensures var t := st.current.value;
            var n := Next(st, EnterStep(s, expired));
            && (n.scopes[s].cancelCalled <==> st.scopes[s].cancelCalled || expired)
            && n.scopes[s].active && n.scopes[s].host == Some(t) && n.scopes[s].shield == st.scopes[s].shield
            && t in st.places && t in n.places && n.places[t].scope == Some(s)
            && n.scopes[s].parent == st.places[t].scope && n.places[t].home == st.places[t].home
  {
    CT.ReachableOk(st);
    GroupFrames.EnterLeaves(st, s, st.current.value, expired);
  }

  /** The `shield` setter sets the flag of its scope and no other flag. */
  lemma ShieldMeans(st: State, s: ScopeId, v: bool)
    requires CT.Reachable(st) && Enabled(st, ShieldStep(s, v))
    ensures KeysOk(st) && Next(st, ShieldStep(s, v)).scopes == st.scopes[s := st.scopes[s].(shield := v)]
  {
    CT.ReachableOk(st);
    GroupFrames.StepLeaves(st, ShieldStep(s, v));
  }

  // ----- tasks that have not started -----

  /** A task that has not started was cancelled by nobody but natively. */
  predicate IsUntouched(t: Task) {
    t.life == Created ==>
      t.foreign == 0 && t.requests == t.native && t.waiter == NoWaiter && (t.mustCancel ==> t.native > 0)
  }

  ghost predicate AllUntouched(tasks: map<TaskId, Task>) {
    forall t :: t in tasks ==> IsUntouched(tasks[t])
  }

  /** Whoever hosts a scope has started. */
  ghost predicate HostsStarted(st: State) {
    forall t :: t in st.tasks && HostsOwnScope(st, t) ==> st.tasks[t].life == Running
  }

  lemma DeliverSparesCreated(st: State, s: ScopeId)
    requires s in st.scopes && s in st.calls && HostsStarted(st) && AllUntouched(st.tasks)
    ensures AllUntouched(Deliver(st, s).tasks) && HostsStarted(Deliver(st, s))
  {
    DeliverKeepsLives(st, s);
  }

  lemma DeliverKeepsLives(st: State, s: ScopeId)
    requires s in st.scopes && s in st.calls
    ensures var n := Deliver(st, s);
            && n.scopes == st.scopes && n.places == st.places && n.tasks.Keys == st.tasks.Keys
            && forall t :: t in st.tasks ==> n.tasks[t].life == st.tasks[t].life
  {
  }

  lemma RestartSparesCreated(st: State, p: Option<ScopeId>)
    requires HostsStarted(st) && AllUntouched(st.tasks)
    ensures AllUntouched(Restart(st, p).tasks)
  {
  }

  lemma CancelSparesCreated(st: State, s: ScopeId)
    requires s in st.scopes && s in st.calls && HostsStarted(st) && AllUntouched(st.tasks)
    ensures AllUntouched(CancelCall(st, s).tasks) && HostsStarted(CancelCall(st, s))
    ensures CancelCall(st, s).scopes.Keys == st.scopes.Keys && s in CancelCall(st, s).calls
  {
    if !st.scopes[s].cancelCalled && st.scopes[s].host.Some? {
      DeliverSparesCreated(st.(scopes := st.scopes[s := st.scopes[s].(cancelCalled := true)]), s);
    }
  }

  lemma EnterSparesCreated(st: State, s: ScopeId, t: TaskId, expired: bool)
    requires s in st.scopes && s in st.calls && t in st.places && t in st.tasks
    requires st.tasks[t].life == Running && HostsRun(st.scopes, st.tasks) && AllUntouched(st.tasks)
    ensures AllUntouched(Enter(st, s, t, expired).tasks)
  {
    var linked := Link(st, s, t);
    assert HostsStarted(linked);
    var timed := if expired then CancelCall(linked, s) else linked;
    if expired {
      CancelSparesCreated(linked, s);
    }
    if timed.scopes[s].cancelCalled {
      DeliverSparesCreated(timed, s);
    }
  }

  lemma ExitSparesCreated(st: State, s: ScopeId, t: TaskId)
    requires s in st.scopes && s in st.calls && t in st.places && t in st.tasks
    requires st.tasks[t].life == Running && HostsRun(st.scopes, st.tasks) && AllUntouched(st.tasks)
    ensures AllUntouched(Exit(st, s, t).tasks)
  {
    RestartSparesCreated(Unlink(st, s, t), st.scopes[s].parent);
  }

  lemma StepSparesCreated(st: State, step: Step)
    requires KeysOk(st) && HostsRun(st.scopes, st.tasks) && Enabled(st, step) && AllUntouched(st.tasks)
    ensures AllUntouched(Next(st, step).tasks)
  {
    match step
    case EnterStep(s, expired) => EnterSparesCreated(st, s, st.current.value, expired);
    case ExitStep(s) => ExitSparesCreated(st, s, st.current.value);
    case CancelStep(s) => CancelSparesCreated(st, s);
    case ShieldStep(s, v) =>
      RestartSparesCreated(st.(scopes := st.scopes[s := st.scopes[s].(shield := v)]), st.scopes[s].parent);
    case Callback(h) => DeliverSparesCreated(st.(ready := st.ready - {h}), st.ready[h]);
    case _ =>
  }

  lemma {:induction false} RunSparesCreated(st: State, steps: seq<Step>)
    requires StateOk(st) && AllUntouched(st.tasks) && Runs(st, steps)
    ensures AllUntouched(After(st, steps).tasks)
    decreases |steps|
  {
    if steps != [] {
      StepSparesCreated(st, steps[0]);
      StepKeeps(st, steps[0]);
      RunSparesCreated(Next(st, steps[0]), steps[1..]);
    }
  }

  /** In every reachable state a task that has not started has been cancelled by no scope: its
      coroutine runs at least to its first await, unless somebody cancelled it natively. */
  lemma CreatedIsUntouched(st: State, t: TaskId)
    requires CT.Reachable(st) && t in st.tasks && st.tasks[t].life == Created
    ensures st.tasks[t].foreign == 0 && st.tasks[t].requests == st.tasks[t].native
    ensures IsInterrupted(st.tasks[t]) ==> st.tasks[t].native > 0
    ensures st.current != Some(t)
  {
    var steps :| Runs(INITIAL, steps) && After(INITIAL, steps) == st;
    InitialOk();
    RunSparesCreated(INITIAL, steps);
    CT.ReachableOk(st);
  }
}
