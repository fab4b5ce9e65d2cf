/** What a step of the event loop leaves alone. */
module GroupFrames {
  import opened Wrappers
  import opened ScopeTree
  import opened Tasks
  import opened CancelState

  /** Tasks only get cancelled: they keep their lives, and no future becomes pending. */
  ghost predicate TasksLeft(a: map<TaskId, Task>, b: map<TaskId, Task>) {
    && a.Keys == b.Keys
    && forall t :: t in a ==>
         && b[t].life == a[t].life && b[t].native == a[t].native
         && (b[t].waiter == Pending ==> a[t].waiter == Pending)
  }

  /** What deliveries leave alone. */
  ghost predicate Left(st: State, n: State) {
    n.scopes == st.scopes && n.places == st.places && n.current == st.current
    && TasksLeft(st.tasks, n.tasks)
  }

  lemma DeliverLeaves(st: State, s: ScopeId)
    requires s in st.scopes && s in st.calls
    ensures Left(st, Deliver(st, s))
  {
  }

  lemma RestartLeaves(st: State, p: Option<ScopeId>)
    ensures Left(st, Restart(st, p))
  {
    var o := OriginOf(st.scopes, p);
    if o.Some? && o.value in st.calls && o.value in st.handles && st.handles[o.value].None? {
      DeliverLeaves(st, o.value);
    }
  }

  function Flag(m: Scopes, s: ScopeId): Scopes
    requires s in m
  {
    m[s := m[s].(cancelCalled := true)]
  }

  lemma CancelLeaves(st: State, s: ScopeId)
    requires s in st.scopes && s in st.calls
    ensures Left(st.(scopes := Flag(st.scopes, s)), CancelCall(st, s))
  {
    if !st.scopes[s].cancelCalled && st.scopes[s].host.Some? {
      DeliverLeaves(st.(scopes := Flag(st.scopes, s)), s);
    } else {
      assert st.scopes[s].cancelCalled ==> Flag(st.scopes, s) == st.scopes;
    }
  }

  /** What every step but those that create or remove leaves alone. */
  lemma EnterLeaves(st: State, s: ScopeId, t: TaskId, expired: bool)
    requires s in st.scopes && s in st.calls && t in st.places && t in st.tasks
    ensures var linked := Link(st, s, t);
            Left(if expired then linked.(scopes := Flag(linked.scopes, s)) else linked,
                 Enter(st, s, t, expired))
  {
    var linked := Link(st, s, t);
    var timed := if expired then CancelCall(linked, s) else linked;
    if expired {
      CancelLeaves(linked, s);
    }
    if timed.scopes[s].cancelCalled {
      DeliverLeaves(timed, s);
    }
  }

  /** A scope, once entered, stays as it is until its host leaves it, but for its flags. */
  ghost predicate Kept(m: Scopes, n: Scopes, s: ScopeId) {
    && s in m && s in n
    && n[s].active == m[s].active && n[s].host == m[s].host && n[s].parent == m[s].parent
    && n[s].order == m[s].order
  }

  /** The flags of a scope stay as they are. */
  ghost predicate SameMarks(m: Scopes, n: Scopes, s: ScopeId) {
    s in m && s in n && n[s].cancelCalled == m[s].cancelCalled && n[s].shield == m[s].shield
  }

  /** The state before any delivery that the step ends with. */
  ghost function Quiet(st: State, step: Step): State
    requires KeysOk(st) && Enabled(st, step)
  {
    match step
    case EnterStep(s, expired) =>
      var linked := Link(st, s, st.current.value);
      if expired then linked.(scopes := Flag(linked.scopes, s)) else linked
    case ExitStep(s) => Unlink(st, s, st.current.value)
    case CancelStep(s) => st.(scopes := Flag(st.scopes, s))
    case ShieldStep(s, v) => st.(scopes := st.scopes[s := st.scopes[s].(shield := v)])
    case Callback(h) => st
    case _ => Next(st, step)
  }

  lemma StepLeaves(st: State, step: Step)
    requires KeysOk(st) && Enabled(st, step)
    ensures Left(Quiet(st, step), Next(st, step))
  {
    match step
    case EnterStep(s, expired) => EnterLeaves(st, s, st.current.value, expired);
    case ExitStep(s) => RestartLeaves(Unlink(st, s, st.current.value), st.scopes[s].parent);
    case CancelStep(s) => CancelLeaves(st, s);
    case ShieldStep(s, v) =>
      assert st.scopes[s].shield == v ==> Quiet(st, step).scopes == st.scopes;
      RestartLeaves(Quiet(st, step), st.scopes[s].parent);
    case Callback(h) => DeliverLeaves(st.(ready := st.ready - {h}), st.ready[h]);
    case _ =>
  }

  lemma LinkLeaves(st: State, c: ScopeId, t: TaskId, s: ScopeId)
    requires c in st.scopes && t in st.places && t in st.tasks && s in st.scopes && s != c
    ensures Kept(st.scopes, Link(st, c, t).scopes, s) && SameMarks(st.scopes, Link(st, c, t).scopes, s)
  {
  }

  lemma UnlinkLeaves(st: State, c: ScopeId, t: TaskId, s: ScopeId)
    requires c in st.scopes && c in st.calls && t in st.places && t in st.tasks && s in st.scopes && s != c
    ensures Kept(st.scopes, Unlink(st, c, t).scopes, s) && SameMarks(st.scopes, Unlink(st, c, t).scopes, s)
  {
  }

  lemma QuietKeeps(st: State, step: Step, s: ScopeId)
    requires KeysOk(st) && Enabled(st, step) && s in st.scopes
    requires step != ExitStep(s) && (step.EnterStep? ==> step.s != s)
    ensures Kept(st.scopes, Quiet(st, step).scopes, s)
    ensures step != CancelStep(s) && (step.ShieldStep? ==> step.s != s) ==>
              SameMarks(st.scopes, Quiet(st, step).scopes, s)
    ensures step == ShieldStep(s, true) ==>
              && Quiet(st, step).scopes[s].shield
              && Quiet(st, step).scopes[s].cancelCalled == st.scopes[s].cancelCalled
  {
    match step
    case EnterStep(c, x) => LinkLeaves(st, c, st.current.value, s);
    case ExitStep(c) => UnlinkLeaves(st, c, st.current.value, s);
    case _ => PlainKeeps(st, step, s);
  }

  lemma PlainKeeps(st: State, step: Step, s: ScopeId)
    requires KeysOk(st) && Enabled(st, step) && s in st.scopes && !step.EnterStep? && !step.ExitStep?
    ensures Kept(st.scopes, Quiet(st, step).scopes, s)
    ensures step != CancelStep(s) && (step.ShieldStep? ==> step.s != s) ==>
              SameMarks(st.scopes, Quiet(st, step).scopes, s)
    ensures step == ShieldStep(s, true) ==>
              && Quiet(st, step).scopes[s].shield
              && Quiet(st, step).scopes[s].cancelCalled == st.scopes[s].cancelCalled
  {
  }

  lemma ScopeFrame(st: State, step: Step, s: ScopeId)
    requires KeysOk(st) && Enabled(st, step) && s in st.scopes
    requires step != ExitStep(s) && (step.EnterStep? ==> step.s != s)
    ensures Kept(st.scopes, Next(st, step).scopes, s)
    ensures step != CancelStep(s) && (step.ShieldStep? ==> step.s != s) ==>
              SameMarks(st.scopes, Next(st, step).scopes, s)
    ensures step == ShieldStep(s, true) ==>
              && Next(st, step).scopes[s].shield
              && Next(st, step).scopes[s].cancelCalled == st.scopes[s].cancelCalled
  {
    StepLeaves(st, step);
    QuietKeeps(st, step, s);
    assert Next(st, step).scopes == Quiet(st, step).scopes;
  }

  /** A task's place changes only when it enters or leaves a scope itself. */
  lemma PlaceFrame(st: State, step: Step, t: TaskId)
    requires KeysOk(st) && Enabled(st, step) && t in st.places && step != Done(t)
    ensures var n := Next(st, step).places;
            && t in n && n[t].home == st.places[t].home
            && (st.current != Some(t) || !(step.EnterStep? || step.ExitStep?) ==>
                  n[t].scope == st.places[t].scope)
  {
    StepLeaves(st, step);
  }

  /** A task gets a home only when it is spawned there. */
  lemma HomeFrame(st: State, step: Step, t: TaskId, g: ScopeId)
    requires KeysOk(st) && Enabled(st, step) && step !in {Done(t), SpawnStep(g, t)}
    ensures var n := Next(st, step).places;
            t in n && n[t].home == Some(g) <==> t in st.places && st.places[t].home == Some(g)
  {
    StepLeaves(st, step);
  }

  /** A task's coroutine returns in one kind of step. */
  lemma LifeFrame(st: State, step: Step, t: TaskId)
    requires KeysOk(st) && Enabled(st, step) && t in st.tasks && step != Done(t)
    requires st.tasks[t].life == Returned ==> step != Resume(t)
    ensures var n := Next(st, step);
            && t in n.tasks
            && (n.tasks[t].life == Returned <==>
                  st.tasks[t].life == Returned || (step.Return? && st.current == Some(t)))
  {
    StepLeaves(st, step);
  }

  /** Which task runs changes only when it blocks or returns, or when one resumes. */
  lemma CurrentFrame(st: State, step: Step)
    requires KeysOk(st) && Enabled(st, step)
    ensures Next(st, step).current ==
            if step.Resume? then Some(step.t)
            else if step.Block? || step.Return? then None
            else st.current
  {
    StepLeaves(st, step);
  }

  /** A task that is not running does not start to await a future. */
  lemma WaiterFrame(st: State, step: Step, t: TaskId)
    requires KeysOk(st) && Enabled(st, step) && t in st.tasks && step != Done(t)
    requires st.current != Some(t)
    ensures var n := Next(st, step);
            t in n.tasks && (n.tasks[t].waiter == Pending ==> st.tasks[t].waiter == Pending)
  {
    StepLeaves(st, step);
  }

  /** Native cancellations are only ever added. */
  lemma NativeGrows(st: State, step: Step, t: TaskId)
    requires KeysOk(st) && Enabled(st, step) && t in st.tasks && step != Done(t)
    ensures t in Next(st, step).tasks && Next(st, step).tasks[t].native >= st.tasks[t].native
  {
    StepLeaves(st, step);
  }
}
