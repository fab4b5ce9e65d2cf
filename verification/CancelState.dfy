/**
 The event loop as a step machine. A state holds the scope tree, the tasks, the callbacks
 that are scheduled and the running task; a step is the code between two awaits. The module
 states what every step does to the state and what a well-formed state is.
 */
module CancelState {
  import opened Wrappers
  import opened ScopeTree
  import opened Tasks

  // ----- state -----

  /** `scope` is the task state's current scope, `home` the group scope the task was spawned
      in (`None` for a task that no group spawned). */
  datatype Place = Place(scope: Option<ScopeId>, home: Option<ScopeId>)

  /** `calls` and `handles` are the scopes' `_cancel_calls` and `_cancel_handle`; `ready` maps
      each callback scheduled on the loop to the scope whose delivery it runs. */
  datatype State = State(
    scopes: Scopes,
    places: map<TaskId, Place>,
    tasks: map<TaskId, Task>,
    calls: map<ScopeId, nat>,
    handles: map<ScopeId, Option<nat>>,
    ready: map<nat, ScopeId>,
    nextHandle: nat,
    clock: nat,
    current: Option<TaskId>)

  const INITIAL := State(map[], map[], map[], map[], map[], map[], 0, 1, None)

  // ----- what task.cancel() and a delivery do -----

  predicate HostsOwnScope(st: State, t: TaskId) {
    && t in st.places && st.places[t].scope.Some? && st.places[t].scope.value in st.scopes
    && st.scopes[st.places[t].scope.value].host == Some(t)
  }

  /** The tasks that a delivery cancels when it meets them. */
  predicate Eligible(st: State, t: TaskId) {
    && t in st.tasks
    && !st.tasks[t].mustCancel
    && st.current != Some(t)
    && (HostsOwnScope(st, t) || st.tasks[t].life == Running)
    && st.tasks[t].waiter in {NoWaiter, Pending}
  }

  /** Cancels the eligible tasks among `met` on behalf of `origin`. */
  function StrikeAll(st: State, origin: ScopeId, met: set<TaskId>): State
    requires origin in st.scopes && origin in st.calls
  {
    var host := st.scopes[origin].host;
    st.(tasks := map t | t in st.tasks ::
          if t !in met || !Eligible(st, t) then st.tasks[t]
          else if host == Some(t) then Struck(st.tasks[t])
          else Struck(st.tasks[t]).(foreign := st.tasks[t].foreign + 1),
        calls := if host.Some? && host.value in met && Eligible(st, host.value)
                 then st.calls[origin := st.calls[origin] + 1] else st.calls)
  }

  function Reschedule(st: State, origin: ScopeId, retry: bool): State {
    if retry then
      st.(handles := st.handles[origin := Some(st.nextHandle)],
          ready := st.ready[st.nextHandle := origin],
          nextHandle := st.nextHandle + 1)
    else
      st.(handles := st.handles[origin := None])
  }

  /** `_deliver_cancellation(self)` in closed form: every task reached from `s` is met. */
  ghost function Deliver(st: State, s: ScopeId): State
    requires s in st.scopes && s in st.calls
  {
    var met := ReachedTasks(st.scopes, st.clock, s);
    Reschedule(StrikeAll(st, s, met), s, met != {})
  }

  /** `_restart_cancellation_in_parent`, starting at the parent `p`. */
  ghost function Restart(st: State, p: Option<ScopeId>): State {
    var o := OriginOf(st.scopes, p);
    if o.Some? && o.value in st.calls && o.value in st.handles && st.handles[o.value].None?
    then Deliver(st, o.value) else st
  }

  // ----- the steps of cancel scopes -----

  /** The tree part of `__enter__`. */
  function Link(st: State, s: ScopeId, t: TaskId): State
    requires s in st.scopes && t in st.places && t in st.tasks
  {
    var p := st.places[t].scope;
    var entered := st.scopes[s].(
      parent := p, tasks := st.scopes[s].tasks + {t}, host := Some(t), active := true,
      cancelling := st.tasks[t].requests, order := st.clock);
    var m := if p.Some? && p.value in st.scopes then
               st.scopes[p.value := st.scopes[p.value].(
                 children := st.scopes[p.value].children + {s},
                 tasks := st.scopes[p.value].tasks - {t})]
             else st.scopes;
    st.(scopes := m[s := entered],
        places := st.places[t := st.places[t].(scope := Some(s))],
        clock := st.clock + 1)
  }

  /** `cancel()`. */
  ghost function CancelCall(st: State, s: ScopeId): State
    requires s in st.scopes && s in st.calls
  {
    if st.scopes[s].cancelCalled then st
    else
      var flagged := st.(scopes := st.scopes[s := st.scopes[s].(cancelCalled := true)]);
      if st.scopes[s].host.Some? then Deliver(flagged, s) else flagged
  }

  /** `__enter__`; `expired` says that the deadline has passed. */
  ghost function Enter(st: State, s: ScopeId, t: TaskId, expired: bool): State
    requires s in st.scopes && s in st.calls && t in st.places && t in st.tasks
  {
    var linked := Link(st, s, t);
    var timed := if expired then CancelCall(linked, s) else linked;
    if timed.scopes[s].cancelCalled then Deliver(timed, s) else timed
  }

  /** The uncancel loop of `__exit__`: what is left of the calls and of the requests. */
  function UncancelLoop(calls: nat, requests: nat, mark: nat): (r: (nat, nat))
    decreases calls
  {
    if calls == 0 then (calls, requests)
    else
      var left := if requests > 0 then requests - 1 else 0;
      if left <= mark then (calls - 1, left) else UncancelLoop(calls - 1, left, mark)
  }

  /** The tree part of `__exit__`. */
  function Unlink(st: State, s: ScopeId, t: TaskId): State
    requires s in st.scopes && s in st.calls && t in st.places && t in st.tasks
  {
    var p := st.scopes[s].parent;
    var left := st.scopes[s].(active := false, host := None, tasks := st.scopes[s].tasks - {t});
    var m := if p.Some? && p.value in st.scopes then
               st.scopes[p.value := st.scopes[p.value].(
                 children := st.scopes[p.value].children - {s},
                 tasks := st.scopes[p.value].tasks + {t})]
             else st.scopes;
    var (calls, requests) :=
      UncancelLoop(st.calls[s], st.tasks[t].requests, st.scopes[s].cancelling);
    st.(scopes := m[s := left],
        places := st.places[t := st.places[t].(scope := p)],
        tasks := st.tasks[t := st.tasks[t].(requests := requests)],
        calls := st.calls[s := calls])
  }

  /** `__exit__`, but for the exception. */
  ghost function Exit(st: State, s: ScopeId, t: TaskId): State
    requires s in st.scopes && s in st.calls && t in st.places && t in st.tasks
  {
    Restart(Unlink(st, s, t), st.scopes[s].parent)
  }

  /** The `shield` setter. */
  ghost function SetShield(st: State, s: ScopeId, v: bool): State
    requires s in st.scopes
  {
    if st.scopes[s].shield == v then st
    else
      var flipped := st.(scopes := st.scopes[s := st.scopes[s].(shield := v)]);
      if v then flipped else Restart(flipped, st.scopes[s].parent)
  }

  /** The part of `_spawn` that concerns the scope of group `g`. */
  function Spawn(st: State, g: ScopeId, t: TaskId): State
    requires g in st.scopes
  {
    st.(scopes := st.scopes[g := st.scopes[g].(tasks := st.scopes[g].tasks + {t})],
        places := st.places[t := Place(Some(g), Some(g))],
        tasks := st.tasks[t := Task(Created, NoWaiter, false, 0, 0, 0)])
  }

  /** The part of `task_done` that concerns scopes. */
  function Forget(st: State, t: TaskId): State
    requires t in st.places
  {
    var s := st.places[t].scope;
    var m := if s.Some? && s.value in st.scopes
             then st.scopes[s.value := st.scopes[s.value].(tasks := st.scopes[s.value].tasks - {t})]
             else st.scopes;
    st.(scopes := m, places := st.places - {t}, tasks := st.tasks - {t})
  }

  // ----- runs -----

  datatype Step =
    | NewScope(s: ScopeId, shield: bool)
    | NewTask(t: TaskId)
    | EnterStep(s: ScopeId, expired: bool)
    | ExitStep(s: ScopeId)
    | CancelStep(s: ScopeId)
    | ShieldStep(s: ScopeId, v: bool)
    | Callback(h: nat)
    | SpawnStep(g: ScopeId, t: TaskId)
    | NativeCancel(t: TaskId)
    | Resume(t: TaskId)
    | Block(onFuture: bool)
    | Complete(t: TaskId)
    | Return
    | Done(t: TaskId)

  /** Whether the code may take a step in a structured program: scopes are entered once and
      left in LIFO order, a group's scope is left only when no member is left (`TaskGroup`
      sees to it), and a coroutine returns only from outside its `with` blocks. */
  ghost predicate Enabled(st: State, step: Step) {
    match step
    case NewScope(s, shield) => s !in st.scopes
    case NewTask(t) => t !in st.tasks
    case EnterStep(s, expired) =>
      && s in st.scopes && !st.scopes[s].active && st.scopes[s].order == 0
      && st.current.Some?
    case ExitStep(s) =>
      && s in st.scopes && st.scopes[s].active && st.current.Some?
      && st.scopes[s].host == st.current
      && st.current.value in st.places && st.places[st.current.value].scope == Some(s)
      && (forall t :: t in st.places ==> st.places[t].home != Some(s))
    case CancelStep(s) => s in st.scopes
    case ShieldStep(s, v) => s in st.scopes
    case Callback(h) => h in st.ready && st.current == None
    case SpawnStep(g, t) => g in st.scopes && st.scopes[g].active && t !in st.tasks
    case NativeCancel(t) => t in st.tasks && st.tasks[t].life != Returned
    case Resume(t) =>
      && st.current == None && t in st.tasks && st.tasks[t].life != Returned
      && st.tasks[t].waiter != Pending
    case Block(onFuture) => st.current.Some?
    case Complete(t) => t in st.tasks && st.tasks[t].waiter == Pending
    case Return =>
      && st.current.Some?
      && (forall s :: s in st.scopes && st.scopes[s].active ==> st.scopes[s].host != st.current)
    case Done(t) => t in st.tasks && st.tasks[t].life == Returned && st.current == None
  }

  ghost function Next(st: State, step: Step): State
    requires KeysOk(st) && Enabled(st, step)
  {
    match step
    case NewScope(s, shield) =>
      st.(scopes := st.scopes[s := Scope(None, {}, {}, None, false, shield, false, 0, 0)],
          calls := st.calls[s := 0], handles := st.handles[s := None])
    case NewTask(t) =>
      st.(places := st.places[t := Place(None, None)],
          tasks := st.tasks[t := Task(Created, NoWaiter, false, 0, 0, 0)])
    case EnterStep(s, expired) => Enter(st, s, st.current.value, expired)
    case ExitStep(s) => Exit(st, s, st.current.value)
    case CancelStep(s) => CancelCall(st, s)
    case ShieldStep(s, v) => SetShield(st, s, v)
    case Callback(h) => Deliver(st.(ready := st.ready - {h}), st.ready[h])
    case SpawnStep(g, t) => Spawn(st, g, t)
    case NativeCancel(t) =>
      st.(tasks := st.tasks[t := Struck(st.tasks[t]).(native := st.tasks[t].native + 1)])
    case Resume(t) =>
      st.(tasks := st.tasks[t := st.tasks[t].(life := Running, waiter := NoWaiter, mustCancel := false)],
          current := Some(t))
    case Block(onFuture) =>
      var t := st.current.value;
      st.(tasks := st.tasks[t := Suspended(st.tasks[t], onFuture)], current := None)
    case Complete(t) =>
      st.(tasks := st.tasks[t := st.tasks[t].(waiter := HasResult)])
    case Return =>
      var t := st.current.value;
      st.(tasks := st.tasks[t := st.tasks[t].(life := Returned)], current := None)
    case Done(t) => Forget(st, t)
  }

  // ----- invariants -----

  /** A scope that was never entered has no history. */
  ghost predicate NewAt(m: Scopes, calls: map<ScopeId, nat>, s: ScopeId)
    requires s in m
  {
    m[s].order == 0 ==> m[s].parent == None && m[s].host == None && s in calls && calls[s] == 0
  }

  ghost predicate NewOk(m: Scopes, calls: map<ScopeId, nat>) {
    forall s {:trigger NewAt(m, calls, s)} :: s in m ==> NewAt(m, calls, s)
  }

  ghost predicate KeysOk(st: State) {
    && st.calls.Keys == st.scopes.Keys
    && st.handles.Keys == st.scopes.Keys
    && st.places.Keys == st.tasks.Keys
    && (st.current.Some? ==>
          st.current.value in st.tasks && st.tasks[st.current.value].life == Running)
    && (forall h :: h in st.ready ==> h < st.nextHandle && st.ready[h] in st.scopes)
    && NewOk(st.scopes, st.calls)
    && st.clock > 0
  }

  ghost predicate HostsRun(m: Scopes, tasks: map<TaskId, Task>) {
    forall s, h :: s in m && h in tasks && m[s].host == Some(h) ==> tasks[h].life == Running
  }

  /** Each tracked task is in the task set of exactly one scope: its current one. */
  ghost predicate MembersAt(m: Scopes, places: map<TaskId, Place>, s: ScopeId)
    requires s in m
  {
    forall t :: t in m[s].tasks ==> t in places && places[t].scope == Some(s)
  }

  ghost predicate PlacedAt(m: Scopes, places: map<TaskId, Place>, t: TaskId)
    requires t in places
  {
    var s := places[t].scope;
    s.Some? ==> s.value in m && m[s.value].active && t in m[s.value].tasks
  }

  ghost predicate TasksOk(m: Scopes, places: map<TaskId, Place>) {
    && (forall s {:trigger MembersAt(m, places, s)} :: s in m ==> MembersAt(m, places, s))
    && (forall t {:trigger PlacedAt(m, places, t)} :: t in places ==> PlacedAt(m, places, t))
  }

  predicate Hosts(m: Scopes, s: Option<ScopeId>, t: TaskId) {
    s.Some? && s.value in m && m[s.value].host == Some(t)
  }

  /** A task's home is an active scope of another task, and its current scope is its home or
      a scope that it entered itself. */
  ghost predicate HomeAt(m: Scopes, places: map<TaskId, Place>, t: TaskId)
    requires t in places
  {
    var home := places[t].home;
    && (home.Some? ==> home.value in m && m[home.value].active && !Hosts(m, home, t))
    && (places[t].scope == home || Hosts(m, places[t].scope, t))
  }

  /** The parent of a scope that `h` entered is another one, or the home of `h`. */
  ghost predicate HostAt(m: Scopes, places: map<TaskId, Place>, c: ScopeId)
    requires c in m
  {
    m[c].host.Some? ==>
      var h := m[c].host.value;
      h in places && (m[c].parent == places[h].home || Hosts(m, m[c].parent, h))
  }

  ghost predicate HomeOk(m: Scopes, places: map<TaskId, Place>) {
    && (forall t {:trigger HomeAt(m, places, t)} :: t in places ==> HomeAt(m, places, t))
    && (forall c {:trigger HostAt(m, places, c)} :: c in m ==> HostAt(m, places, c))
  }

  /** An active scope is on the stack of its host. */
  ghost predicate StackAt(m: Scopes, places: map<TaskId, Place>, c: ScopeId)
    requires c in m
  {
    m[c].host.Some? && m[c].host.value in places ==>
      c in Stack(m, places[m[c].host.value].scope, m[c].host.value)
  }

  ghost predicate StackOk(m: Scopes, places: map<TaskId, Place>) {
    forall c {:trigger StackAt(m, places, c)} :: c in m ==> StackAt(m, places, c)
  }

  ghost predicate Structure(st: State) {
    && TreeOk(st.scopes, st.clock)
    && TasksOk(st.scopes, st.places)
    && HomeOk(st.scopes, st.places)
    && StackOk(st.scopes, st.places)
  }

  /** The share of `task.cancelling()` that the scopes on a task's stack account for. */
  function HostedCalls(st: State, s: Option<ScopeId>, t: TaskId): nat {
    Sum(st.calls, Stack(st.scopes, s, t))
  }

  /** `cancelling()` is made up of the native cancellations, the deliveries from scopes
      that the task does not host, and the deliveries its own open scopes have counted. */
  ghost predicate CountsFor(st: State, t: TaskId)
    requires t in st.tasks && t in st.places
  {
    st.tasks[t].requests ==
    st.tasks[t].native + st.tasks[t].foreign + HostedCalls(st, st.places[t].scope, t)
  }

  /** The mark a scope took on entry counts nothing that the scope delivered itself. */
  ghost predicate MarkFor(st: State, s: ScopeId, h: TaskId)
    requires s in st.scopes && h in st.tasks
  {
    st.scopes[s].cancelling <=
    st.tasks[h].native + st.tasks[h].foreign + HostedCalls(st, Up(st.scopes, s), h)
  }

  ghost predicate CountOk(st: State) {
    && (forall t {:trigger CountsFor(st, t)} ::
          t in st.tasks && t in st.places ==> CountsFor(st, t))
    && (forall s, h {:trigger MarkFor(st, s, h)} ::
          s in st.scopes && h in st.tasks && st.scopes[s].host == Some(h) ==> MarkFor(st, s, h))
  }

  /** A scope's handle is a callback that is still scheduled and will deliver for it. */
  ghost predicate HandleAt(handles: map<ScopeId, Option<nat>>, ready: map<nat, ScopeId>, s: ScopeId)
    requires s in handles
  {
    handles[s].Some? ==> handles[s].value in ready && ready[handles[s].value] == s
  }

  ghost predicate HandlesOk(handles: map<ScopeId, Option<nat>>, ready: map<nat, ScopeId>) {
    forall s {:trigger HandleAt(handles, ready, s)} :: s in handles ==> HandleAt(handles, ready, s)
  }

  ghost predicate StateOk(st: State) {
    KeysOk(st) && Structure(st) && HostsRun(st.scopes, st.tasks) && CountOk(st)
    && HandlesOk(st.handles, st.ready)
  }

  /** Whoever is cancelled has an origin whose delivery is scheduled. */
  ghost predicate Live(st: State) {
    forall t {:trigger Served(st, t)} :: t in st.places ==> Served(st, t)
  }

  ghost predicate Served(st: State, t: TaskId)
    requires t in st.places
  {
    var o := OriginOf(st.scopes, st.places[t].scope);
    o.Some? ==> o.value in st.handles && st.handles[o.value].Some?
  }
}
