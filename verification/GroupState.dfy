/**
 A task group on top of the event loop of `CancelState`: what `_spawn`, `task_done` and
 `__aexit__` do to the loop, between any steps of the rest of the program. A move is a piece of
 code that runs without interruption; each does at most two steps of the loop. A step that the
 loop does not allow leads to `Stuck`: it stands for the errors that `__enter__`, `__exit__`
 and `task_done` would raise.
 */
module GroupState {
  import opened Wrappers
  import opened ScopeTree
  import opened Tasks
  import opened CancelState
  import U = Unwinding
  import CT = CancelTheorems

  /** An error collected in `_exceptions`, by the host (`None`) or by a member. */
  datatype Failure = Failure(source: Option<TaskId>, error: U.Exc)

  /** Where the host is. `Joining` to `Closing` are the stations of `__aexit__`; `w` is its
      inner scope, the wait scope or the one of the shielded checkpoint (`yields`). */
  datatype Station =
    | Body
    | Joining
    | Entering(w: ScopeId, yielding: bool)
    | Looping(w: ScopeId, yielding: bool)
    | Parked(w: ScopeId, left: set<TaskId>)
    | Yielded(w: ScopeId)
    | Shielding(w: ScopeId)
    | Cancelling(w: ScopeId)
    | Leaving(w: ScopeId)
    | Closing
    | Closed
    | Stuck

  /** `members` is `_tasks` and `failures` is `_exceptions`. `outcomes` says how each finished
      member ended, `seen` lists the cancellations that struck the join, `dropped` is one that
      struck the final checkpoint, and `raised` is what goes to the scope's `__exit__`. */
  datatype World = World(
    st: State,
    g: ScopeId,
    host: TaskId,
    members: set<TaskId>,
    spawned: set<TaskId>,
    outcomes: map<TaskId, Option<U.Exc>>,
    failures: seq<Failure>,
    active: bool,
    at: Station,
    hostExc: Option<U.Exc>,
    exc: Option<U.Exc>,
    seen: seq<U.Exc>,
    dropped: Option<U.Exc>,
    raised: Option<U.Exc>)

  /** The group right after `__aenter__`, in any state of the loop. */
  ghost predicate Start(w: World) {
    && CT.Reachable(w.st)
    && w.g in w.st.scopes && w.st.scopes[w.g].active && w.st.scopes[w.g].host == Some(w.host)
    && w.host in w.st.places
    && (forall t :: t in w.st.places ==> w.st.places[t].home != Some(w.g))
    && w == World(w.st, w.g, w.host, {}, {}, map[], [], true, Body, None, None, [], None, None)
  }

  // ----- the moves -----

  datatype Move =
    | Elsewhere(step: Step)
    | SpawnMember(t: TaskId)
    | MemberReturns(outcome: Option<U.Exc>)
    | MemberDone(t: TaskId)
    | BeginExit(exc: Option<U.Exc>)
    | HostStep(scope: ScopeId)
    | HostResumes(e: U.Exc)
    | Completion(t: TaskId)

  /** The scope that `__aexit__` made for itself. */
  function Own(at: Station): Option<ScopeId> {
    match at
    case Entering(w, y) => Some(w)
    case Looping(w, y) => Some(w)
    case Parked(w, l) => Some(w)
    case Yielded(w) => Some(w)
    case Shielding(w) => Some(w)
    case Cancelling(w) => Some(w)
    case Leaving(w) => Some(w)
    case _ => None
  }

  /** The host is running the code of `__aexit__`. */
  predicate InExit(w: World) {
    w.st.current == Some(w.host) && !w.at.Body? && !w.at.Closed?
  }

  /** The steps of the rest of the program: they leave the group's tasks and the scope of
      `__aexit__` to the group, and the running task runs only its own code. */
  predicate Outside(w: World, step: Step) {
    match step
    case EnterStep(s, x) => !InExit(w)
    case ExitStep(s) => s != w.g && !InExit(w)
    case CancelStep(s) => Own(w.at) != Some(s)
    case ShieldStep(s, v) => Own(w.at) != Some(s)
    case SpawnStep(h, t) => h != w.g && Own(w.at) != Some(h) && !InExit(w)
    case Resume(t) => t == w.host ==> w.at.Body? || w.at.Closed?
    case Block(f) => !InExit(w)
    case Complete(t) => t == w.host ==> !w.at.Parked?
    case Return => !InExit(w) && (w.st.current.Some? ==> w.st.current.value !in w.members)
    case Done(t) => t !in w.members
    case _ => true
  }

  /** Members are spawned by the host in its body or by members. */
  ghost predicate MayMove(w: World, move: Move) {
    match move
    case Elsewhere(step) => Enabled(w.st, step) && Outside(w, step)
    case SpawnMember(t) =>
      && w.st.current.Some? && t !in w.st.tasks && t !in w.spawned
      && (w.st.current.value in w.members || (w.st.current.value == w.host && w.at.Body?))
    case MemberReturns(o) => Enabled(w.st, Return) && w.st.current.value in w.members
    case MemberDone(t) => t in w.members && Enabled(w.st, Done(t))
    case BeginExit(e) =>
      && w.at.Body? && w.st.current == Some(w.host) && w.host in w.st.places
      && w.st.places[w.host].scope == Some(w.g)
    case HostStep(s) => InExit(w) && HasPiece(w.at) && (w.at.Joining? ==> s !in w.st.scopes)
    case HostResumes(e) =>
      (w.at.Parked? || w.at.Yielded?) && e.Cancelled? && Enabled(w.st, Resume(w.host))
    case Completion(t) => w.at.Parked? && t in w.at.left && t in w.outcomes && t !in w.members
  }

  /** One step of the loop, made by the group's code. */
  ghost function Do(w: World, step: Step, at: Station): World {
    if KeysOk(w.st) && Enabled(w.st, step) then w.(st := Next(w.st, step), at := at)
    else w.(at := Stuck)
  }

  /** The error that `task_done` or `__aexit__` appends. */
  function Collected(source: Option<TaskId>, e: Option<U.Exc>): seq<Failure> {
    if e.Some? && !e.value.Cancelled? then [Failure(source, e.value)] else []
  }

  /** `task_done` without a status future, up to the point where it may cancel the group. */
  ghost function Removed(w: World, t: TaskId): World
    requires t in w.outcomes
  {
    Do(w, Done(t), w.at).(
      members := w.members - {t}, failures := w.failures + Collected(Some(t), w.outcomes[t]))
  }

  ghost function CancelGroup(w: World): World {
    if w.g in w.st.scopes && !EffectivelyCancelled(w.st.scopes, w.g)
    then Do(w, CancelStep(w.g), w.at) else w
  }

  ghost function TaskDone(w: World, t: TaskId): World
    requires t in w.outcomes
  {
    if w.outcomes[t].Some? then CancelGroup(Removed(w, t)) else Removed(w, t)
  }

  /** `is_anyio_cancellation`, which looks at the message alone. */
  predicate ByScope(e: U.Exc) {
    e.Cancelled? && e.byScope
  }

  /** Which exception a cancelled join remembers. */
  function Remember(exc: Option<U.Exc>, e: U.Exc): Option<U.Exc> {
    if exc.None? || (exc.value.Cancelled? && !ByScope(e)) then Some(e) else exc
  }

  function Errors(failures: seq<Failure>): (r: seq<U.Exc>)
    ensures |r| == |failures|
    ensures forall i :: 0 <= i < |r| ==> r[i] == failures[i].error
  {
    if failures == [] then [] else [failures[0].error] + Errors(failures[1..])
  }

  /** What `__aexit__` hands to the scope's `__exit__`. */
  function Raised(w: World): Option<U.Exc> {
    if w.dropped.Some? then w.dropped
    else if w.failures != [] then Some(U.Group(Errors(w.failures)))
    else w.exc
  }

  /** `__aexit__` has more to run now. */
  predicate HasPiece(at: Station) {
    !at.Body? && !at.Parked? && !at.Yielded? && !at.Closed? && !at.Stuck?
  }

  /** The step of the loop that the next piece of `__aexit__` makes. */
  function PieceStep(w: World, s: ScopeId): Step
    requires HasPiece(w.at)
  {
    match w.at
    case Joining => NewScope(s, w.members == {})
    case Entering(x, y) => EnterStep(x, false)
    case Looping(x, y) => if y || w.members != {} then Block(!y) else ExitStep(x)
    case Shielding(x) => ShieldStep(x, true)
    case Cancelling(x) => CancelStep(w.g)
    case Leaving(x) => ExitStep(x)
    case Closing => ExitStep(w.g)
  }

  /** Where that piece leads. */
  function NextStation(w: World, s: ScopeId): Station
    requires HasPiece(w.at)
  {
    match w.at
    case Joining => Entering(s, w.members == {})
    case Entering(x, y) => Looping(x, y)
    case Looping(x, y) => if y then Yielded(x) else if w.members != {} then Parked(x, w.members) else Closing
    case Shielding(x) => Cancelling(x)
    case Cancelling(x) => Looping(x, false)
    case Leaving(x) => Closing
    case Closing => Closed
  }

  ghost function ExitPiece(w: World, s: ScopeId): World
    requires HasPiece(w.at)
  {
    var n := Do(w, PieceStep(w, s), NextStation(w, s));
    if w.at.Closing? then n.(active := w.active && w.dropped.Some?, raised := Raised(w)) else n
  }

  /** The host runs again after `_wait` or after the checkpoint. */
  ghost function ResumeHost(w: World, e: U.Exc): World {
    var struck := w.host in w.st.tasks && IsInterrupted(w.st.tasks[w.host]);
    match w.at
    case Parked(x, l) =>
      if struck
      then Do(w, Resume(w.host), Shielding(x)).(exc := Remember(w.exc, e), seen := w.seen + [e])
      else Do(w, Resume(w.host), Looping(x, false))
    case Yielded(x) =>
      Do(w, Resume(w.host), Leaving(x)).(dropped := if struck then Some(e) else None)
    case _ => w
  }

  /** `on_completion` of `_wait`. */
  ghost function Completed(w: World, t: TaskId): World
    requires w.at.Parked?
  {
    var at := w.at.(left := w.at.left - {t});
    if at.left == {} && w.host in w.st.tasks && w.st.tasks[w.host].waiter == Pending
    then Do(w, Complete(w.host), at) else w.(at := at)
  }

  ghost function Moved(w: World, move: Move): World
    requires MayMove(w, move)
  {
    match move
    case Elsewhere(step) => Do(w, step, w.at)
    case SpawnMember(t) =>
      if !w.active then w
      else Do(w, SpawnStep(w.g, t), w.at).(members := w.members + {t}, spawned := w.spawned + {t})
    case MemberReturns(o) =>
      Do(w, Return, w.at).(outcomes := w.outcomes[w.st.current.value := o])
    case MemberDone(t) => if t in w.outcomes then TaskDone(w, t) else w.(at := Stuck)
    case BeginExit(e) =>
      var n := w.(hostExc := e, exc := e, failures := w.failures + Collected(None, e), at := Joining);
      if e.Some? then Do(n, CancelStep(n.g), Joining) else n
    case HostStep(s) => ExitPiece(w, s)
    case HostResumes(e) => ResumeHost(w, e)
    case Completion(t) => Completed(w, t)
  }

  ghost predicate Moves(w: World, moves: seq<Move>)
    decreases |moves|
  {
    moves == [] || (MayMove(w, moves[0]) && Moves(Moved(w, moves[0]), moves[1..]))
  }

  ghost function Later(w: World, moves: seq<Move>): World
    requires Moves(w, moves)
    decreases |moves|
  {
    if moves == [] then w else Later(Moved(w, moves[0]), moves[1..])
  }

  // ----- what every world keeps -----

  /** The members are the tasks whose home is the group's scope; a member has an outcome once
      its coroutine returned, and keeps it after it is forgotten. */
  ghost predicate MemberAt(w: World, t: TaskId) {
    && (t in w.members <==> t in w.st.places && w.st.places[t].home == Some(w.g))
    && (t in w.members && t in w.st.tasks ==> (t in w.outcomes <==> w.st.tasks[t].life == Returned))
    && (t in w.spawned <==> t in w.members || t in w.outcomes)
  }

  /** `f` is owed by the group: the host's error, or that of a member that is done. */
  predicate Owed(w: World, f: Failure) {
    && !f.error.Cancelled?
    && match f.source
       case None => w.hostExc == Some(f.error)
       case Some(t) => t in w.outcomes && t !in w.members && w.outcomes[t] == Some(f.error)
  }

  /** The group collects what it owes, once each. */
  ghost predicate FailuresOk(w: World) {
    && (forall f {:trigger Owed(w, f)} :: f in w.failures <==> Owed(w, f))
    && (forall i, j :: 0 <= i < j < |w.failures| ==> w.failures[i].source != w.failures[j].source)
  }

  /** The remembered exception carries a scope's message iff all that were seen do. */
  ghost predicate ExcOk(w: World) {
    && (w.exc == None <==> w.hostExc == None && w.seen == [])
    && (w.exc.Some? && !w.exc.value.Cancelled? ==> w.exc == w.hostExc)
    && (w.exc.Some? ==>
          (ByScope(w.exc.value) <==>
             (w.hostExc.Some? ==> ByScope(w.hostExc.value))
             && forall i :: 0 <= i < |w.seen| ==> ByScope(w.seen[i])))
    && (w.at.Body? ==> w.hostExc == None && w.seen == [])
    && (w.dropped.Some? ==> w.at.Leaving? || w.at.Closing? || w.at.Closed? || w.at.Stuck?)
  }

  predicate HostAtScope(w: World, s: ScopeId) {
    w.host in w.st.places && w.st.places[w.host].scope == Some(s)
  }

  ghost predicate GroupOpen(w: World) {
    && w.g in w.st.scopes && w.st.scopes[w.g].active && w.st.scopes[w.g].host == Some(w.host)
    && w.host in w.st.places && w.host in w.st.tasks
  }

  /** The host is inside its inner scope, which nobody else uses. */
  ghost predicate InScope(w: World, x: ScopeId) {
    && x != w.g && x in w.st.scopes && w.st.scopes[x].active
    && w.st.scopes[x].host == Some(w.host) && w.st.scopes[x].parent == Some(w.g)
    && HostAtScope(w, x)
    && !w.st.scopes[x].cancelCalled
    && (forall t :: t in w.st.places ==> w.st.places[t].home != Some(x))
  }

  /** While the host waits, whoever it waits for is a member or has a completion to come, and
      its future is done when there is nobody. */
  ghost predicate WaitOk(w: World)
    requires w.at.Parked? && w.host in w.st.tasks
  {
    && w.at.left <= w.spawned
    && (w.st.tasks[w.host].waiter == Pending ==> w.at.left != {})
  }

  ghost predicate StationOk(w: World) {
    match w.at
    case Body => GroupOpen(w)
    case Joining => GroupOpen(w) && w.st.current == Some(w.host) && HostAtScope(w, w.g) && w.seen == []
    case Entering(x, y) =>
      && GroupOpen(w) && w.st.current == Some(w.host) && HostAtScope(w, w.g) && w.seen == []
      && x in w.st.scopes && !w.st.scopes[x].active && w.st.scopes[x].order == 0
      && !w.st.scopes[x].cancelCalled
      && (y ==> w.members == {} && w.st.scopes[x].shield)
    case Looping(x, y) =>
      && GroupOpen(w) && w.st.current == Some(w.host) && InScope(w, x)
      && (y ==> w.members == {}) && (y || w.seen != [] ==> w.st.scopes[x].shield)
    case Parked(x, left) =>
      && GroupOpen(w) && w.st.current != Some(w.host) && InScope(w, x) && WaitOk(w)
      && (w.seen != [] ==> w.st.scopes[x].shield)
    case Yielded(x) =>
      && GroupOpen(w) && w.st.current != Some(w.host) && InScope(w, x) && w.members == {}
      && w.st.scopes[x].shield
    case Shielding(x) => GroupOpen(w) && w.st.current == Some(w.host) && InScope(w, x)
    case Cancelling(x) =>
      GroupOpen(w) && w.st.current == Some(w.host) && InScope(w, x) && w.st.scopes[x].shield
    case Leaving(x) => GroupOpen(w) && w.st.current == Some(w.host) && InScope(w, x) && w.members == {}
    case Closing =>
      GroupOpen(w) && w.st.current == Some(w.host) && HostAtScope(w, w.g) && w.members == {}
    case Closed =>
      && w.g in w.st.scopes && !w.st.scopes[w.g].active && w.st.scopes[w.g].order > 0
      && w.members == {} && w.raised == Raised(w)
    case Stuck => false
  }

  ghost predicate WorldOk(w: World) {
    && StateOk(w.st)
    && (forall t {:trigger MemberAt(w, t)} :: MemberAt(w, t))
    && FailuresOk(w) && ExcOk(w) && StationOk(w)
  }
}
