/** Runs in which a native cancellation costs a task group what it collected, or is lost. */
module GroupCases {
  import opened Wrappers
  import opened ScopeTree
  import opened Tasks
  import opened CancelState
  import opened GroupState
  import opened GroupFrames
  import opened GroupRuns
  import opened GroupTheorems
  import CancelScopes
  import CT = CancelTheorems
  import U = Unwinding

  // ----- runs, one move at a time -----

  lemma {:induction false} MovesAppend(w: World, moves: seq<Move>, move: Move)
    requires Moves(w, moves) && MayMove(Later(w, moves), move)
    ensures Moves(w, moves + [move]) && Later(w, moves + [move]) == Moved(Later(w, moves), move)
    decreases |moves|
  {
    if moves == [] {
      assert [] + [move] == [move] && [move][1..] == [];
      assert Moves(Moved(w, move), []);
    } else {
      assert (moves + [move])[1..] == moves[1..] + [move];
      MovesAppend(Moved(w, moves[0]), moves[1..], move);
    }
  }

  lemma OneMore(w: World, move: Move)
    requires Reachable(w) && MayMove(w, move)
    ensures Reachable(Moved(w, move))
  {
    var start, moves :| Start(start) && Moves(start, moves) && Later(start, moves) == w;
    MovesAppend(start, moves, move);
  }

  lemma StartIsReachable(w: World)
    requires Start(w)
    ensures Reachable(w)
  {
    assert Moves(w, []) && Later(w, []) == w;
  }

  // ----- a group without members -----

  /** Task 0 has entered a group whose scope is scope 0. */
  const FIRST_WORLD :=
    World(CT.BEFORE_SHIELD, 0, 0, {}, {}, map[], [], true, Body, None, None, [], None, None)

  lemma FirstWorldStarts()
    ensures Start(FIRST_WORLD)
  {
    var steps := CT.ToBeforeScopes();
    CT.EnterOuter();
    CT.LeadsBack(CT.BEFORE_SCOPES, EnterStep(0, false), [], CT.BEFORE_SHIELD);
    CT.LeadsOn(INITIAL, steps, CT.BEFORE_SCOPES, [EnterStep(0, false)] + [], CT.BEFORE_SHIELD);
  }

  /** The host was cancelled `count` times or more natively, and as often by the group's scope. */
  predicate IsStruck(w: World, count: nat) {
    && w.host in w.st.tasks && w.st.tasks[w.host].native >= count
    && w.g in w.st.calls && w.st.calls[w.g] >= count
  }

  /** The group's scope is cancelled and has no parent, and its host was struck. */
  predicate Flagged(w: World, count: nat) {
    && w.g in w.st.scopes && w.st.scopes[w.g].cancelCalled && w.st.scopes[w.g].parent == None
    && IsStruck(w, count)
  }

  /** The calls of a scope are given back only when it is left. */
  lemma DeliverCounts(st: State, s: ScopeId, g: ScopeId)
    requires s in st.scopes && s in st.calls && g in st.calls
    ensures g in Deliver(st, s).calls && Deliver(st, s).calls[g] >= st.calls[g]
  {
  }

  lemma RestartCounts(st: State, p: Option<ScopeId>, g: ScopeId)
    requires g in st.calls
    ensures g in Restart(st, p).calls && Restart(st, p).calls[g] >= st.calls[g]
  {
  }

  lemma EnterCounts(st: State, s: ScopeId, t: TaskId, g: ScopeId)
    requires s in st.scopes && s in st.calls && t in st.places && t in st.tasks && g in st.calls
    ensures g in Enter(st, s, t, false).calls && Enter(st, s, t, false).calls[g] >= st.calls[g]
  {
    var linked := Link(st, s, t);
    if linked.scopes[s].cancelCalled {
      DeliverCounts(linked, s, g);
    }
  }

  /** What a step of `__aexit__` does to the calls of the group's scope. */
  lemma StepCounts(st: State, step: Step, g: ScopeId, n: State)
    requires KeysOk(st) && Enabled(st, step) && g in st.scopes && n == Next(st, step)
    requires step.NewScope? || step.EnterStep? || step.ExitStep? || step.Block? || step.Resume?
    requires step != ExitStep(g) && (step.EnterStep? ==> !step.expired)
    ensures g in n.calls && n.calls[g] >= st.calls[g]
  {
    match step
    case EnterStep(s, expired) => EnterCounts(st, s, st.current.value, g);
    case ExitStep(s) => RestartCounts(Unlink(st, s, st.current.value), st.scopes[s].parent, g);
    case _ =>
  }

  lemma FlaggedStays(w: World, step: Step, n: World, count: nat)
    requires KeysOk(w.st) && Enabled(w.st, step) && Flagged(w, count)
    requires step.NewScope? || step.EnterStep? || step.ExitStep? || step.Block? || step.Resume?
    requires step.EnterStep? || step.ExitStep? ==> step.s != w.g
    requires step.EnterStep? ==> !step.expired
    requires n.st == Next(w.st, step) && n.g == w.g && n.host == w.host
    ensures Flagged(n, count)
  {
    ScopeFrame(w.st, step, w.g);
    NativeGrows(w.st, step, w.host);
    StepCounts(w.st, step, w.g, n.st);
  }

  /** The next piece of `__aexit__` in a run. */
  lemma Piece(w: World, s: ScopeId) returns (n: World)
    requires Reachable(w) && MayMove(w, HostStep(s))
    ensures n == Moved(w, HostStep(s)) && Reachable(n) && n.at == NextStation(w, s)
    ensures KeysOk(w.st) && Enabled(w.st, PieceStep(w, s)) && n.st == Next(w.st, PieceStep(w, s))
    ensures SameBooks(w, n)
  {
    n := Moved(w, HostStep(s));
    OneMore(w, HostStep(s));
    ReachableParts(w);
    ReachableParts(n);
    PieceBooks(w, s);
  }

  /** A piece of `__aexit__` that neither cancels nor leaves the group's scope. */
  lemma InnerPiece(w: World, s: ScopeId, count: nat) returns (n: World)
    requires Reachable(w) && InExit(w) && Flagged(w, count) && (w.at.Joining? ==> s !in w.st.scopes)
    requires w.at.Joining? || w.at.Entering? || w.at.Looping? || w.at.Leaving?
    ensures Reachable(n) && n.at == NextStation(w, s) && Flagged(n, count) && SameBooks(w, n)
    ensures HasPiece(n.at) ==> InExit(n)
    ensures n.at.Yielded? ==> n.st.current == None && n.st.tasks[n.host].waiter == NoWaiter
  {
    ReachableParts(w);
    n := Piece(w, s);
    FlaggedStays(w, PieceStep(w, s), n, count);
    ReachableParts(n);
  }

  /** The host of a group without members and failures is about to leave the body. */
  ghost predicate AtEnd(w: World, count: nat) {
    && Reachable(w) && w.at == Body && w.members == {} && w.failures == []
    && w.st.current == Some(w.host) && w.host in w.st.places && w.st.places[w.host].scope == Some(w.g)
    && w.g in w.st.scopes && w.st.scopes[w.g].parent == None
    && IsStruck(w, count)
  }

  lemma BeginBooks(w: World, e: U.Exc)
    requires KeysOk(w.st) && MayMove(w, BeginExit(Some(e))) && w.g in w.st.scopes
    requires w.failures == []
    ensures Moved(w, BeginExit(Some(e))) ==
            w.(st := Next(w.st, CancelStep(w.g)), at := Joining, hostExc := Some(e), exc := Some(e),
               failures := Collected(None, Some(e)))
  {
    assert w.failures + Collected(None, Some(e)) == Collected(None, Some(e));
  }

  lemma CancelFlags(st: State, g: ScopeId, host: TaskId, n: State)
    requires KeysOk(st) && g in st.scopes && host in st.tasks && n == Next(st, CancelStep(g))
    ensures g in n.calls && n.calls[g] >= st.calls[g]
    ensures n.scopes == st.scopes[g := st.scopes[g].(cancelCalled := true)] && n.current == st.current
    ensures host in n.tasks && n.tasks[host].native == st.tasks[host].native
  {
    StepLeaves(st, CancelStep(g));
    DeliverCounts(st.(scopes := Flag(st.scopes, g)), g, g);
  }

  /** What the host left the body with. */
  ghost predicate LeftWith(w: World, e: U.Exc) {
    && w.hostExc == Some(e) && w.exc == Some(e) && w.failures == Collected(None, Some(e))
    && w.dropped == None
  }

  lemma BeginFacts(w: World, e: U.Exc, count: nat, n: World)
    requires KeysOk(w.st) && AtEnd(w, count) && w.dropped == None
    requires n == w.(st := n.st, at := Joining, hostExc := Some(e), exc := Some(e),
                     failures := Collected(None, Some(e)))
    requires n.st == Next(w.st, CancelStep(w.g))
    ensures Flagged(n, count) && InExit(n) && LeftWith(n, e) && n.st.scopes.Keys == w.st.scopes.Keys
  {
    CancelFlags(w.st, w.g, w.host, n.st);
  }

  /** The host leaves the body with an exception. */
  lemma Begin(w: World, e: U.Exc, count: nat) returns (n: World)
    requires AtEnd(w, count)
    ensures Reachable(n) && n.at == Joining && n.members == {} && LeftWith(n, e)
    ensures Flagged(n, count) && InExit(n) && n.st.scopes.Keys == w.st.scopes.Keys
  {
    n := Moved(w, BeginExit(Some(e)));
    ReachableParts(w);
    BeginBooks(w, e);
    BeginFacts(w, e, count, n);
    OneMore(w, BeginExit(Some(e)));
  }

  /** A group without members goes from the body to its checkpoint. */
  lemma ToCheckpoint(w: World, e: U.Exc, s: ScopeId, count: nat) returns (n: World)
    requires AtEnd(w, count) && s !in w.st.scopes
    ensures Reachable(n) && n.at == Yielded(s) && Flagged(n, count) && LeftWith(n, e)
    ensures n.st.current == None && n.st.tasks[n.host].waiter == NoWaiter
  {
    n := Begin(w, e, count);
    n := MakeScope(n, s, count);
    n := EnterScope(n, s, count);
    n := YieldInScope(n, s, count);
  }

  /** It makes the scope of the checkpoint. */
  lemma MakeScope(w: World, s: ScopeId, count: nat) returns (n: World)
    requires Reachable(w) && w.at == Joining && w.members == {} && s !in w.st.scopes
    requires InExit(w) && Flagged(w, count)
    ensures Reachable(n) && n.at == Entering(s, true) && Flagged(n, count) && SameBooks(w, n) && InExit(n)
  {
    n := InnerPiece(w, s, count);
  }

  /** It enters that scope. */
  lemma EnterScope(w: World, s: ScopeId, count: nat) returns (n: World)
    requires Reachable(w) && w.at == Entering(s, true) && InExit(w) && Flagged(w, count)
    ensures Reachable(n) && n.at == Looping(s, true) && Flagged(n, count) && SameBooks(w, n) && InExit(n)
  {
    n := InnerPiece(w, s, count);
  }

  /** It yields in that scope. */
  lemma YieldInScope(w: World, s: ScopeId, count: nat) returns (n: World)
    requires Reachable(w) && w.at == Looping(s, true) && InExit(w) && Flagged(w, count)
    ensures Reachable(n) && n.at == Yielded(s) && Flagged(n, count) && SameBooks(w, n)
    ensures n.st.current == None && n.st.tasks[n.host].waiter == NoWaiter
  {
    n := InnerPiece(w, s, count);
  }

  /** From the checkpoint the host goes on, struck or not, to the end of `__aexit__`. */
  lemma ToClosing(w: World, e: U.Exc, count: nat) returns (n: World)
    requires Reachable(w) && w.at.Yielded? && MayMove(w, HostResumes(e)) && Flagged(w, count)
    ensures Reachable(n) && n.at == Closing && Flagged(n, count)
    ensures n.failures == w.failures && n.exc == w.exc && n.hostExc == w.hostExc
    ensures n.dropped == if IsInterrupted(w.st.tasks[w.host]) then Some(e) else None
  {
    var w1 := Moved(w, HostResumes(e));
    OneMore(w, HostResumes(e));
    ReachableParts(w);
    ReachableParts(w1);
    FlaggedStays(w, Resume(w.host), w1, count);
    n := InnerPiece(w1, w1.g, count);
  }

  // ----- native cancellation of the host -----

  lemma HostIsRunning(w: World)
    requires Reachable(w) && GroupOpen(w)
    ensures w.st.tasks[w.host].life == Running
  {
    ReachableParts(w);
  }

  /** The host can run again after the checkpoint. */
  lemma HostMayResume(w: World, e: U.Exc)
    requires Reachable(w) && w.at.Yielded? && e.Cancelled?
    requires w.host in w.st.tasks && w.st.current == None && w.st.tasks[w.host].waiter == NoWaiter
    ensures MayMove(w, HostResumes(e))
  {
    ReachableParts(w);
    HostIsRunning(w);
  }

  /** The host can be cancelled natively at the checkpoint, and then runs again. */
  lemma StrikeHost(w: World, e: U.Exc) returns (n: World)
    requires Reachable(w) && w.at.Yielded? && Flagged(w, 0) && e.Cancelled?
    requires w.st.current == None && w.st.tasks[w.host].waiter == NoWaiter
    ensures Reachable(n) && n.at == w.at && Flagged(n, 0) && SameBooks(w, n)
    ensures IsInterrupted(n.st.tasks[n.host]) && MayMove(n, HostResumes(e))
  {
    ReachableParts(w);
    HostIsRunning(w);
    n := w.(st := Next(w.st, NativeCancel(w.host)));
    ElsewhereGoes(w, NativeCancel(w.host), n);
  }

  /** The group's scope is left. */
  lemma ToClosed(w: World) returns (n: World)
    requires Reachable(w) && w.at == Closing
    ensures Reachable(n) && n.at == Closed && SameBooks(w, n) && n.raised == Raised(w)
  {
    ReachableParts(w);
    n := Piece(w, w.g);
    ReachableParts(n);
  }

  // ----- what can happen -----

  /** The host of a group that leaves its body with `e` is struck at the checkpoint. */
  lemma DropErrors(w: World, e: U.Exc, s: ScopeId, strike: U.Exc) returns (n: World)
    requires AtEnd(w, 0) && s !in w.st.scopes && strike.Cancelled?
    ensures Reachable(n) && n.at == Closed && n.raised == Some(strike)
    ensures n.failures == Collected(None, Some(e))
  {
    n := ToCheckpoint(w, e, s, 0);
    n := StrikeHost(n, strike);
    n := ToClosing(n, strike, 0);
    n := ToClosed(n);
  }

  lemma FirstWorldIsAtEnd()
    ensures AtEnd(FIRST_WORLD, 0) && 2 !in FIRST_WORLD.st.scopes
  {
    FirstWorldStarts();
    StartIsReachable(FIRST_WORLD);
  }

  /** A native cancellation that strikes the final checkpoint takes the place of the collected
      errors. */
  lemma ErrorsCanBeDropped() returns (w: World)
    ensures Reachable(w) && w.at == Closed
    ensures w.failures == [Failure(None, U.Other(1))]
    ensures w.raised == Some(U.Cancelled(false, None))
  {
    FirstWorldIsAtEnd();
    w := DropErrors(FIRST_WORLD, U.Other(1), 2, U.Cancelled(false, None));
  }

  /** In the body the group is cancelled; its scope delivers to the host as soon as that blocks,
      and so the host runs again with a cancellation. */
  const CANCELLED := CT.BEFORE_SHIELD.(
    scopes := Flag(CT.BEFORE_SHIELD.scopes, 0),
    handles := map[0 := Some(0), 1 := None], ready := map[0 := 0], nextHandle := 1)

  /** The host has blocked. */
  const AWAY := CANCELLED.(current := None)

  const STRUCK := AWAY.(
    tasks := map[0 := Task(Running, NoWaiter, true, 1, 0, 0)], calls := map[0 := 1, 1 := 0],
    handles := map[0 := Some(1), 1 := None], ready := map[1 := 0], nextHandle := 2)

  lemma RegionOfFlagged(m: Scopes, clock: nat)
    requires m == Flag(CT.BEFORE_SHIELD.scopes, 0)
    ensures ReachedTasks(m, clock, 0) == {0}
  {
    assert Kids(m, clock, 0) == {};
    assert Region(m, clock, 0) == {0};
    assert 0 in m[0].tasks;
  }

  /** The first delivery meets the host, but spares it since it runs. */
  lemma CancelSchedules()
    ensures Goes(CT.BEFORE_SHIELD, CancelStep(0), CANCELLED)
  {
    var f := CT.BEFORE_SHIELD.(scopes := Flag(CT.BEFORE_SHIELD.scopes, 0));
    RegionOfFlagged(f.scopes, f.clock);
    assert StrikeAll(f, 0, {0}) == f;
  }

  /** The second one strikes it. */
  lemma StrikesHost(f: State)
    requires f == AWAY.(ready := map[])
    ensures StrikeAll(f, 0, {0}) == f.(tasks := STRUCK.tasks, calls := STRUCK.calls)
  {
    assert Eligible(f, 0);
    assert StrikeAll(f, 0, {0}).tasks == STRUCK.tasks;
    assert StrikeAll(f, 0, {0}).calls == STRUCK.calls;
  }

  lemma CallbackStrikes()
    ensures Goes(AWAY, Callback(0), STRUCK)
  {
    var f := AWAY.(ready := map[]);
    assert AWAY.ready - {0} == map[];
    RegionOfFlagged(f.scopes, f.clock);
    StrikesHost(f);
    assert Deliver(f, 0) == Reschedule(StrikeAll(f, 0, {0}), 0, true);
  }

  lemma ElsewhereGoes(w: World, step: Step, n: World)
    requires Reachable(w) && KeysOk(w.st) && Enabled(w.st, step) && Outside(w, step)
    requires n == w.(st := Next(w.st, step))
    ensures Reachable(n)
  {
    OneMore(w, Elsewhere(step));
  }

  /** `step` leads from `st` to `n`, if `st` is well-formed. */
  ghost predicate Goes(st: State, step: Step, n: State) {
    KeysOk(st) ==> Enabled(st, step) && n == Next(st, step)
  }

  /** While the host is in the body, steps that are neither entries, exits nor spawns may come. */
  lemma InBody(w: World, st: State, step: Step, n: State)
    requires w.at == Body && Reachable(w.(st := st))
    requires Goes(st, step, n)
    requires step.CancelStep? || step.Block? || step.Callback? || step.Resume?
    ensures Reachable(w.(st := n))
  {
    ReachableParts(w.(st := st));
    ElsewhereGoes(w.(st := st), step, w.(st := n));
  }

  /** The group is cancelled, the host blocks, a delivery runs, and the host runs again. */
  lemma StrikeByScope(w: World, a: State, b: State, c: State, d: State)
    requires Reachable(w) && w.at == Body
    requires Goes(w.st, CancelStep(w.g), a) && Goes(a, Block(false), b)
    requires Goes(b, Callback(0), c) && Goes(c, Resume(w.host), d)
    ensures Reachable(w.(st := d))
  {
    assert w.(st := w.st) == w;
    InBody(w, w.st, CancelStep(w.g), a);
    InBody(w, a, Block(false), b);
    InBody(w, b, Callback(0), c);
    InBody(w, c, Resume(w.host), d);
  }

  lemma HostBlocks()
    ensures Goes(CANCELLED, Block(false), AWAY)
  {
  }

  const HANDLING := STRUCK.(
    tasks := map[0 := Task(Running, NoWaiter, false, 1, 0, 0)], current := Some(0))

  lemma HostRuns()
    ensures Goes(STRUCK, Resume(0), HANDLING)
  {
  }

  /** The host handles the cancellation by its group's scope. */
  lemma HostHandles()
    ensures Reachable(FIRST_WORLD.(st := HANDLING))
  {
    FirstWorldIsAtEnd();
    CancelSchedules();
    HostBlocks();
    CallbackStrikes();
    HostRuns();
    StrikeByScope(FIRST_WORLD, CANCELLED, AWAY, STRUCK, HANDLING);
  }

  lemma HandlingIsAtEnd(w: World)
    requires Reachable(w) && w == FIRST_WORLD.(st := HANDLING)
    ensures AtEnd(w, 0) && w.st.calls[w.g] == 1 && 2 !in w.st.scopes
  {
  }

  /** Between two statements of the body, the host is cancelled natively, blocks, and runs
      again. */
  lemma StrikeInBody(w: World) returns (n: World)
    requires AtEnd(w, 0) && w.st.calls[w.g] >= 1
    ensures AtEnd(n, 1) && n.st.scopes == w.st.scopes
  {
    ReachableParts(w);
    HostIsRunning(w);
    n := w.(st := Next(w.st, NativeCancel(w.host)));
    ElsewhereGoes(w, NativeCancel(w.host), n);
    n := YieldInBody(n);
  }

  /** The host of a group without members runs a checkpoint in the body. */
  lemma YieldInBody(w: World) returns (n: World)
    requires AtEnd(w, 1)
    ensures AtEnd(n, 1) && n.st.scopes == w.st.scopes
  {
    ReachableParts(w);
    var away := w.(st := Next(w.st, Block(false)));
    ElsewhereGoes(w, Block(false), away);
    ReachableParts(away);
    HostIsRunning(away);
    n := away.(st := Next(away.st, Resume(w.host)));
    ElsewhereGoes(away, Resume(w.host), n);
  }

  /** What the exit of the group's scope is given is its host's own exception. */
  lemma RaisesHostExc(w: World, e: U.Exc)
    requires LeftWith(w.(dropped := None), e) && e.Cancelled? && w.dropped in {None, Some(e)}
    ensures Raised(w) == Some(e)
  {
  }

  lemma ExitOfFlagged(w: World, e: U.Exc)
    requires Flagged(w, 0) && Raised(w) == Some(e)
    requires e.Cancelled? && e.context.Some? && U.FromScope(e.context.value)
    ensures CancelScopes.ExitSwallows(w.st, w.g, Raised(w))
  {
    assert U.Leaves(e) == [e];
    U.GroupIsSwallowed(w.st.scopes, w.g, [e]);
    assert U.AllFromScope([e]) <==> U.FromScope([e][0]);
  }

  /** The host leaves its body with a native cancellation. */
  lemma LeaveStruck(w: World, e: U.Exc, s: ScopeId) returns (n: World)
    requires AtEnd(w, 1) && s !in w.st.scopes && e.Cancelled?
    ensures Reachable(n) && n.at == Closing && Flagged(n, 1)
    ensures n.hostExc == Some(e) && Raised(n) == Some(e)
  {
    n := ToCheckpoint(w, e, s, 1);
    HostMayResume(n, e);
    n := ToClosing(n, e, 1);
    RaisesHostExc(n, e);
  }

  /** A native cancellation of the host, raised while it handles a cancellation by the group's
      scope, is swallowed by that scope like one by a scope. The scope did strike the host, since
      it counted the call, and so did somebody else. */
  lemma NativeCanBeSwallowed() returns (w: World)
    ensures Reachable(w) && w.at == Closing && IsStruck(w, 1)
    ensures w.hostExc == Some(U.Cancelled(false, Some(U.Cancelled(true, None))))
    ensures w.g in w.st.scopes && CancelScopes.ExitSwallows(w.st, w.g, Raised(w))
  {
    HostHandles();
    w := FIRST_WORLD.(st := HANDLING);
    HandlingIsAtEnd(w);
    w := StrikeInBody(w);
    var e := U.Cancelled(false, Some(U.Cancelled(true, None)));
    w := LeaveStruck(w, e, 2);
    ExitOfFlagged(w, e);
  }
}
