/**
 Only native cancellation gets through a shield: what may strike the host of a group while
 `__aexit__` waits.
 */
module GroupNative {
  import opened Wrappers
  import opened ScopeTree
  import opened Tasks
  import opened CancelState
  import opened GroupState
  import opened GroupFrames
  import opened GroupRuns
  import U = Unwinding
  import CR = CancelRuns
  import CT = CancelTheorems

  // ----- one scope that no delivery reaches -----

  lemma {:induction false} ShieldedIsOutside(m: Scopes, clock: nat, s: ScopeId, x: ScopeId)
    requires s in m && x in m && m[x].shield && x != s
    ensures x !in Region(m, clock, s)
    decreases clock - m[s].order
  {
    if x in Region(m, clock, s) {
      var c :| c in Kids(m, clock, s) && x in Region(m, clock, c);
      ShieldedIsOutside(m, clock, c, x);
    }
  }

  /** No delivery that starts at `x` is scheduled, and none will be. */
  ghost predicate Silent(st: State, x: ScopeId) {
    && x in st.scopes && !st.scopes[x].cancelCalled
    && forall h :: h in st.ready ==> st.ready[h] != x
  }

  /** The task `t` is in the shielded scope `x` and in no other. */
  ghost predicate Sheltered(m: Scopes, x: ScopeId, t: TaskId) {
    x in m && m[x].shield && forall y :: y in m && t in m[y].tasks ==> y == x
  }

  lemma DeliverSpares(st: State, s: ScopeId, x: ScopeId, t: TaskId)
    requires s in st.scopes && s in st.calls && t in st.tasks && Silent(st, x) && s != x
    ensures Silent(Deliver(st, s), x)
    ensures t in Deliver(st, s).tasks
    ensures Sheltered(st.scopes, x, t) || st.current == Some(t) ==> Deliver(st, s).tasks[t] == st.tasks[t]
  {
    if Sheltered(st.scopes, x, t) {
      ShieldedIsOutside(st.scopes, st.clock, s, x);
    }
  }

  lemma RestartSpares(st: State, p: Option<ScopeId>, x: ScopeId, t: TaskId)
    requires t in st.tasks && Silent(st, x)
    ensures Silent(Restart(st, p), x)
    ensures t in Restart(st, p).tasks
    ensures Sheltered(st.scopes, x, t) || st.current == Some(t) ==> Restart(st, p).tasks[t] == st.tasks[t]
  {
    var o := OriginOf(st.scopes, p);
    if o.Some? && o.value in st.calls {
      DeliverSpares(st, o.value, x, t);
    }
  }

  lemma CancelSpares(st: State, s: ScopeId, x: ScopeId, t: TaskId)
    requires s in st.scopes && s in st.calls && t in st.tasks && Silent(st, x) && s != x
    ensures Silent(CancelCall(st, s), x)
    ensures t in CancelCall(st, s).tasks
    ensures Sheltered(st.scopes, x, t) || st.current == Some(t) ==> CancelCall(st, s).tasks[t] == st.tasks[t]
  {
    DeliverSpares(st.(scopes := Flag(st.scopes, s)), s, x, t);
  }

  lemma EnterSpares(st: State, s: ScopeId, u: TaskId, expired: bool, x: ScopeId, t: TaskId)
    requires s in st.scopes && s in st.calls && u in st.places && u in st.tasks && t in st.tasks
    requires Silent(st, x) && (s != x || !expired) && st.current == Some(u)
    ensures Silent(Enter(st, s, u, expired), x)
    ensures t in Enter(st, s, u, expired).tasks
    ensures (Sheltered(st.scopes, x, t) && s != x) || t == u ==>
              Enter(st, s, u, expired).tasks[t] == st.tasks[t]
  {
    var linked := Link(st, s, u);
    assert Silent(linked, x);
    if Sheltered(st.scopes, x, t) && t != u && s != x {
      assert Sheltered(linked.scopes, x, t);
    }
    if s != x {
      var timed := if expired then CancelCall(linked, s) else linked;
      if expired {
        CancelSpares(linked, s, x, t);
        CancelLeaves(linked, s);
      }
      if timed.scopes[s].cancelCalled {
        DeliverSpares(timed, s, x, t);
      }
    }
  }

  /** The steps of the loop that neither start a delivery at `x` nor touch `t` itself. */
  ghost predicate Spares(st: State, step: Step, x: ScopeId, t: TaskId) {
    && step !in {CancelStep(x), EnterStep(x, true), EnterStep(x, false), ExitStep(x)}
    && step !in {Resume(t), Done(t), Complete(t), NativeCancel(t)}
    && (step.Block? || step.Return? ==> st.current != Some(t))
  }

  lemma StepSpares(st: State, step: Step, x: ScopeId, t: TaskId)
    requires KeysOk(st) && Enabled(st, step) && Spares(st, step, x, t)
    requires t in st.tasks && Silent(st, x)
    ensures Silent(Next(st, step), x)
    ensures t in Next(st, step).tasks
    ensures Sheltered(st.scopes, x, t) && st.current != Some(t) && (step.ShieldStep? ==> step.s != x) ==>
              Next(st, step).tasks[t] == st.tasks[t]
  {
    match step
    case EnterStep(s, expired) => EnterSpares(st, s, st.current.value, expired, x, t);
    case ExitStep(s) =>
      var u := Unlink(st, s, st.current.value);
      if Sheltered(st.scopes, x, t) && st.current != Some(t) {
        assert Sheltered(u.scopes, x, t);
      }
      RestartSpares(u, st.scopes[s].parent, x, t);
    case CancelStep(s) => CancelSpares(st, s, x, t);
    case ShieldStep(s, v) =>
      var flipped := st.(scopes := st.scopes[s := st.scopes[s].(shield := v)]);
      assert Sheltered(st.scopes, x, t) && s != x ==> Sheltered(flipped.scopes, x, t);
      RestartSpares(flipped, st.scopes[s].parent, x, t);
    case Callback(h) => DeliverSpares(st.(ready := st.ready - {h}), st.ready[h], x, t);
    case _ =>
  }

  // ----- the running task -----

  /** A cancellation that is due was, at least in part, native. */
  predicate Clean(t: Task) {
    IsInterrupted(t) ==> t.native > 0
  }

  /** Deliveries skip the running task. */
  ghost predicate CurrentClean(st: State) {
    st.current.Some? && st.current.value in st.tasks ==> Clean(st.tasks[st.current.value])
  }

  lemma DeliverSkips(st: State, s: ScopeId)
    requires s in st.scopes && s in st.calls && CurrentClean(st)
    ensures CurrentClean(Deliver(st, s))
  {
  }

  lemma RestartSkips(st: State, p: Option<ScopeId>)
    requires CurrentClean(st)
    ensures CurrentClean(Restart(st, p))
  {
  }

  lemma CancelSkips(st: State, s: ScopeId)
    requires s in st.scopes && s in st.calls && CurrentClean(st)
    ensures CurrentClean(CancelCall(st, s))
  {
    DeliverSkips(st.(scopes := Flag(st.scopes, s)), s);
  }

  lemma EnterSkips(st: State, s: ScopeId, t: TaskId, expired: bool)
    requires s in st.scopes && s in st.calls && t in st.places && t in st.tasks && CurrentClean(st)
    ensures CurrentClean(Enter(st, s, t, expired))
  {
    var linked := Link(st, s, t);
    var timed := if expired then CancelCall(linked, s) else linked;
    if expired {
      CancelSkips(linked, s);
      CancelLeaves(linked, s);
    }
    if timed.scopes[s].cancelCalled {
      DeliverSkips(timed, s);
    }
  }

  lemma StepSkips(st: State, step: Step)
    requires KeysOk(st) && Enabled(st, step) && CurrentClean(st)
    ensures CurrentClean(Next(st, step))
  {
    match step
    case EnterStep(s, expired) => EnterSkips(st, s, st.current.value, expired);
    case ExitStep(s) => RestartSkips(Unlink(st, s, st.current.value), st.scopes[s].parent);
    case CancelStep(s) => CancelSkips(st, s);
    case ShieldStep(s, v) =>
      RestartSkips(st.(scopes := st.scopes[s := st.scopes[s].(shield := v)]), st.scopes[s].parent);
    case Callback(h) => DeliverSkips(st.(ready := st.ready - {h}), st.ready[h]);
    case _ =>
  }

  lemma {:induction false} RunSkips(st: State, steps: seq<Step>)
    requires CurrentClean(st) && CR.Runs(st, steps)
    ensures CurrentClean(CR.After(st, steps))
    decreases |steps|
  {
    if steps != [] {
      StepSkips(st, steps[0]);
      RunSkips(Next(st, steps[0]), steps[1..]);
    }
  }

  lemma ReachableIsClean(st: State)
    requires CT.Reachable(st)
    ensures CurrentClean(st)
  {
    var steps :| CR.Runs(INITIAL, steps) && CR.After(INITIAL, steps) == st;
    RunSkips(INITIAL, steps);
  }

  // ----- the host of a group -----

  /** The join has been struck once, so its scope is shielded; so is that of the checkpoint. */
  predicate ShieldedWait(w: World) {
    w.at.Yielded? || (w.at.Parked? && w.seen != [])
  }

  /** Nothing but native cancellation gets at the host behind its shield. */
  ghost predicate NativeOk(w: World) {
    && CurrentClean(w.st)
    && (!w.at.Closed? && !w.at.Stuck? ==>
          && w.host in w.st.tasks
          && (Own(w.at).Some? ==> Silent(w.st, Own(w.at).value))
          && (ShieldedWait(w) ==> Clean(w.st.tasks[w.host]))
          && (w.dropped.Some? || |w.seen| > 1 ==> w.st.tasks[w.host].native > 0))
  }

  /** While the host waits, its task is in its inner scope and in no other. */
  lemma OnlyInScope(w: World, x: ScopeId)
    requires TasksOk(w.st.scopes, w.st.places) && InScope(w, x) && w.st.scopes[x].shield
    ensures Sheltered(w.st.scopes, x, w.host)
  {
    forall y | y in w.st.scopes && w.host in w.st.scopes[y].tasks
      ensures y == x
    {
      assert MembersAt(w.st.scopes, w.st.places, y);
    }
  }

  /** Behind the shield the host is as before. */
  lemma WaitSpares(w: World, step: Step, x: ScopeId)
    requires KeysOk(w.st) && TasksOk(w.st.scopes, w.st.places) && w.st.current != Some(w.host)
    requires w.host in w.st.tasks && InScope(w, x) && w.st.scopes[x].shield && Silent(w.st, x)
    requires Enabled(w.st, step) && Spares(w.st, step, x, w.host) && (step.ShieldStep? ==> step.s != x)
    ensures w.host in Next(w.st, step).tasks && Next(w.st, step).tasks[w.host] == w.st.tasks[w.host]
  {
    OnlyInScope(w, x);
    StepSpares(w.st, step, x, w.host);
  }

  /** A step of somebody else. */
  lemma OthersStepIsNative(w: World, step: Step, n: World)
    requires LoopOk(w.st) && TasksOk(w.st.scopes, w.st.places) && StationOk(w) && NativeOk(w)
    requires !w.at.Closed? && Enabled(w.st, step) && step != Done(w.host)
    requires Own(w.at).Some? ==>
               Spares(w.st, step, Own(w.at).value, w.host) && (step.ShieldStep? ==> step.s != Own(w.at).value)
    requires n.st == Next(w.st, step) && n.at == w.at && n.host == w.host
    requires n.seen == w.seen && n.dropped == w.dropped
    ensures NativeOk(n)
  {
    StepSkips(w.st, step);
    NativeGrows(w.st, step, w.host);
    if Own(w.at).Some? {
      StepSpares(w.st, step, Own(w.at).value, w.host);
      if ShieldedWait(w) {
        WaitSpares(w, step, Own(w.at).value);
      }
    }
  }

  // ----- the moves -----

  lemma OutsideSpares(w: World, step: Step, x: ScopeId)
    requires KeysOk(w.st) && StationOk(w) && Enabled(w.st, step) && Outside(w, step)
    requires Own(w.at) == Some(x) && step != Done(w.host)
    requires step !in {NativeCancel(w.host), Complete(w.host)}
    ensures step.ShieldStep? ==> step.s != x
    ensures Spares(w.st, step, x, w.host)
  {
    assert w.at.Entering? || (x in w.st.scopes && w.st.scopes[x].active && HostAtScope(w, x));
    assert step != ExitStep(x);
  }

  /** A native cancellation counts itself, and a result is no cancellation. */
  lemma HostTouched(w: World, step: Step)
    requires KeysOk(w.st) && NativeOk(w) && Enabled(w.st, step)
    requires step in {NativeCancel(w.host), Complete(w.host)}
    ensures NativeOk(Do(w, step, w.at))
  {
    StepSkips(w.st, step);
  }

  lemma ElsewhereIsNative(w: World, step: Step)
    requires LoopOk(w.st) && TasksOk(w.st.scopes, w.st.places) && StationOk(w) && NativeOk(w)
    requires Enabled(w.st, step) && Outside(w, step)
    ensures NativeOk(Do(w, step, w.at))
  {
    var n := Do(w, step, w.at);
    if w.at.Closed? {
      StepSkips(w.st, step);
    } else if step in {NativeCancel(w.host), Complete(w.host)} {
      HostTouched(w, step);
    } else {
      HostStays(w, step);
      if Own(w.at).Some? {
        OutsideSpares(w, step, Own(w.at).value);
      }
      OthersStepIsNative(w, step, n);
    }
  }

  /** A step by or about a member. */
  lemma MembersStepIsNative(w: World, step: Step, n: World)
    requires LoopOk(w.st) && TasksOk(w.st.scopes, w.st.places) && StationOk(w) && NativeOk(w)
    requires (w.at.Body? || w.at.Parked?) && Enabled(w.st, step)
    requires (step.SpawnStep? && step.g == w.g) || step == CancelStep(w.g)
             || (step.Return? && w.st.current != Some(w.host)) || (step.Done? && step.t != w.host)
    requires n.st == Next(w.st, step) && n.at == w.at && n.host == w.host
    requires n.seen == w.seen && n.dropped == w.dropped
    ensures NativeOk(n)
  {
    OthersStepIsNative(w, step, n);
  }

  lemma SpawnIsNative(w: World, t: TaskId)
    requires WorldOk(w) && NativeOk(w) && MayMove(w, SpawnMember(t))
    ensures NativeOk(Moved(w, SpawnMember(t)))
  {
    if w.active {
      MayAccept(w);
      MembersStepIsNative(w, SpawnStep(w.g, t), Moved(w, SpawnMember(t)));
    }
  }

  lemma ReturnIsNative(w: World, o: Option<U.Exc>)
    requires WorldOk(w) && NativeOk(w) && MayMove(w, MemberReturns(o))
    ensures NativeOk(Moved(w, MemberReturns(o)))
  {
    MayAccept(w);
    HostIsAway(w, w.st.current.value);
    MembersStepIsNative(w, Return, Moved(w, MemberReturns(o)));
  }

  lemma CancelGroupIsNative(w: World)
    requires WorldOk(w) && NativeOk(w) && (w.at.Body? || w.at.Parked?)
    ensures NativeOk(CancelGroup(w))
  {
    if w.g in w.st.scopes && !EffectivelyCancelled(w.st.scopes, w.g) {
      MembersStepIsNative(w, CancelStep(w.g), CancelGroup(w));
    }
  }

  lemma RemovedIsNative(w: World, t: TaskId)
    requires WorldOk(w) && NativeOk(w) && MayMove(w, MemberDone(t)) && t in w.outcomes
    ensures NativeOk(Removed(w, t))
  {
    RemovedKeeps(w, t);
    HostIsAway(w, t);
    MembersStepIsNative(w, Done(t), Removed(w, t));
  }

  lemma DoneIsNative(w: World, t: TaskId)
    requires WorldOk(w) && NativeOk(w) && MayMove(w, MemberDone(t))
    ensures NativeOk(Moved(w, MemberDone(t)))
  {
    RemovedKeeps(w, t);
    RemovedIsNative(w, t);
    CancelGroupIsNative(Removed(w, t));
  }

  lemma BeginIsNative(w: World, e: Option<U.Exc>)
    requires LoopOk(w.st) && StationOk(w) && ExcOk(w) && NativeOk(w) && MayMove(w, BeginExit(e))
    ensures NativeOk(Moved(w, BeginExit(e)))
  {
    if e.Some? {
      StepSkips(w.st, CancelStep(w.g));
      NativeGrows(w.st, CancelStep(w.g), w.host);
    }
  }

  /** What one piece of `__aexit__` has to keep. */
  lemma NativeAfter(w: World, step: Step, n: World)
    requires KeysOk(w.st) && NativeOk(w) && !w.at.Closed? && !w.at.Stuck? && Enabled(w.st, step)
    requires step != Done(w.host) && n.st == Next(w.st, step) && n.host == w.host
    requires n.seen == w.seen && n.dropped == w.dropped
    requires Own(n.at).Some? ==> Silent(n.st, Own(n.at).value)
    requires ShieldedWait(n) ==> w.host in n.st.tasks && Clean(n.st.tasks[w.host])
    ensures NativeOk(n)
  {
    StepSkips(w.st, step);
    NativeGrows(w.st, step, w.host);
  }

  lemma BlockIsNative(w: World, s: ScopeId)
    requires LoopOk(w.st) && StationOk(w) && NativeOk(w)
    requires w.at.Looping? && (w.at.yielding || w.members != {}) && Enabled(w.st, PieceStep(w, s))
    ensures NativeOk(ExitPiece(w, s))
  {
    NativeAfter(w, PieceStep(w, s), ExitPiece(w, s));
  }

  lemma FlagIsNative(w: World, s: ScopeId)
    requires LoopOk(w.st) && StationOk(w) && NativeOk(w) && (w.at.Shielding? || w.at.Cancelling?)
    requires Enabled(w.st, PieceStep(w, s))
    ensures NativeOk(ExitPiece(w, s))
  {
    StepSpares(w.st, PieceStep(w, s), w.at.w, w.host);
    NativeAfter(w, PieceStep(w, s), ExitPiece(w, s));
  }

  lemma EnterIsNative(w: World, s: ScopeId)
    requires LoopOk(w.st) && StationOk(w) && NativeOk(w)
    requires w.at.Joining? || w.at.Entering?
    requires w.at.Joining? ==> s !in w.st.scopes
    requires Enabled(w.st, PieceStep(w, s))
    ensures NativeOk(ExitPiece(w, s))
  {
    if w.at.Entering? {
      EnterSpares(w.st, w.at.w, w.host, false, w.at.w, w.host);
    }
    NativeAfter(w, PieceStep(w, s), ExitPiece(w, s));
  }

  lemma LeaveFacts(w: World, n: World)
    requires NativeOk(w) && !w.at.Closed? && !w.at.Stuck?
    requires CurrentClean(n.st) && w.host in n.st.tasks
    requires n.st.tasks[w.host].native >= w.st.tasks[w.host].native
    requires n.at.Closing? || n.at.Closed?
    requires n.host == w.host && n.seen == w.seen && n.dropped == w.dropped
    ensures NativeOk(n)
  {
  }

  lemma LeaveIsNative(w: World, x: ScopeId, n: World)
    requires KeysOk(w.st) && NativeOk(w) && !w.at.Closed? && !w.at.Stuck?
    requires Enabled(w.st, ExitStep(x)) && n.st == Next(w.st, ExitStep(x))
    requires n.at.Closing? || n.at.Closed?
    requires n.host == w.host && n.seen == w.seen && n.dropped == w.dropped
    ensures NativeOk(n)
  {
    StepSkips(w.st, ExitStep(x));
    NativeGrows(w.st, ExitStep(x), w.host);
    LeaveFacts(w, n);
  }

  lemma PieceSilence(w: World, s: ScopeId)
    requires LoopOk(w.st) && StationOk(w) && NativeOk(w) && HasPiece(w.at)
    requires w.at.Joining? ==> s !in w.st.scopes
    requires Enabled(w.st, PieceStep(w, s))
    ensures NativeOk(ExitPiece(w, s))
  {
    match w.at
    case Joining => EnterIsNative(w, s);
    case Entering(x, y) => EnterIsNative(w, s);
    case Looping(x, y) =>
      if y || w.members != {} {
        BlockIsNative(w, s);
      } else {
        LeaveIsNative(w, x, ExitPiece(w, s));
      }
    case Shielding(x) => FlagIsNative(w, s);
    case Cancelling(x) => FlagIsNative(w, s);
    case Leaving(x) => LeaveIsNative(w, x, ExitPiece(w, s));
    case Closing => LeaveIsNative(w, w.g, ExitPiece(w, s));
  }

  lemma ResumeIsNative(w: World, e: U.Exc)
    requires KeysOk(w.st) && NativeOk(w) && ExcOk(w) && (w.at.Parked? || w.at.Yielded?)
    requires Enabled(w.st, Resume(w.host))
    ensures NativeOk(ResumeHost(w, e))
  {
    StepSkips(w.st, Resume(w.host));
    NativeGrows(w.st, Resume(w.host), w.host);
  }

  lemma CompletionIsNative(w: World, t: TaskId)
    requires KeysOk(w.st) && NativeOk(w) && w.at.Parked?
    ensures NativeOk(Completed(w, t))
  {
    if Enabled(w.st, Complete(w.host)) {
      HostTouched(w, Complete(w.host));
    }
  }

  lemma PieceIsNative(w: World, s: ScopeId)
    requires WorldOk(w) && NativeOk(w) && MayMove(w, HostStep(s))
    ensures NativeOk(ExitPiece(w, s))
  {
    MembersWereSpawned(w);
    if w.at.Entering? {
      NoHomeBeforeEntry(w.st, w.at.w);
    }
    PieceStation(w, s);
    PieceSilence(w, s);
  }

  lemma MoveIsNative(w: World, move: Move)
    requires WorldOk(w) && NativeOk(w) && MayMove(w, move)
    ensures NativeOk(Moved(w, move))
  {
    match move
    case Elsewhere(step) => ElsewhereIsNative(w, step);
    case SpawnMember(t) => SpawnIsNative(w, t);
    case MemberReturns(o) => ReturnIsNative(w, o);
    case MemberDone(t) => DoneIsNative(w, t);
    case BeginExit(e) => BeginIsNative(w, e);
    case HostStep(s) => PieceIsNative(w, s);
    case HostResumes(e) => ResumeIsNative(w, e);
    case Completion(t) => CompletionIsNative(w, t);
  }

  lemma {:induction false} MovesAreNative(w: World, moves: seq<Move>)
    requires WorldOk(w) && NativeOk(w) && Moves(w, moves)
    ensures NativeOk(Later(w, moves))
    decreases |moves|
  {
    if moves != [] {
      MoveKeeps(w, moves[0]);
      MoveIsNative(w, moves[0]);
      MovesAreNative(Moved(w, moves[0]), moves[1..]);
    }
  }

  lemma StartIsNative(w: World)
    requires Start(w)
    ensures NativeOk(w)
  {
    ReachableIsClean(w.st);
    CT.ReachableOk(w.st);
  }
}
