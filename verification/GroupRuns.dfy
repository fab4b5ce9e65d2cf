/** What every run of a task group keeps. */
module GroupRuns {
  import opened Wrappers
  import opened ScopeTree
  import opened Tasks
  import opened CancelState
  import opened GroupState
  import opened GroupFrames
  import CR = CancelRuns
  import CT = CancelTheorems
  import U = Unwinding

  // ----- what one step of the loop keeps -----

  /** Steps that leave the group's tasks to the group. */
  ghost predicate SparesMembers(w: World, step: Step) {
    && (step.SpawnStep? ==> step.g != w.g)
    && (step.Done? ==> step.t !in w.members)
    && (step.Return? && w.st.current.Some? ==> w.st.current.value !in w.members)
  }

  lemma MemberFrame(w: World, step: Step, n: World, t: TaskId)
    requires KeysOk(w.st) && Enabled(w.st, step) && MemberAt(w, t) && SparesMembers(w, step)
    requires n.st == Next(w.st, step) && n.g == w.g
    requires n.members == w.members && n.spawned == w.spawned && n.outcomes == w.outcomes
    ensures MemberAt(n, t)
  {
    if step == Done(t) {
      assert t !in n.st.places;
    } else {
      HomeFrame(w.st, step, t, w.g);
      if t in w.st.tasks {
        LifeFrame(w.st, step, t);
      }
    }
  }

  /** The part of `StateOk` that the frames need. */
  ghost predicate LoopOk(st: State) {
    KeysOk(st) && HostsRun(st.scopes, st.tasks)
  }

  lemma HostStays(w: World, step: Step)
    requires LoopOk(w.st) && Enabled(w.st, step) && GroupOpen(w)
    ensures step != Done(w.host)
  {
    assert w.st.tasks[w.host].life == Running;
  }

  lemma OpenFrame(w: World, step: Step, n: World)
    requires LoopOk(w.st) && Enabled(w.st, step) && GroupOpen(w) && step != ExitStep(w.g)
    requires n.st == Next(w.st, step) && n.g == w.g && n.host == w.host
    ensures GroupOpen(n)
  {
    HostStays(w, step);
    ScopeFrame(w.st, step, w.g);
    PlaceFrame(w.st, step, w.host);
    LifeFrame(w.st, step, w.host);
  }

  /** The steps that the host's inner scope survives. */
  ghost predicate SparesScope(w: World, step: Step, x: ScopeId) {
    && step !in {ExitStep(x), CancelStep(x)}
    && (step.SpawnStep? ==> step.g != x)
    && (w.st.current == Some(w.host) ==> !step.EnterStep? && !step.ExitStep?)
  }

  lemma NoHomeFrame(w: World, step: Step, n: World, x: ScopeId)
    requires KeysOk(w.st) && Enabled(w.st, step) && (step.SpawnStep? ==> step.g != x)
    requires n.st == Next(w.st, step)
    requires forall t :: t in w.st.places ==> w.st.places[t].home != Some(x)
    ensures forall t :: t in n.st.places ==> n.st.places[t].home != Some(x)
  {
    forall t | t in n.st.places
      ensures n.st.places[t].home != Some(x)
    {
      if step != Done(t) {
        HomeFrame(w.st, step, t, x);
      }
    }
  }

  lemma InScopeFrame(w: World, step: Step, n: World, x: ScopeId)
    requires LoopOk(w.st) && Enabled(w.st, step) && GroupOpen(w) && InScope(w, x) && SparesScope(w, step, x)
    requires n.st == Next(w.st, step) && n.g == w.g && n.host == w.host
    ensures InScope(n, x)
    ensures (step.ShieldStep? ==> step.s != x) && w.st.scopes[x].shield ==> n.st.scopes[x].shield
  {
    HostStays(w, step);
    ScopeFrame(w.st, step, x);
    PlaceFrame(w.st, step, w.host);
    NoHomeFrame(w, step, n, x);
  }

  lemma AtScopeFrame(w: World, step: Step, n: World, s: ScopeId)
    requires LoopOk(w.st) && Enabled(w.st, step) && GroupOpen(w) && HostAtScope(w, s)
    requires !step.EnterStep? && !step.ExitStep?
    requires n.st == Next(w.st, step) && n.host == w.host
    ensures HostAtScope(n, s)
  {
    HostStays(w, step);
    PlaceFrame(w.st, step, w.host);
  }

  // ----- steps of the rest of the program -----

  /** The same books: what the group has collected and remembered. */
  ghost predicate SameBooks(w: World, n: World) {
    && n.g == w.g && n.host == w.host && n.members == w.members && n.spawned == w.spawned
    && n.outcomes == w.outcomes && n.failures == w.failures
    && n.hostExc == w.hostExc && n.exc == w.exc && n.seen == w.seen && n.dropped == w.dropped
  }

  lemma BooksFrame(w: World, n: World)
    requires SameBooks(w, n) && FailuresOk(w)
    ensures FailuresOk(n)
  {
    assert forall f :: Owed(n, f) == Owed(w, f);
  }

  /** A step that concerns neither members nor books. */
  lemma QuietStep(w: World, step: Step, n: World)
    requires WorldOk(w) && Enabled(w.st, step) && SparesMembers(w, step)
    requires n.st == Next(w.st, step) && SameBooks(w, n)
    requires StationOk(n) && ExcOk(n)
    ensures WorldOk(n)
  {
    CR.StepKeeps(w.st, step);
    BooksFrame(w, n);
    forall t
      ensures MemberAt(n, t)
    {
      assert MemberAt(w, t);
      MemberFrame(w, step, n, t);
    }
  }

  lemma OutsideSparesScope(w: World, step: Step, x: ScopeId)
    requires Enabled(w.st, step) && Outside(w, step) && Own(w.at) == Some(x) && InScope(w, x)
    ensures SparesScope(w, step, x) && step != ExitStep(w.g) && (step.ShieldStep? ==> step.s != x)
    ensures w.st.current == Some(w.host) ==> !step.Block? && !step.Return?
    ensures step != Resume(w.host)
  {
  }

  lemma ElsewhereInScope(w: World, step: Step, x: ScopeId)
    requires LoopOk(w.st) && Enabled(w.st, step) && Outside(w, step)
    requires Own(w.at) == Some(x) && InScope(w, x) && GroupOpen(w)
    ensures var n := Do(w, step, w.at);
            && GroupOpen(n) && InScope(n, x) && n.members == w.members
            && (w.st.scopes[x].shield ==> n.st.scopes[x].shield)
            && (n.st.current == Some(w.host) <==> w.st.current == Some(w.host))
  {
    var n := Do(w, step, w.at);
    OutsideSparesScope(w, step, x);
    OpenFrame(w, step, n);
    InScopeFrame(w, step, n, x);
    CurrentFrame(w.st, step);
  }

  lemma ElsewhereAtGroup(w: World, step: Step)
    requires LoopOk(w.st) && Enabled(w.st, step) && Outside(w, step)
    requires GroupOpen(w) && HostAtScope(w, w.g) && InExit(w)
    ensures var n := Do(w, step, w.at);
            GroupOpen(n) && HostAtScope(n, w.g) && n.st.current == Some(w.host)
  {
    var n := Do(w, step, w.at);
    OpenFrame(w, step, n);
    AtScopeFrame(w, step, n, w.g);
    CurrentFrame(w.st, step);
  }

  lemma ElsewhereInExit(w: World, step: Step)
    requires LoopOk(w.st) && StationOk(w) && Enabled(w.st, step) && Outside(w, step)
    requires w.at.Joining? || w.at.Entering? || w.at.Closing?
    ensures StationOk(Do(w, step, w.at))
  {
    ElsewhereAtGroup(w, step);
    if w.at.Entering? {
      ScopeFrame(w.st, step, w.at.w);
    }
  }

  lemma ElsewhereKeepsStation(w: World, step: Step)
    requires LoopOk(w.st) && StationOk(w) && MayMove(w, Elsewhere(step))
    ensures StationOk(Do(w, step, w.at))
  {
    var n := Do(w, step, w.at);
    if w.at.Body? {
      OpenFrame(w, step, n);
    } else if w.at.Closed? {
      ScopeFrame(w.st, step, w.g);
    } else if Own(w.at).None? || w.at.Entering? {
      ElsewhereInExit(w, step);
    } else {
      ElsewhereInScope(w, step, w.at.w);
      if w.at.Parked? {
        HostStays(w, step);
        WaiterFrame(w.st, step, w.host);
      }
    }
  }

  lemma ElsewhereKeeps(w: World, step: Step)
    requires WorldOk(w) && MayMove(w, Elsewhere(step))
    ensures WorldOk(Moved(w, Elsewhere(step)))
  {
    ElsewhereKeepsStation(w, step);
    QuietStep(w, step, Do(w, step, w.at));
  }

  // ----- the pieces of __aexit__ -----

  lemma JoiningStation(w: World, s: ScopeId)
    requires LoopOk(w.st) && StationOk(w) && w.at.Joining? && s !in w.st.scopes
    ensures Enabled(w.st, NewScope(s, w.members == {}))
    ensures StationOk(ExitPiece(w, s))
  {
    var step := NewScope(s, w.members == {});
    var n := ExitPiece(w, s);
    OpenFrame(w, step, n);
    AtScopeFrame(w, step, n, w.g);
    CurrentFrame(w.st, step);
  }

  /** A scope without history is nobody's home. */
  lemma NoHomeBeforeEntry(st: State, x: ScopeId)
    requires StateOk(st) && x in st.scopes && !st.scopes[x].active
    ensures forall t :: t in st.places ==> st.places[t].home != Some(x)
  {
    assert forall t :: t in st.places ==> HomeAt(st.scopes, st.places, t);
  }

  lemma EnteringStation(w: World)
    requires LoopOk(w.st) && StationOk(w) && w.at.Entering?
    requires forall t :: t in w.st.places ==> w.st.places[t].home != Some(w.at.w)
    ensures Enabled(w.st, EnterStep(w.at.w, false))
    ensures StationOk(ExitPiece(w, w.at.w))
  {
    var x := w.at.w;
    var step := EnterStep(x, false);
    var n := ExitPiece(w, x);
    OpenFrame(w, step, n);
    CurrentFrame(w.st, step);
    StepLeaves(w.st, step);
  }

  lemma BlockStation(w: World)
    requires LoopOk(w.st) && StationOk(w) && w.at.Looping? && (w.at.yielding || w.members != {})
    requires w.members <= w.spawned
    ensures Enabled(w.st, Block(!w.at.yielding))
    ensures StationOk(ExitPiece(w, w.at.w))
  {
    var step := Block(!w.at.yielding);
    var n := ExitPiece(w, w.at.w);
    OpenFrame(w, step, n);
    InScopeFrame(w, step, n, w.at.w);
    CurrentFrame(w.st, step);
  }

  lemma LeaveStation(w: World)
    requires LoopOk(w.st) && StationOk(w)
    requires w.at.Leaving? || (w.at.Looping? && !w.at.yielding && w.members == {})
    ensures Enabled(w.st, ExitStep(w.at.w))
    ensures StationOk(ExitPiece(w, w.at.w))
  {
    var step := ExitStep(w.at.w);
    var n := ExitPiece(w, w.at.w);
    OpenFrame(w, step, n);
    CurrentFrame(w.st, step);
    StepLeaves(w.st, step);
  }

  lemma FlagStation(w: World)
    requires LoopOk(w.st) && StationOk(w) && (w.at.Shielding? || w.at.Cancelling?)
    ensures Enabled(w.st, if w.at.Shielding? then ShieldStep(w.at.w, true) else CancelStep(w.g))
    ensures StationOk(ExitPiece(w, w.at.w))
  {
    var step := if w.at.Shielding? then ShieldStep(w.at.w, true) else CancelStep(w.g);
    var n := ExitPiece(w, w.at.w);
    OpenFrame(w, step, n);
    InScopeFrame(w, step, n, w.at.w);
    ScopeFrame(w.st, step, w.at.w);
    CurrentFrame(w.st, step);
  }

  /** The group's scope can be left: no task calls it home. */
  lemma ClosingStation(w: World)
    requires LoopOk(w.st) && StationOk(w) && w.at.Closing?
    requires forall t {:trigger MemberAt(w, t)} :: MemberAt(w, t)
    ensures Enabled(w.st, ExitStep(w.g))
    ensures StationOk(ExitPiece(w, w.g))
  {
    var step := ExitStep(w.g);
    forall t | t in w.st.places
      ensures w.st.places[t].home != Some(w.g)
    {
      assert MemberAt(w, t);
    }
    assert NewAt(w.st.scopes, w.st.calls, w.g);
    StepLeaves(w.st, step);
  }

  lemma PieceStation(w: World, s: ScopeId)
    requires LoopOk(w.st) && StationOk(w) && HasPiece(w.at)
    requires w.at.Joining? ==> s !in w.st.scopes
    requires w.members <= w.spawned && forall t {:trigger MemberAt(w, t)} :: MemberAt(w, t)
    requires w.at.Entering? ==> forall t :: t in w.st.places ==> w.st.places[t].home != Some(w.at.w)
    ensures Enabled(w.st, PieceStep(w, s)) && StationOk(ExitPiece(w, s))
  {
    match w.at
    case Joining => JoiningStation(w, s);
    case Entering(x, y) => EnteringStation(w);
    case Looping(x, y) =>
      if y || w.members != {} {
        BlockStation(w);
      } else {
        LeaveStation(w);
      }
    case Shielding(x) => FlagStation(w);
    case Cancelling(x) => FlagStation(w);
    case Leaving(x) => LeaveStation(w);
    case Closing => ClosingStation(w);
  }

  /** Only the state, the station and the way out differ. */
  lemma BooksOf(w: World, n: World, st: State)
    requires ExcOk(w) && HasPiece(w.at)
    requires n == w.(st := st, at := n.at, active := n.active, raised := n.raised)
    requires !n.at.Body? && (w.at.Leaving? || w.at.Closing? ==> n.at.Closing? || n.at.Closed?)
    ensures SameBooks(w, n) && ExcOk(n)
  {
  }

  lemma PieceBooks(w: World, s: ScopeId)
    requires KeysOk(w.st) && ExcOk(w) && HasPiece(w.at)
    requires Enabled(w.st, PieceStep(w, s))
    ensures ExitPiece(w, s).st == Next(w.st, PieceStep(w, s)) && SameBooks(w, ExitPiece(w, s))
    ensures ExcOk(ExitPiece(w, s)) && SparesMembers(w, PieceStep(w, s))
  {
    BooksOf(w, ExitPiece(w, s), Next(w.st, PieceStep(w, s)));
  }

  lemma MembersWereSpawned(w: World)
    requires forall t {:trigger MemberAt(w, t)} :: MemberAt(w, t)
    ensures w.members <= w.spawned
  {
    forall t | t in w.members
      ensures t in w.spawned
    {
      assert MemberAt(w, t);
    }
  }

  lemma HostStepKeeps(w: World, s: ScopeId)
    requires WorldOk(w) && MayMove(w, HostStep(s))
    ensures WorldOk(Moved(w, HostStep(s)))
  {
    MembersWereSpawned(w);
    if w.at.Entering? {
      NoHomeBeforeEntry(w.st, w.at.w);
    }
    PieceStation(w, s);
    PieceBooks(w, s);
    QuietStep(w, PieceStep(w, s), ExitPiece(w, s));
  }

  // ----- the host runs again -----

  /** The host runs inside its inner scope again, wherever it goes from there. */
  lemma ResumeFrame(w: World, n: World, x: ScopeId)
    requires LoopOk(w.st) && GroupOpen(w) && InScope(w, x) && Enabled(w.st, Resume(w.host))
    requires n.st == Next(w.st, Resume(w.host)) && n.g == w.g && n.host == w.host
    ensures GroupOpen(n) && InScope(n, x) && n.st.current == Some(n.host)
    ensures w.st.scopes[x].shield ==> n.st.scopes[x].shield
  {
    OpenFrame(w, Resume(w.host), n);
    InScopeFrame(w, Resume(w.host), n, x);
    CurrentFrame(w.st, Resume(w.host));
  }

  lemma ResumeStation(w: World, e: U.Exc)
    requires LoopOk(w.st) && StationOk(w) && (w.at.Parked? || w.at.Yielded?)
    requires Enabled(w.st, Resume(w.host))
    ensures StationOk(ResumeHost(w, e))
  {
    var n := ResumeHost(w, e);
    ResumeFrame(w, n, w.at.w);
    assert n.at in {Shielding(w.at.w), Looping(w.at.w, false), Leaving(w.at.w)};
    assert n.at == Looping(w.at.w, false) ==> n.seen == w.seen;
  }

  /** A cancellation replaces the remembered exception so that a native one is never lost. */
  lemma RememberKeepsNative(w: World, n: World, e: U.Exc)
    requires ExcOk(w) && n.exc == Remember(w.exc, e) && n.seen == w.seen + [e] && n.hostExc == w.hostExc
    requires !n.at.Body? && n.dropped == w.dropped && w.at.Parked? && e.Cancelled?
    ensures ExcOk(n)
  {
    assert forall i :: 0 <= i < |w.seen| ==> n.seen[i] == w.seen[i];
    assert n.seen[|w.seen|] == e;
  }

  lemma ResumeBooks(w: World, e: U.Exc)
    requires KeysOk(w.st) && ExcOk(w) && FailuresOk(w) && MayMove(w, HostResumes(e))
    ensures var n := ResumeHost(w, e);
            && n.st == Next(w.st, Resume(w.host)) && FailuresOk(n) && ExcOk(n)
            && n.g == w.g && n.members == w.members && n.spawned == w.spawned && n.outcomes == w.outcomes
  {
    var n := ResumeHost(w, e);
    assert forall f :: Owed(n, f) == Owed(w, f);
    if w.at.Parked? && IsInterrupted(w.st.tasks[w.host]) {
      RememberKeepsNative(w, n, e);
    }
  }

  /** A step that the group makes, with its members as they were. */
  lemma MembersAll(w: World, step: Step, n: World)
    requires StateOk(w.st) && (forall t {:trigger MemberAt(w, t)} :: MemberAt(w, t))
    requires Enabled(w.st, step) && SparesMembers(w, step)
    requires n.st == Next(w.st, step) && n.g == w.g
    requires n.members == w.members && n.spawned == w.spawned && n.outcomes == w.outcomes
    ensures StateOk(n.st) && forall t {:trigger MemberAt(n, t)} :: MemberAt(n, t)
  {
    CR.StepKeeps(w.st, step);
    forall t
      ensures MemberAt(n, t)
    {
      assert MemberAt(w, t);
      MemberFrame(w, step, n, t);
    }
  }

  lemma HostResumesKeeps(w: World, e: U.Exc)
    requires WorldOk(w) && MayMove(w, HostResumes(e))
    ensures WorldOk(Moved(w, HostResumes(e)))
  {
    ResumeStation(w, e);
    ResumeBooks(w, e);
    MembersAll(w, Resume(w.host), ResumeHost(w, e));
  }

  // ----- members come and go while the host is in its body or parked -----

  /** What such a step leaves of the host's station. */
  lemma AwayFrame(w: World, step: Step, n: World)
    requires LoopOk(w.st) && StationOk(w) && Enabled(w.st, step) && (w.at.Body? || w.at.Parked?)
    requires step != ExitStep(w.g) && step != Resume(w.host)
    requires w.at.Parked? ==> SparesScope(w, step, w.at.w) && !step.ShieldStep?
    requires n.st == Next(w.st, step) && n.g == w.g && n.host == w.host && n.seen == w.seen
    requires w.spawned <= n.spawned
    requires if w.at.Parked? then n.at == w.at else n.at.Body?
    ensures StationOk(n)
  {
    OpenFrame(w, step, n);
    if w.at.Parked? {
      InScopeFrame(w, step, n, w.at.w);
      CurrentFrame(w.st, step);
      HostStays(w, step);
      WaiterFrame(w.st, step, w.host);
    }
  }

  /** Somebody else runs, or nobody, and there are members: the host is in its body or waits. */
  lemma HostIsAway(w: World, t: TaskId)
    requires WorldOk(w) && t in w.members
    requires w.st.current == None || w.st.current.value in w.members
    ensures w.at.Body? || w.at.Parked?
    ensures w.host !in w.members
  {
    assert MemberAt(w, w.host) && MemberAt(w, t);
    assert w.host in w.st.places ==> HomeAt(w.st.scopes, w.st.places, w.host);
  }

  lemma CompletionStation(w: World, t: TaskId)
    requires LoopOk(w.st) && StationOk(w) && MayMove(w, Completion(t))
    requires w.at.left == {t} && w.st.tasks[w.host].waiter == Pending
    ensures Enabled(w.st, Complete(w.host)) && StationOk(Completed(w, t))
  {
    var n := Completed(w, t);
    AwayFrame(w, Complete(w.host), n.(at := w.at));
    assert n.st.tasks[w.host].waiter == HasResult;
  }

  /** One completion less to wait for, with others to come or the future done. */
  lemma StillParked(w: World, t: TaskId, n: World)
    requires WorldOk(w) && w.at.Parked? && n == w.(at := w.at.(left := w.at.left - {t}))
    requires n.at.left != {} || w.st.tasks[w.host].waiter != Pending
    ensures WorldOk(n)
  {
    BooksFrame(w, n);
    forall x
      ensures MemberAt(n, x)
    {
      assert MemberAt(w, x);
    }
  }

  lemma LastCompletionKeeps(w: World, t: TaskId)
    requires WorldOk(w) && MayMove(w, Completion(t))
    requires w.at.left == {t} && w.st.tasks[w.host].waiter == Pending
    ensures WorldOk(Completed(w, t))
  {
    LastCompletionIsQuiet(w, t, Completed(w, t));
    QuietStep(w, Complete(w.host), Completed(w, t));
  }

  lemma LastCompletionIsQuiet(w: World, t: TaskId, n: World)
    requires LoopOk(w.st) && StationOk(w) && ExcOk(w) && MayMove(w, Completion(t))
    requires w.at.left == {t} && w.st.tasks[w.host].waiter == Pending && n == Completed(w, t)
    ensures Enabled(w.st, Complete(w.host)) && n.st == Next(w.st, Complete(w.host))
    ensures SameBooks(w, n) && StationOk(n) && ExcOk(n)
  {
    CompletionStation(w, t);
  }

  lemma CompletionKeeps(w: World, t: TaskId)
    requires WorldOk(w) && MayMove(w, Completion(t))
    ensures WorldOk(Moved(w, Completion(t)))
  {
    if w.at.left - {t} == {} && w.st.tasks[w.host].waiter == Pending {
      assert w.at.left == {t};
      LastCompletionKeeps(w, t);
    } else {
      StillParked(w, t, Completed(w, t));
    }
  }

  // ----- the members -----

  lemma SpawnMemberKeeps(w: World, t: TaskId)
    requires WorldOk(w) && MayMove(w, SpawnMember(t))
    ensures WorldOk(Moved(w, SpawnMember(t)))
  {
    var n := Moved(w, SpawnMember(t));
    if w.active {
      MayAccept(w);
      SpawnStation(w, t, n);
      SpawnMembers(w, t, n);
      CR.StepKeeps(w.st, SpawnStep(w.g, t));
      BooksAfterSpawn(w, t, n);
    }
  }

  /** Whoever may spawn a member runs while the group's scope is open. */
  lemma MayAccept(w: World)
    requires WorldOk(w) && w.st.current.Some?
    requires w.st.current.value in w.members || (w.st.current.value == w.host && w.at.Body?)
    ensures (w.at.Body? || w.at.Parked?) && GroupOpen(w)
  {
    if w.st.current.value in w.members {
      assert MemberAt(w, w.st.current.value) && MemberAt(w, w.host);
      assert w.host in w.st.places ==> HomeAt(w.st.scopes, w.st.places, w.host);
    }
  }

  lemma SpawnStation(w: World, t: TaskId, n: World)
    requires LoopOk(w.st) && StationOk(w) && Enabled(w.st, SpawnStep(w.g, t))
    requires (w.at.Body? || w.at.Parked?) && GroupOpen(w)
    requires n == w.(st := Next(w.st, SpawnStep(w.g, t)), members := n.members, spawned := w.spawned + {t})
    requires w.at.Parked? ==> w.st.current != Some(w.host)
    ensures StationOk(n)
  {
    AwayFrame(w, SpawnStep(w.g, t), n);
  }

  lemma SpawnMembers(w: World, t: TaskId, n: World)
    requires LoopOk(w.st) && (forall x {:trigger MemberAt(w, x)} :: MemberAt(w, x))
    requires Enabled(w.st, SpawnStep(w.g, t)) && t !in w.spawned
    requires n == w.(st := Next(w.st, SpawnStep(w.g, t)), members := w.members + {t}, spawned := w.spawned + {t})
    ensures forall x {:trigger MemberAt(n, x)} :: MemberAt(n, x)
  {
    forall x
      ensures MemberAt(n, x)
    {
      assert MemberAt(w, x);
    }
  }

  lemma BooksAfterSpawn(w: World, t: TaskId, n: World)
    requires FailuresOk(w) && ExcOk(w) && MemberAt(w, t) && t !in w.spawned
    requires n == w.(st := n.st, members := w.members + {t}, spawned := w.spawned + {t})
    ensures FailuresOk(n) && ExcOk(n)
  {
    assert forall f :: Owed(n, f) == Owed(w, f);
  }

  lemma MemberReturnsKeeps(w: World, o: Option<U.Exc>)
    requires WorldOk(w) && MayMove(w, MemberReturns(o))
    ensures WorldOk(Moved(w, MemberReturns(o)))
  {
    var n := Moved(w, MemberReturns(o));
    var t := w.st.current.value;
    MayAccept(w);
    HostIsAway(w, t);
    ReturnStation(w, n);
    CR.StepKeeps(w.st, Return);
    BooksAfterReturn(w, t, o, n);
    ReturnMembers(w, t, o, n);
  }

  lemma ReturnStation(w: World, n: World)
    requires LoopOk(w.st) && StationOk(w) && (w.at.Body? || w.at.Parked?)
    requires Enabled(w.st, Return) && w.st.current != Some(w.host)
    requires n == w.(st := Next(w.st, Return), outcomes := n.outcomes)
    ensures StationOk(n)
  {
    AwayFrame(w, Return, n);
  }

  lemma BooksAfterReturn(w: World, t: TaskId, o: Option<U.Exc>, n: World)
    requires FailuresOk(w) && ExcOk(w) && t in w.members
    requires n == w.(st := n.st, outcomes := w.outcomes[t := o])
    ensures FailuresOk(n) && ExcOk(n)
  {
    assert forall f :: Owed(n, f) == Owed(w, f);
  }

  lemma ReturnMembers(w: World, t: TaskId, o: Option<U.Exc>, n: World)
    requires KeysOk(w.st) && (forall x {:trigger MemberAt(w, x)} :: MemberAt(w, x))
    requires Enabled(w.st, Return) && w.st.current == Some(t) && t in w.members
    requires n == w.(st := Next(w.st, Return), outcomes := w.outcomes[t := o])
    ensures forall x {:trigger MemberAt(n, x)} :: MemberAt(n, x)
  {
    assert MemberAt(w, t);
    forall x
      ensures MemberAt(n, x)
    {
      assert MemberAt(w, x);
    }
  }

  lemma DoneMembers(w: World, t: TaskId, n: World)
    requires KeysOk(w.st) && (forall x {:trigger MemberAt(w, x)} :: MemberAt(w, x))
    requires Enabled(w.st, Done(t)) && t in w.members && t in w.outcomes
    requires n == w.(st := Next(w.st, Done(t)), members := w.members - {t}, failures := n.failures)
    ensures forall x {:trigger MemberAt(n, x)} :: MemberAt(n, x)
  {
    assert MemberAt(w, t);
    forall x
      ensures MemberAt(n, x)
    {
      assert MemberAt(w, x);
    }
  }

  lemma DoneBooks(w: World, t: TaskId, n: World)
    requires FailuresOk(w) && ExcOk(w) && t in w.members && t in w.outcomes
    requires n == w.(st := n.st, members := w.members - {t},
                     failures := w.failures + Collected(Some(t), w.outcomes[t]))
    ensures FailuresOk(n) && ExcOk(n)
  {
    forall i | 0 <= i < |w.failures|
      ensures w.failures[i].source != Some(t)
    {
      assert w.failures[i] in w.failures;
      assert Owed(w, w.failures[i]);
    }
    CollectedOnce(w.failures, w.outcomes[t], Some(t));
    forall f
      ensures f in n.failures <==> Owed(n, f)
    {
      assert f in w.failures <==> Owed(w, f);
    }
  }

  lemma CollectedOnce(failures: seq<Failure>, e: Option<U.Exc>, source: Option<TaskId>)
    ensures forall f :: f in failures + Collected(source, e) <==>
              f in failures || (e == Some(f.error) && !f.error.Cancelled? && f.source == source)
  {
    var more := Collected(source, e);
    forall f
      ensures f in failures + more <==> f in failures || f in more
    {
    }
  }

  lemma DoneStation(w: World, t: TaskId, n: World)
    requires LoopOk(w.st) && StationOk(w) && (w.at.Body? || w.at.Parked?)
    requires Enabled(w.st, Done(t)) && t != w.host
    requires n == w.(st := Next(w.st, Done(t)), members := n.members, failures := n.failures)
    ensures StationOk(n)
  {
    AwayFrame(w, Done(t), n);
  }

  lemma RemovedKeeps(w: World, t: TaskId)
    requires WorldOk(w) && MayMove(w, MemberDone(t))
    ensures t in w.outcomes && WorldOk(Removed(w, t)) && (w.at.Body? || w.at.Parked?)
  {
    assert MemberAt(w, t);
    HostIsAway(w, t);
    var n := Removed(w, t);
    DoneStation(w, t, n);
    DoneMembers(w, t, n);
    DoneBooks(w, t, n);
    CR.StepKeeps(w.st, Done(t));
  }

  /** `cancel()` of the group's scope by its own code. */
  lemma CancelGroupKeeps(w: World)
    requires WorldOk(w) && (w.at.Body? || w.at.Parked?)
    ensures WorldOk(CancelGroup(w))
  {
    var n := Do(w, CancelStep(w.g), w.at);
    CancelStation(w, n);
    QuietStep(w, CancelStep(w.g), n);
  }

  lemma CancelStation(w: World, n: World)
    requires LoopOk(w.st) && StationOk(w) && (w.at.Body? || w.at.Parked?) && w.g in w.st.scopes
    requires n == w.(st := Next(w.st, CancelStep(w.g)))
    ensures StationOk(n)
  {
    AwayFrame(w, CancelStep(w.g), n);
  }

  lemma MemberDoneKeeps(w: World, t: TaskId)
    requires WorldOk(w) && MayMove(w, MemberDone(t))
    ensures WorldOk(Moved(w, MemberDone(t)))
  {
    RemovedKeeps(w, t);
    CancelGroupKeeps(Removed(w, t));
  }

  // ----- the host leaves the body -----

  lemma BeginExitKeeps(w: World, e: Option<U.Exc>)
    requires WorldOk(w) && MayMove(w, BeginExit(e))
    ensures WorldOk(Moved(w, BeginExit(e)))
  {
    var n := w.(hostExc := e, exc := e, failures := w.failures + Collected(None, e), at := Joining);
    BeginBooks(w, e, n);
    forall x
      ensures MemberAt(n, x)
    {
      assert MemberAt(w, x);
    }
    if e.Some? {
      BeginStation(n);
      QuietStep(n, CancelStep(n.g), Do(n, CancelStep(n.g), Joining));
    }
  }

  lemma BeginBooks(w: World, e: Option<U.Exc>, n: World)
    requires FailuresOk(w) && ExcOk(w) && w.at.Body?
    requires n == w.(hostExc := e, exc := e, failures := w.failures + Collected(None, e), at := Joining)
    ensures FailuresOk(n) && ExcOk(n)
  {
    forall i | 0 <= i < |w.failures|
      ensures w.failures[i].source != None
    {
      assert w.failures[i] in w.failures;
      assert Owed(w, w.failures[i]);
    }
    CollectedOnce(w.failures, e, None);
    forall f
      ensures f in n.failures <==> Owed(n, f)
    {
      assert f in w.failures <==> Owed(w, f);
    }
  }

  lemma BeginStation(n: World)
    requires LoopOk(n.st) && n.at.Joining? && StationOk(n)
    ensures Enabled(n.st, CancelStep(n.g)) && StationOk(Do(n, CancelStep(n.g), Joining))
  {
    var m := Do(n, CancelStep(n.g), Joining);
    OpenFrame(n, CancelStep(n.g), m);
    AtScopeFrame(n, CancelStep(n.g), m, n.g);
    CurrentFrame(n.st, CancelStep(n.g));
  }

  // ----- runs -----

  lemma MoveKeeps(w: World, move: Move)
    requires WorldOk(w) && MayMove(w, move)
    ensures WorldOk(Moved(w, move))
  {
    match move
    case Elsewhere(step) => ElsewhereKeeps(w, step);
    case SpawnMember(t) => SpawnMemberKeeps(w, t);
    case MemberReturns(o) => MemberReturnsKeeps(w, o);
    case MemberDone(t) => MemberDoneKeeps(w, t);
    case BeginExit(e) => BeginExitKeeps(w, e);
    case HostStep(s) => HostStepKeeps(w, s);
    case HostResumes(e) => HostResumesKeeps(w, e);
    case Completion(t) => CompletionKeeps(w, t);
  }

  lemma StartOk(w: World)
    requires Start(w)
    ensures WorldOk(w)
  {
    CT.ReachableOk(w.st);
  }

  lemma {:induction false} MovesKeep(w: World, moves: seq<Move>)
    requires WorldOk(w) && Moves(w, moves)
    ensures WorldOk(Later(w, moves))
    decreases |moves|
  {
    if moves != [] {
      MoveKeeps(w, moves[0]);
      MovesKeep(Moved(w, moves[0]), moves[1..]);
    }
  }
}
