/**
 What makes a task group cancel its scope, which exception a cancelled join remembers, and how
 long the group accepts tasks.
 */
module GroupCancels {
  import opened Wrappers
  import opened ScopeTree
  import opened Tasks
  import opened CancelState
  import opened GroupState
  import opened GroupFrames
  import opened GroupRuns
  import opened GroupTheorems
  import U = Unwinding

  // ----- a cancelled scope stays cancelled -----

  predicate Called(st: State, s: ScopeId) {
    s in st.scopes && st.scopes[s].cancelCalled
  }

  lemma QuietCalls(st: State, step: Step, s: ScopeId)
    requires KeysOk(st) && Enabled(st, step) && Called(st, s)
    ensures Called(Quiet(st, step), s)
  {
  }

  lemma CalledStays(st: State, step: Step, s: ScopeId)
    requires KeysOk(st) && Enabled(st, step) && Called(st, s)
    ensures Called(Next(st, step), s)
  {
    QuietCalls(st, step, s);
    StepLeaves(st, step);
  }

  lemma CancelCalls(st: State, s: ScopeId)
    requires KeysOk(st) && s in st.scopes
    ensures Called(Next(st, CancelStep(s)), s)
  {
    StepLeaves(st, CancelStep(s));
  }

  lemma DoKeepsCalled(w: World, step: Step, at: Station)
    requires Called(w.st, w.g)
    ensures Called(Do(w, step, at).st, w.g)
  {
    if KeysOk(w.st) && Enabled(w.st, step) {
      CalledStays(w.st, step, w.g);
    }
  }

  lemma DoneKeepsCalled(w: World, t: TaskId)
    requires Called(w.st, w.g) && t in w.outcomes
    ensures Called(TaskDone(w, t).st, w.g)
  {
    DoKeepsCalled(w, Done(t), w.at);
    DoKeepsCalled(Removed(w, t), CancelStep(w.g), Removed(w, t).at);
  }

  lemma MoveKeepsCalled(w: World, move: Move)
    requires MayMove(w, move) && Called(w.st, w.g)
    ensures Called(Moved(w, move).st, w.g)
  {
    match move
    case Elsewhere(step) => DoKeepsCalled(w, step, w.at);
    case SpawnMember(t) => DoKeepsCalled(w, SpawnStep(w.g, t), w.at);
    case MemberReturns(o) => DoKeepsCalled(w, Return, w.at);
    case MemberDone(t) =>
      if t in w.outcomes {
        DoneKeepsCalled(w, t);
      }
    case BeginExit(e) =>
      var n := w.(hostExc := e, exc := e, failures := w.failures + Collected(None, e), at := Joining);
      DoKeepsCalled(n, CancelStep(n.g), Joining);
    case HostStep(s) => DoKeepsCalled(w, PieceStep(w, s), NextStation(w, s));
    case HostResumes(e) => ResumeKeepsCalled(w, e);
    case Completion(t) => DoKeepsCalled(w, Complete(w.host), w.at.(left := w.at.left - {t}));
  }

  lemma ResumeKeepsCalled(w: World, e: U.Exc)
    requires Called(w.st, w.g)
    ensures Called(ResumeHost(w, e).st, w.g)
  {
    match w.at
    case Parked(x, l) =>
      DoKeepsCalled(w, Resume(w.host), Shielding(x));
      DoKeepsCalled(w, Resume(w.host), Looping(x, false));
    case Yielded(x) => DoKeepsCalled(w, Resume(w.host), Leaving(x));
    case _ =>
  }

  // ----- what every world keeps -----

  /** A cancelled join cancels the group before it waits again or ends. */
  predicate HasCancelled(at: Station) {
    at.Looping? || at.Parked? || at.Yielded? || at.Leaving? || at.Closing? || at.Closed?
  }

  /** The cancellations and the error that the host met, in order. */
  function Met(w: World): seq<U.Exc> {
    (if w.hostExc.Some? then [w.hostExc.value] else []) + w.seen
  }

  /** The exception remembered: an error of the body; else the last cancellation that no scope
      made; else the first. */
  ghost predicate IsRemembered(met: seq<U.Exc>, exc: Option<U.Exc>) {
    if met == [] then exc == None
    else if !met[0].Cancelled? then exc == Some(met[0])
    else exists i :: 0 <= i < |met| && exc == Some(met[i]) && (i > 0 ==> !ByScope(met[i]))
                     && forall j :: i < j < |met| ==> ByScope(met[j])
  }

  ghost predicate CancelsOk(w: World) {
    && (w.hostExc.Some? && !w.at.Stuck? ==> Called(w.st, w.g))
    && (w.seen != [] && HasCancelled(w.at) ==> Called(w.st, w.g))
    && IsRemembered(Met(w), w.exc) && (forall i :: 0 <= i < |w.seen| ==> w.seen[i].Cancelled?)
    && (w.at.Body? ==> w.hostExc == None && w.seen == [])
    && (!w.at.Closed? && !w.at.Stuck? ==> w.active)
    && (w.at.Closed? ==> (w.active <==> w.dropped.Some?))
  }

  lemma RememberMeans(met: seq<U.Exc>, exc: Option<U.Exc>, e: U.Exc)
    requires IsRemembered(met, exc) && e.Cancelled? && forall j :: 0 < j < |met| ==> met[j].Cancelled?
    ensures IsRemembered(met + [e], Remember(exc, e))
  {
    var n := met + [e];
    if met != [] && met[0].Cancelled? {
      var i :| 0 <= i < |met| && exc == Some(met[i]) && (i > 0 ==> !ByScope(met[i]))
            && forall j :: i < j < |met| ==> ByScope(met[j]);
      var k := if ByScope(e) then i else |met|;
      assert n[0] == met[0];
      assert Remember(exc, e) == Some(n[k]) && (k > 0 ==> !ByScope(n[k]));
      assert forall j :: k < j < |n| ==> ByScope(n[j]);
    } else if met == [] {
      assert n[0] == e && Remember(exc, e) == Some(n[0]);
    } else {
      assert n[0] == met[0];
    }
  }

  // ----- the moves -----

  /** The host's books are the same. */
  predicate SameHostBooks(w: World, n: World) {
    n.g == w.g && n.hostExc == w.hostExc && n.seen == w.seen && n.exc == w.exc && n.dropped == w.dropped
  }

  /** Moves that leave the host's books alone: where they may lead. */
  lemma SameBooksCancel(w: World, n: World)
    requires CancelsOk(w) && SameHostBooks(w, n) && (Called(w.st, w.g) ==> Called(n.st, n.g))
    requires n.at.Stuck? || (!n.at.Body? && !w.at.Stuck?) || n.at == w.at
    requires HasCancelled(n.at) ==> HasCancelled(w.at) || w.seen == [] || Called(n.st, n.g)
    requires if n.at.Closed? && !w.at.Closed? then n.active == (w.active && w.dropped.Some?) else n.active == w.active
    requires w.at.Closed? ==> n.at.Closed? || n.at.Stuck?
    ensures CancelsOk(n)
  {
    assert Met(n) == Met(w);
  }

  lemma DoLeaves(w: World, step: Step, at: Station)
    ensures var n := Do(w, step, at);
            n == w.(st := n.st, at := n.at) && (n.at == at || n.at.Stuck?)
  {
  }

  lemma DoneLeaves(w: World, t: TaskId)
    requires t in w.outcomes
    ensures var n := TaskDone(w, t);
            && SameHostBooks(w, n) && n.active == w.active && (n.at == w.at || n.at.Stuck?)
  {
    DoLeaves(w, Done(t), w.at);
    var m := Removed(w, t);
    DoLeaves(m, CancelStep(w.g), m.at);
  }

  /** Moves of everybody but the host. */
  lemma OthersLeave(w: World, move: Move)
    requires MayMove(w, move) && !move.BeginExit? && !move.HostStep? && !move.HostResumes?
    ensures var n := Moved(w, move);
            && SameHostBooks(w, n) && n.active == w.active
            && (n.at == w.at || n.at.Stuck? || (w.at.Parked? && n.at.Parked?))
  {
    match move
    case Elsewhere(step) => DoLeaves(w, step, w.at);
    case SpawnMember(t) => DoLeaves(w, SpawnStep(w.g, t), w.at);
    case MemberReturns(o) => DoLeaves(w, Return, w.at);
    case MemberDone(t) =>
      if t in w.outcomes {
        DoneLeaves(w, t);
      }
    case Completion(t) => DoLeaves(w, Complete(w.host), w.at.(left := w.at.left - {t}));
  }

  lemma OthersMoveCancels(w: World, move: Move)
    requires CancelsOk(w) && MayMove(w, move) && !move.BeginExit? && !move.HostStep? && !move.HostResumes?
    ensures CancelsOk(Moved(w, move))
  {
    if Called(w.st, w.g) {
      MoveKeepsCalled(w, move);
    }
    OthersLeave(w, move);
    SameBooksCancel(w, Moved(w, move));
  }

  lemma BeginCancels(w: World, e: Option<U.Exc>)
    requires CancelsOk(w) && StationOk(w) && LoopOk(w.st) && MayMove(w, BeginExit(e))
    ensures CancelsOk(Moved(w, BeginExit(e)))
  {
    var n := Moved(w, BeginExit(e));
    if e.Some? {
      CancelCalls(w.st, w.g);
      assert Met(n) == [e.value];
    } else {
      assert Met(n) == [];
    }
  }

  lemma PieceLeaves(w: World, s: ScopeId)
    requires HasPiece(w.at)
    ensures var n := ExitPiece(w, s);
            && SameHostBooks(w, n) && (n.at == NextStation(w, s) || n.at.Stuck?)
            && n.active == (if w.at.Closing? then w.active && w.dropped.Some? else w.active)
  {
  }

  lemma PieceCancels(w: World, s: ScopeId)
    requires CancelsOk(w) && StationOk(w) && LoopOk(w.st) && MayMove(w, HostStep(s))
    requires Enabled(w.st, PieceStep(w, s))
    ensures CancelsOk(Moved(w, HostStep(s)))
  {
    if Called(w.st, w.g) {
      MoveKeepsCalled(w, HostStep(s));
    }
    PieceLeaves(w, s);
    if w.at.Cancelling? {
      CancelCalls(w.st, w.g);
    }
    SameBooksCancel(w, ExitPiece(w, s));
  }

  lemma ResumeLeaves(w: World, e: U.Exc)
    requires w.at.Parked? || w.at.Yielded?
    ensures var n := ResumeHost(w, e);
            && n.g == w.g && n.hostExc == w.hostExc && n.active == w.active
            && ((n.seen == w.seen && n.exc == w.exc)
                || (n.seen == w.seen + [e] && n.exc == Remember(w.exc, e) && (n.at.Shielding? || n.at.Stuck?)))
            && (n.at.Shielding? || n.at.Looping? || n.at.Leaving? || n.at.Stuck?)
  {
  }

  lemma ResumeCancels(w: World, e: U.Exc)
    requires CancelsOk(w) && MayMove(w, HostResumes(e))
    ensures CancelsOk(Moved(w, HostResumes(e)))
  {
    var n := Moved(w, HostResumes(e));
    if Called(w.st, w.g) {
      MoveKeepsCalled(w, HostResumes(e));
    }
    ResumeLeaves(w, e);
    ResumedBooks(w, e, n);
  }

  lemma ResumedBooks(w: World, e: U.Exc, n: World)
    requires CancelsOk(w) && (w.at.Parked? || w.at.Yielded?) && e.Cancelled?
    requires n.g == w.g && n.hostExc == w.hostExc && n.active == w.active
    requires Called(w.st, w.g) ==> Called(n.st, n.g)
    requires (n.seen == w.seen && n.exc == w.exc)
             || (n.seen == w.seen + [e] && n.exc == Remember(w.exc, e) && (n.at.Shielding? || n.at.Stuck?))
    requires n.at.Shielding? || n.at.Looping? || n.at.Leaving? || n.at.Stuck?
    ensures CancelsOk(n)
  {
    if n.seen == w.seen + [e] {
      RememberMeans(Met(w), w.exc, e);
      assert Met(n) == Met(w) + [e];
    } else {
      assert Met(n) == Met(w);
    }
  }

  lemma MoveCancels(w: World, move: Move)
    requires CancelsOk(w) && StationOk(w) && LoopOk(w.st) && MayMove(w, move)
    requires move.HostStep? ==> Enabled(w.st, PieceStep(w, move.scope))
    ensures CancelsOk(Moved(w, move))
  {
    match move
    case BeginExit(e) => BeginCancels(w, e);
    case HostStep(s) => PieceCancels(w, s);
    case HostResumes(e) => ResumeCancels(w, e);
    case _ => OthersMoveCancels(w, move);
  }

  lemma PieceGoes(w: World, s: ScopeId)
    requires WorldOk(w) && MayMove(w, HostStep(s))
    ensures Enabled(w.st, PieceStep(w, s))
  {
    MembersWereSpawned(w);
    if w.at.Entering? {
      NoHomeBeforeEntry(w.st, w.at.w);
    }
    PieceStation(w, s);
  }

  lemma {:induction false} MovesCancel(w: World, moves: seq<Move>)
    requires WorldOk(w) && CancelsOk(w) && Moves(w, moves)
    ensures CancelsOk(Later(w, moves))
    decreases |moves|
  {
    if moves != [] {
      MoveKeeps(w, moves[0]);
      if moves[0].HostStep? {
        PieceGoes(w, moves[0].scope);
      }
      MoveCancels(w, moves[0]);
      MovesCancel(Moved(w, moves[0]), moves[1..]);
    }
  }

  lemma ReachableCancels(w: World)
    requires Reachable(w)
    ensures CancelsOk(w)
  {
    var start, moves :| Start(start) && Moves(start, moves) && Later(start, moves) == w;
    StartOk(start);
    StartCancels(start);
    MovesCancel(start, moves);
  }

  lemma StartCancels(w: World)
    requires Start(w)
    ensures CancelsOk(w)
  {
    assert Met(w) == [];
  }

  // ----- the theorems -----

  /** The group is cancelled when its host leaves the body with an exception, and when its join
      was cancelled, before the host waits again. */
  lemma HostCancels(w: World)
    requires Reachable(w)
    ensures w.hostExc.Some? ==> Called(w.st, w.g)
    ensures w.seen != [] && (w.at.Looping? || w.at.Parked? || w.at.Leaving? || w.at.Closing? || w.at.Closed?) ==>
              Called(w.st, w.g)
  {
    ReachableCancels(w);
    NeverStuck(w);
  }

  /** A host that runs again meets the cancellation that is due, and only such a one. In the join
      it goes on to cancel the group; at the checkpoint the cancellation is what `__aexit__` will
      raise. Without one the join looks for members again, and the checkpoint is over. */
  lemma HostMeets(w: World, e: U.Exc)
    requires Reachable(w) && MayMove(w, HostResumes(e))
    ensures w.host in w.st.tasks
    ensures var n := Moved(w, HostResumes(e));
            var struck := IsInterrupted(w.st.tasks[w.host]);
            && n.st.current == Some(w.host)
            && n.seen == (if struck && w.at.Parked? then w.seen + [e] else w.seen)
            && n.dropped == (if struck && w.at.Yielded? then Some(e) else w.dropped)
            && (w.at.Yielded? ==> n.at.Leaving? && (struck ==> Raised(n) == Some(e)))
            && (w.at.Parked? ==> if struck then n.at.Shielding? else n.at.Looping?)
  {
    ReachableParts(w);
    HostMeetsOne(w, e, IsInterrupted(w.st.tasks[w.host]));
  }

  lemma HostMeetsOne(w: World, e: U.Exc, struck: bool)
    requires KeysOk(w.st) && Enabled(w.st, Resume(w.host)) && (w.at.Parked? || w.at.Yielded?)
    requires w.host in w.st.tasks && struck == IsInterrupted(w.st.tasks[w.host])
    requires w.dropped == None
    ensures var n := ResumeHost(w, e);
            && n.st.current == Some(w.host)
            && n.seen == (if struck && w.at.Parked? then w.seen + [e] else w.seen)
            && n.dropped == (if struck && w.at.Yielded? then Some(e) else w.dropped)
            && (w.at.Yielded? ==> n.at.Leaving? && (struck ==> Raised(n) == Some(e)))
            && (w.at.Parked? ==> if struck then n.at.Shielding? else n.at.Looping?)
  {
  }

  /** A member that ends with an exception, a cancellation included, leaves the group's scope
      effectively cancelled; one that returns does not cancel it. */
  lemma MemberCancels(w: World, t: TaskId)
    requires Reachable(w) && MayMove(w, MemberDone(t))
    ensures t in w.outcomes && w.g in Moved(w, MemberDone(t)).st.scopes && w.g in w.st.scopes
    ensures w.outcomes[t].Some? ==> EffectivelyCancelled(Moved(w, MemberDone(t)).st.scopes, w.g)
    ensures w.outcomes[t].None? ==>
              Moved(w, MemberDone(t)).st.scopes[w.g].cancelCalled == w.st.scopes[w.g].cancelCalled
  {
    RemovedFacts(w, t);
    CancelGroupCancels(Removed(w, t));
  }

  lemma RemovedFacts(w: World, t: TaskId)
    requires Reachable(w) && MayMove(w, MemberDone(t))
    ensures t in w.outcomes && w.g in w.st.scopes
    ensures var m := Removed(w, t);
            && m.g == w.g && w.g in m.st.scopes && KeysOk(m.st)
            && m.st.scopes[w.g].cancelCalled == w.st.scopes[w.g].cancelCalled
  {
    ReachableOk(w);
    RemovedKeeps(w, t);
    ReachableParts(w);
    ScopeFrame(w.st, Done(t), w.g);
  }

  lemma CancelGroupCancels(w: World)
    requires KeysOk(w.st) && w.g in w.st.scopes
    ensures w.g in CancelGroup(w).st.scopes && EffectivelyCancelled(CancelGroup(w).st.scopes, w.g)
  {
    if !EffectivelyCancelled(w.st.scopes, w.g) {
      CancelCalls(w.st, w.g);
    }
  }

  /** Which exception a join without collected errors ends with. */
  lemma RemembersRightOne(w: World)
    requires Reachable(w)
    ensures IsRemembered(Met(w), w.exc)
  {
    ReachableCancels(w);
  }

  /** A group accepts tasks as long as `__aexit__` has not come to its end, and then no more,
      unless a native cancellation struck its checkpoint. */
  lemma AcceptsUntilClosed(w: World)
    requires Reachable(w)
    ensures w.active <==> !w.at.Closed? || w.dropped.Some?
  {
    ReachableCancels(w);
    NeverStuck(w);
  }

  /** An accepted task is a member that has not started, in the group's scope; a refused one
      leaves no trace. */
  lemma SpawnMeans(w: World, t: TaskId)
    requires Reachable(w) && MayMove(w, SpawnMember(t))
    ensures !w.active ==> Moved(w, SpawnMember(t)) == w
    ensures w.active ==>
              var n := Moved(w, SpawnMember(t));
              && n.members == w.members + {t} && t in n.st.tasks && t in n.st.places
              && n.st.tasks[t] == Task(Created, NoWaiter, false, 0, 0, 0)
              && n.st.places[t] == Place(Some(w.g), Some(w.g))
              && w.g in n.st.scopes && t in n.st.scopes[w.g].tasks
  {
    if w.active {
      ReachableOk(w);
      MayAccept(w);
      ReachableParts(w);
      SpawnFields(w.st, w.g, t);
    }
  }

  lemma SpawnFields(st: State, g: ScopeId, t: TaskId)
    requires KeysOk(st) && g in st.scopes && st.scopes[g].active && t !in st.tasks
    ensures Enabled(st, SpawnStep(g, t))
    ensures var n := Next(st, SpawnStep(g, t));
            && t in n.tasks && n.tasks[t] == Task(Created, NoWaiter, false, 0, 0, 0)
            && t in n.places && n.places[t] == Place(Some(g), Some(g))
            && g in n.scopes && t in n.scopes[g].tasks
  {
  }
}
