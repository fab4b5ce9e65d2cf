/**
 The class `TaskGroup`. Its fields are updated in place as in the source. Each method gives the
 steps of the loop that its code makes, and these turn the loop's old state into the new one.
 `__aexit__` is split into the pieces between its awaits and its calls of cancel scopes.
 */
module TaskGroups {
  import opened Wrappers
  import opened ScopeTree
  import opened Tasks
  import opened CancelState
  import opened GroupState
  import opened GroupRuns
  import U = Unwinding

  /** The group may make the move, and the loop accepts what it does. */
  ghost predicate Goes(w: World, move: Move) {
    MayMove(w, move) && !w.at.Stuck? && !Moved(w, move).at.Stuck?
  }

  /** In every world of a run the loop accepts every move. */
  lemma EveryMoveGoes(w: World, move: Move)
    requires WorldOk(w) && MayMove(w, move)
    ensures Goes(w, move) && WorldOk(Moved(w, move))
  {
    MoveKeeps(w, move);
  }

  /** The loop after the steps that a piece of code makes. */
  ghost function Applied(st: State, calls: seq<Step>): State
    decreases |calls|
  {
    if calls == [] || !KeysOk(st) || !Enabled(st, calls[0]) then st
    else Applied(Next(st, calls[0]), calls[1..])
  }

  lemma OneCall(w: World, step: Step, at: Station)
    requires !Do(w, step, at).at.Stuck?
    ensures Do(w, step, at).st == Applied(w.st, [step])
  {
  }

  lemma FirstCall(st: State, first: Step, rest: seq<Step>, n: State)
    requires KeysOk(st) && Enabled(st, first) && n == Next(st, first)
    ensures Applied(st, [first] + rest) == Applied(n, rest)
  {
    assert ([first] + rest)[1..] == rest;
  }

  lemma TwoCalls(st: State, first: Step, n: World, second: Step)
    requires KeysOk(st) && Enabled(st, first) && n.st == Next(st, first)
    requires !Do(n, second, n.at).at.Stuck?
    ensures Do(n, second, n.at).st == Applied(st, [first] + [second])
  {
    FirstCall(st, first, [second], n.st);
    OneCall(n, second, n.at);
  }

  lemma PieceCall(w: World, s: ScopeId, call: Step)
    requires HasPiece(w.at) && call == PieceStep(w, s) && !ExitPiece(w, s).at.Stuck?
    ensures ExitPiece(w, s).st == Applied(w.st, [call])
  {
    OneCall(w, call, NextStation(w, s));
  }

  /** What `task_done` does to the loop. */
  lemma DoneCalls(w: World, t: TaskId, effective: bool)
    requires Goes(w, MemberDone(t)) && t in w.outcomes && !Removed(w, t).at.Stuck?
    requires var m := Removed(w, t).st.scopes;
             w.g in m && effective == EffectivelyCancelled(m, w.g)
    ensures Moved(w, MemberDone(t)).st ==
            Applied(w.st, [Done(t)] + if w.outcomes[t].Some? && !effective then [CancelStep(w.g)] else [])
  {
    var n := Removed(w, t);
    OneCall(w, Done(t), w.at);
    assert n.st == Applied(w.st, [Done(t)]);
    if w.outcomes[t].Some? && !effective {
      TwoCalls(w.st, Done(t), n, CancelStep(w.g));
    } else {
      assert [Done(t)] + [] == [Done(t)];
    }
  }

  /** `task_done` changes the members, the errors and the loop. */
  lemma DoneFields(w: World, t: TaskId, exc: Option<U.Exc>, n: World)
    requires Goes(w, MemberDone(t)) && t in w.outcomes && exc == w.outcomes[t] && n == Moved(w, MemberDone(t))
    ensures n == w.(st := n.st, members := w.members - {t}, failures := n.failures)
    ensures n.failures == if exc.Some? && !exc.value.Cancelled?
                          then w.failures + [Failure(Some(t), exc.value)] else w.failures
  {
    assert w.failures + [] == w.failures;
  }

  /** The end of `__aexit__` changes whether the group is active, and the loop. */
  lemma FinishFields(w: World, n: World)
    requires Goes(w, HostStep(w.g)) && w.at.Closing? && n == Moved(w, HostStep(w.g))
    ensures n == w.(st := n.st, at := Closed, active := w.active && w.dropped.Some?, raised := Raised(w))
    ensures n.st == Applied(w.st, [ExitStep(w.g)])
  {
    PieceCall(w, w.g, ExitStep(w.g));
  }

  /** When the host runs again, its station and what it remembers may change, and the loop. */
  lemma ResumeFields(w: World, e: U.Exc, struck: bool, n: World)
    requires Goes(w, HostResumes(e)) && n == Moved(w, HostResumes(e))
    requires w.host in w.st.tasks && struck == IsInterrupted(w.st.tasks[w.host])
    ensures n == w.(st := n.st, at := n.at, exc := n.exc, seen := n.seen, dropped := n.dropped)
    ensures n.at == if w.at.Yielded? then Leaving(w.at.w) else if struck then Shielding(w.at.w)
                    else Looping(w.at.w, false)
    ensures n.exc == if w.at.Parked? && struck then Remember(w.exc, e) else w.exc
    ensures n.st == Applied(w.st, [Resume(w.host)])
  {
  }

  class TaskGroup {
    const cancelScope: ScopeId
    const host: TaskId
    var active: bool
    var exceptions: seq<Failure>
    var tasks: set<TaskId>
    var excVal: Option<U.Exc>
    var at: Station
    ghost var world: World

    /** The fields are those of the world. */
    ghost predicate Mirrors()
      reads this
    {
      && world.g == cancelScope && world.host == host
      && world.active == active && world.failures == exceptions && world.members == tasks
      && world.exc == excVal && world.at == at
    }

    /** `__aenter__`, after the scope was entered. */
    constructor (g: ScopeId, h: TaskId, ghost start: World)
      requires Start(start) && start.g == g && start.host == h
      ensures Mirrors() && world == start
    {
      cancelScope, host, active, exceptions, tasks, excVal, at := g, h, true, [], {}, None, Body;
      world := start;
    }

    /** `start_soon`; `false` stands for the error of a group that is not active. */
    method Spawn(t: TaskId) returns (accepted: bool, calls: seq<Step>)
      requires Mirrors() && Goes(world, SpawnMember(t))
      modifies this
      ensures Mirrors() && world == Moved(old(world), SpawnMember(t))
      ensures world.st == Applied(old(world).st, calls)
      ensures accepted == old(active)
    {
      ghost var w := world;
      world := Moved(w, SpawnMember(t));
      if !active {
        return false, [];
      }
      tasks := tasks + {t};
      accepted, calls := true, [SpawnStep(cancelScope, t)];
      OneCall(w, calls[0], w.at);
    }

    /** The coroutine of a member returns. */
    ghost method MemberReturned(outcome: Option<U.Exc>)
      requires Mirrors() && Goes(world, MemberReturns(outcome))
      modifies this`world
      ensures Mirrors() && world == Moved(old(world), MemberReturns(outcome))
    {
      world := Moved(world, MemberReturns(outcome));
    }

    /** `task_done`; `exc` is what the task raised, and `effective` what `_effectively_cancelled`
        of the group's scope says once the task is forgotten. */
    method TaskDone(t: TaskId, exc: Option<U.Exc>, effective: bool) returns (calls: seq<Step>)
      requires Mirrors() && Goes(world, MemberDone(t))
      requires t in world.outcomes && exc == world.outcomes[t] && !Removed(world, t).at.Stuck?
      requires var m := Removed(world, t).st.scopes;
               cancelScope in m && effective == EffectivelyCancelled(m, cancelScope)
      modifies this
      ensures Mirrors() && world == Moved(old(world), MemberDone(t))
      ensures world.st == Applied(old(world).st, calls)
      ensures calls == [Done(t)] + if exc.Some? && !effective then [CancelStep(cancelScope)] else []
    {
      DoneCalls(world, t, effective);
      DoneFields(world, t, exc, Moved(world, MemberDone(t)));
      world := Moved(world, MemberDone(t));
      tasks := tasks - {t};
      calls := [Done(t)];
      if exc.Some? {
        if !exc.value.Cancelled? {
          exceptions := exceptions + [Failure(Some(t), exc.value)];
        }
        if !effective {
          calls := calls + [CancelStep(cancelScope)];
        }
      }
    }

    /** The start of `__aexit__`. */
    method BeginAexit(exc: Option<U.Exc>) returns (calls: seq<Step>)
      requires Mirrors() && Goes(world, BeginExit(exc))
      modifies this
      ensures Mirrors() && world == Moved(old(world), BeginExit(exc))
      ensures world.st == Applied(old(world).st, calls)
    {
      ghost var w := world;
      world := Moved(w, BeginExit(exc));
      calls := [];
      if exc.Some? {
        calls := [CancelStep(cancelScope)];
        OneCall(w, calls[0], Joining);
        if !exc.value.Cancelled? {
          exceptions := exceptions + [Failure(None, exc.value)];
        }
      }
      excVal, at := exc, Joining;
    }

    /** The next piece of `__aexit__`, before its end; `s` names the scope that it may create. */
    method NextPiece(s: ScopeId) returns (call: Step)
      requires Mirrors() && Goes(world, HostStep(s)) && !at.Closing?
      modifies this`at, this`world
      ensures Mirrors() && world == Moved(old(world), HostStep(s))
      ensures world.st == Applied(old(world).st, [call])
    {
      ghost var w := world;
      world := Moved(w, HostStep(s));
      match at
      case Joining =>
        call := NewScope(s, tasks == {});
        at := Entering(s, tasks == {});
      case Entering(x, yielding) =>
        call := EnterStep(x, false);
        at := Looping(x, yielding);
      case Looping(x, yielding) =>
        if yielding {
          call, at := Block(false), Yielded(x);
        } else if tasks != {} {
          call, at := Block(true), Parked(x, tasks);
        } else {
          call, at := ExitStep(x), Closing;
        }
      case Shielding(x) => call, at := ShieldStep(x, true), Cancelling(x);
      case Cancelling(x) => call, at := CancelStep(cancelScope), Looping(x, false);
      case Leaving(x) => call, at := ExitStep(x), Closing;
      PieceCall(w, s, call);
    }

    /** The end of `__aexit__`: what goes to the scope's `__exit__`. `dropped` is a cancellation
        that struck the final checkpoint. */
    method Finish(dropped: Option<U.Exc>) returns (raised: Option<U.Exc>, call: Step)
      requires Mirrors() && Goes(world, HostStep(cancelScope)) && at.Closing? && dropped == world.dropped
      modifies this`at, this`world, this`active
      ensures Mirrors() && world == Moved(old(world), HostStep(cancelScope))
      ensures at.Closed? && raised == world.raised
      ensures call == ExitStep(cancelScope) && world.st == Applied(old(world).st, [call])
    {
      FinishFields(world, Moved(world, HostStep(cancelScope)));
      world := Moved(world, HostStep(cancelScope));
      call := ExitStep(cancelScope);
      if dropped.Some? {
        raised := dropped;
      } else {
        active := false;
        if exceptions != [] {
          raised := Some(U.Group(Errors(exceptions)));
        } else {
          raised := excVal;
        }
      }
      at := Closed;
    }

    /** The host runs again; `struck` says that a `CancelledError` is thrown into it. */
    method Resumed(struck: bool, e: U.Exc) returns (call: Step)
      requires Mirrors() && Goes(world, HostResumes(e))
      requires host in world.st.tasks && struck == IsInterrupted(world.st.tasks[host])
      modifies this
      ensures Mirrors() && world == Moved(old(world), HostResumes(e))
      ensures world.st == Applied(old(world).st, [call])
    {
      ResumeFields(world, e, struck, Moved(world, HostResumes(e)));
      world := Moved(world, HostResumes(e));
      call := Resume(host);
      if at.Yielded? {
        at := Leaving(at.w);
      } else if struck {
        if excVal.None? || (excVal.value.Cancelled? && !ByScope(e)) {
          excVal := Some(e);
        }
        at := Shielding(at.w);
      } else {
        at := Looping(at.w, false);
      }
    }

    /** `on_completion` of `_wait`; `pending` says that the waiter is not done. */
    method OnCompletion(t: TaskId, pending: bool) returns (calls: seq<Step>)
      requires Mirrors() && Goes(world, Completion(t))
      requires host in world.st.tasks && pending == (world.st.tasks[host].waiter == Pending)
      modifies this
      ensures Mirrors() && world == Moved(old(world), Completion(t))
      ensures world.st == Applied(old(world).st, calls)
    {
      ghost var w := world;
      world := Moved(w, Completion(t));
      at := at.(left := at.left - {t});
      calls := [];
      if at.left == {} && pending {
        calls := [Complete(host)];
        OneCall(w, Complete(host), at);
      }
    }
  }
}
