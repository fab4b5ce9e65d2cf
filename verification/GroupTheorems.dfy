/** Structured concurrency: what a task group promises, over every run. */
module GroupTheorems {
  import opened Wrappers
  import opened Tasks
  import opened CancelState
  import opened GroupState
  import opened GroupRuns
  import opened GroupNative
  import U = Unwinding
  import CancelScopes

  /** `w` is a world of some run of a group. */
  ghost predicate Reachable(w: World) {
    exists start, moves :: Start(start) && Moves(start, moves) && Later(start, moves) == w
  }

  lemma ReachableOk(w: World)
    requires Reachable(w)
    ensures WorldOk(w)
  {
    var start, moves :| Start(start) && Moves(start, moves) && Later(start, moves) == w;
    StartOk(start);
    MovesKeep(start, moves);
  }

  /** The parts of `WorldOk` that concern the group. */
  lemma ReachableParts(w: World)
    requires Reachable(w)
    ensures FailuresOk(w) && ExcOk(w) && StationOk(w) && LoopOk(w.st)
    ensures forall t {:trigger MemberAt(w, t)} :: MemberAt(w, t)
  {
    ReachableOk(w);
  }

  /** No piece of the group's code is ever refused by the loop: `__enter__`, `__exit__` and the
      removals and asserts of `task_done` never raise. In particular the group's scope is left
      only when no task has it as its home, which is what cancel scopes ask of a group. */
  lemma NeverStuck(w: World)
    requires Reachable(w)
    ensures !w.at.Stuck?
    ensures w.at.Closing? ==> Enabled(w.st, ExitStep(w.g))
  {
    ReachableParts(w);
    if w.at.Closing? {
      ClosingStation(w);
    }
  }

  /** When the group's scope is about to be left, and ever after, no member remains: every task
      that was ever spawned has returned, its callback has run, and no task of the loop has the
      group as its home. */
  lemma NoMemberRemains(w: World, t: TaskId)
    requires Reachable(w) && (w.at.Closing? || w.at.Closed?)
    ensures w.members == {}
    ensures t in w.spawned ==> t in w.outcomes
    ensures t in w.st.places ==> w.st.places[t].home != Some(w.g)
  {
    ReachableParts(w);
    assert MemberAt(w, t);
  }

  /** When the group is closed it has collected the host's error and the error of every member,
      each exactly once and nothing else; cancellations are not collected. */
  lemma ErrorsOnceEach(w: World, f: Failure)
    requires Reachable(w) && w.at.Closed?
    ensures f in w.failures <==>
              !f.error.Cancelled? && match f.source
                case None => w.hostExc == Some(f.error)
                case Some(t) => t in w.spawned && t in w.outcomes && w.outcomes[t] == Some(f.error)
    ensures forall i, j :: 0 <= i < j < |w.failures| ==> w.failures[i].source != w.failures[j].source
  {
    ReachableParts(w);
    assert Owed(w, f) <==> f in w.failures;
    if f.source.Some? {
      assert MemberAt(w, f.source.value);
    }
  }

  /** What is raised: a group of exactly the collected errors; without errors, what the host
      or the join was cancelled with. The exception is a native cancellation of the final
      checkpoint, which takes the place of everything else. */
  lemma WhatIsRaised(w: World)
    requires Reachable(w) && w.at.Closed?
    ensures w.dropped.None? && w.failures != [] ==>
              && w.raised.Some? && w.raised.value.Group?
              && |w.raised.value.excs| == |w.failures|
              && forall i :: 0 <= i < |w.failures| ==> w.raised.value.excs[i] == w.failures[i].error
    ensures w.dropped.None? && w.failures == [] ==> w.raised == w.exc
    ensures w.dropped.Some? ==> w.raised == w.dropped
    ensures w.dropped.None? && w.failures == [] ==>
              (w.raised == None <==> w.hostExc == None && w.seen == [])
  {
    ReachableParts(w);
  }

  /** Without errors, what is raised is a cancellation, and it carries a scope's message iff
      every cancellation that struck the host does, so a native one is not lost among those of
      scopes. The group's scope swallows it iff it swallows cancellations at all and the one
      raised, or one in its chain of contexts, was made by a scope. */
  lemma WhatIsSwallowed(w: World)
    requires Reachable(w) && w.at.Closing? && w.dropped.None? && w.failures == [] && w.exc.Some?
    ensures w.g in w.st.scopes && w.exc.value.Cancelled?
    ensures ByScope(w.exc.value) <==>
              (w.hostExc.Some? ==> ByScope(w.hostExc.value))
              && forall i :: 0 <= i < |w.seen| ==> ByScope(w.seen[i])
    ensures CancelScopes.ExitSwallows(w.st, w.g, Raised(w)) <==>
              && U.Swallows(w.st.scopes, w.g)
              && (ByScope(w.exc.value)
                  || (w.exc.value.context.Some? && U.FromScope(w.exc.value.context.value)))
  {
    ReachableParts(w);
    var e := w.exc.value;
    RaisedIsAtom(w);
    assert U.Leaves(e) == [e];
    U.GroupIsSwallowed(w.st.scopes, w.g, [e]);
    assert U.AllFromScope([e]) <==> U.FromScope([e][0]);
  }

  /** `leaf` is an atom of a collected error. */
  ghost predicate IsCollected(failures: seq<Failure>, leaf: U.Exc) {
    exists i :: 0 <= i < |failures| && U.Contains(failures[i].error, leaf)
  }

  /** Errors leave the group: when some were collected, the scope swallows what is raised only
      if every atom of every error is a cancellation made by a scope, which an error of another
      kind is not. */
  lemma ErrorsEscape(w: World)
    requires Reachable(w) && w.at.Closing? && w.dropped.None? && w.failures != []
    ensures w.g in w.st.scopes
    ensures CancelScopes.ExitSwallows(w.st, w.g, Raised(w)) <==>
              && U.Swallows(w.st.scopes, w.g)
              && (exists leaf :: IsCollected(w.failures, leaf))
              && forall leaf :: IsCollected(w.failures, leaf) ==> U.FromScope(leaf)
    ensures (exists i :: 0 <= i < |w.failures| && w.failures[i].error.Other?) ==>
              !CancelScopes.ExitSwallows(w.st, w.g, Raised(w))
  {
    ReachableParts(w);
    GroupLeaves(w.failures);
    U.GroupIsSwallowed(w.st.scopes, w.g, U.Leaves(U.Group(Errors(w.failures))));
    if i :| 0 <= i < |w.failures| && w.failures[i].error.Other? {
      assert U.Contains(w.failures[i].error, w.failures[i].error);
      assert IsCollected(w.failures, w.failures[i].error);
    }
  }

  /** The atoms of the group that is raised are those of the errors. */
  lemma GroupLeaves(failures: seq<Failure>)
    ensures var leaves := U.Leaves(U.Group(Errors(failures)));
            && (leaves != [] <==> exists leaf :: IsCollected(failures, leaf))
            && (U.AllFromScope(leaves) <==> forall leaf :: IsCollected(failures, leaf) ==> U.FromScope(leaf))
  {
    var e := U.Group(Errors(failures));
    var leaves := U.Leaves(e);
    U.AllAtoms(e);
    if leaves != [] {
      LeafIsCollected(failures, leaves[0]);
    }
    forall leaf | U.Contains(e, leaf) || IsCollected(failures, leaf)
      ensures leaf in leaves && U.Contains(e, leaf) && IsCollected(failures, leaf)
    {
      LeafIsCollected(failures, leaf);
    }
  }

  lemma LeafIsCollected(failures: seq<Failure>, leaf: U.Exc)
    ensures var e := U.Group(Errors(failures));
            (leaf in U.Leaves(e) <==> IsCollected(failures, leaf)) && (U.Contains(e, leaf) <==> leaf in U.Leaves(e))
  {
    var e := U.Group(Errors(failures));
    U.LeavesAreContained(e, leaf);
    GroupContains(failures, leaf);
  }

  lemma GroupContains(failures: seq<Failure>, leaf: U.Exc)
    ensures U.Contains(U.Group(Errors(failures)), leaf) <==> IsCollected(failures, leaf)
  {
    var excs := Errors(failures);
    if i :| 0 <= i < |failures| && U.Contains(failures[i].error, leaf) {
      assert U.Contains(excs[i], leaf);
    }
  }

  /** Without collected errors the remembered exception is a single cancellation. */
  lemma RaisedIsAtom(w: World)
    requires FailuresOk(w) && ExcOk(w) && w.failures == [] && w.exc.Some?
    ensures w.exc.value.Cancelled?
  {
    assert w.hostExc.Some? ==> !Owed(w, Failure(None, w.hostExc.value));
  }

  lemma ReachableIsNative(w: World)
    requires Reachable(w)
    ensures NativeOk(w)
  {
    var start, moves :| Start(start) && Moves(start, moves) && Later(start, moves) == w;
    StartOk(start);
    StartIsNative(start);
    MovesAreNative(start, moves);
  }

  /** Without native cancellation of the host, the join is struck at most once, because it is
      shielded from then on; the final checkpoint is not struck at all, so nothing is dropped;
      and while the host waits behind its shield, no cancellation is due. */
  lemma OnlyNativeStrikesTwice(w: World)
    requires Reachable(w) && !w.at.Closed?
    ensures w.host in w.st.tasks
    ensures w.st.tasks[w.host].native == 0 ==>
              && |w.seen| <= 1 && w.dropped == None
              && (ShieldedWait(w) ==> !IsInterrupted(w.st.tasks[w.host]))
  {
    ReachableParts(w);
    ReachableIsNative(w);
  }

  /** A waiting host is never forgotten: while its future is pending it waits for somebody who
      is still a member, or whose completion is still to come. */
  lemma WaitIsWoken(w: World)
    requires Reachable(w) && w.at.Parked?
    ensures w.host in w.st.tasks
    ensures w.st.tasks[w.host].waiter == Pending ==>
              exists t: TaskId :: t in w.at.left && (t in w.members || MayMove(w, Completion(t)))
  {
    ReachableParts(w);
    if w.st.tasks[w.host].waiter == Pending {
      var t :| t in w.at.left;
      assert MemberAt(w, t);
      assert t in w.members || MayMove(w, Completion(t));
    }
  }

  lemma CompletionWakes(w: World, t: TaskId)
    requires KeysOk(w.st) && w.host in w.st.tasks && w.at.Parked? && w.at.left == {t}
    ensures var n := Completed(w, t);
            w.host in n.st.tasks && MayResume(n.st.tasks[w.host])
  {
    assert w.at.left - {t} == {};
  }

  /** The last completion wakes the host. */
  lemma LastCompletionWakes(w: World, t: TaskId)
    requires Reachable(w) && MayMove(w, Completion(t)) && w.at.left == {t}
    ensures var n := Moved(w, Completion(t));
            w.host in n.st.tasks && MayResume(n.st.tasks[w.host])
  {
    ReachableParts(w);
    CompletionWakes(w, t);
  }
}
