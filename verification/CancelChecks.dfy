/** The backend functions that walk up the scope chain of a task. */
module CancelChecks {
  import opened Wrappers
  import opened ScopeTree
  import opened CancelState
  import opened CancelScopes
  import opened Deadlines

  /** The deadlines as they are set. */
  ghost function DeadlinesOf(loop: EventLoop): (d: map<ScopeId, Deadline>)
    reads loop, loop.scopes
  {
    map i: nat | (i < |loop.scopes|) :: loop.scopes[i].deadline
  }

  /** `checkpoint_if_cancelled`: whether it gives up control. Its loop leaves a cancelled scope
      only by the `CancelledError` that is thrown in. */
  method CheckpointIfCancelled(loop: EventLoop, task: LoopTask) returns (awaits: bool)
    requires task.In(loop) && Ordered(loop.st.scopes) && TasksOk(loop.st.scopes, loop.st.places)
    ensures awaits == IsCancelled(loop.st.scopes, loop.st.places[task.id].scope)
  {
    assert loop.TaskAt(task.id) && PlacedAt(loop.st.scopes, loop.st.places, task.id);
    var cur := task.scope;
    while cur.Some?
      invariant cur.Some? ==> cur.value in loop.st.scopes
      invariant IsCancelled(loop.st.scopes, cur) == IsCancelled(loop.st.scopes, task.scope)
      decreases if cur.Some? then loop.st.scopes[cur.value].order + 1 else 0
    {
      assert loop.ScopeAt(cur.value) && OrderedAt(loop.st.scopes, cur.value);
      var scope := loop.scopes[cur.value];
      if scope.cancelCalled {
        return true;
      } else if scope.shield {
        break;
      } else {
        cur := scope.parent;
      }
    }
    awaits := false;
  }

  /** `check_cancelled`: the scope whose cancellation it raises, if any. */
  method CheckCancelled(loop: EventLoop, start: Option<ScopeId>) returns (raised: Option<ScopeId>)
    requires loop.Valid() && Ordered(loop.st.scopes) && (start.Some? ==> start.value in loop.st.scopes)
    ensures raised == OriginOf(loop.st.scopes, start)
    ensures raised.Some? <==> IsCancelled(loop.st.scopes, start)
  {
    if start.Some? {
      CancelledHasOrigin(loop.st.scopes, start.value);
    }
    var cur := start;
    while cur.Some?
      invariant cur.Some? ==> cur.value in loop.st.scopes
      invariant OriginOf(loop.st.scopes, cur) == OriginOf(loop.st.scopes, start)
      decreases if cur.Some? then loop.st.scopes[cur.value].order + 1 else 0
    {
      assert loop.ScopeAt(cur.value) && OrderedAt(loop.st.scopes, cur.value);
      var scope := loop.scopes[cur.value];
      if scope.cancelCalled {
        return cur;
      }
      if scope.shield {
        return None;
      }
      cur := scope.parent;
    }
    raised := None;
  }

  /** `current_effective_deadline`. */
  method CurrentEffectiveDeadline(loop: EventLoop, task: LoopTask) returns (deadline: Deadline)
    requires task.In(loop) && Ordered(loop.st.scopes) && TasksOk(loop.st.scopes, loop.st.places)
    requires forall i :: 0 <= i < |loop.scopes| ==> loop.scopes[i].deadline != MinusInfinity
    ensures deadline == MinusInfinity <==> IsCancelled(loop.st.scopes, loop.st.places[task.id].scope)
    ensures deadline != MinusInfinity ==>
              var seen := Visible(loop.st.scopes, loop.st.places[task.id].scope);
              var d := DeadlinesOf(loop);
              && (forall i :: 0 <= i < |seen| ==> seen[i] in d && NotAfter(deadline, d[seen[i]]))
              && (deadline == Infinity || exists i :: 0 <= i < |seen| && deadline == d[seen[i]])
  {
    assert loop.TaskAt(task.id) && PlacedAt(loop.st.scopes, loop.st.places, task.id);
    ghost var m, d := loop.st.scopes, DeadlinesOf(loop);
    assert d.Keys == m.Keys by {
      forall i: nat ensures i in d <==> i in m { assert loop.ScopeAt(i); }
    }
    EffectiveDeadlineMeans(m, d, task.scope, Infinity);
    deadline := Infinity;
    var cur := task.scope;
    while cur.Some?
      invariant cur.Some? ==> cur.value in m
      invariant EffectiveFrom(m, d, cur, deadline) == EffectiveFrom(m, d, task.scope, Infinity)
      decreases if cur.Some? then m[cur.value].order + 1 else 0
    {
      assert loop.ScopeAt(cur.value) && OrderedAt(m, cur.value);
      var scope := loop.scopes[cur.value];
      deadline := Earlier(deadline, scope.deadline);
      if scope.cancelCalled {
        deadline := MinusInfinity;
        break;
      } else if scope.shield {
        break;
      } else {
        cur := scope.parent;
      }
    }
  }

  /** `AsyncIOTaskInfo.has_pending_cancellation`. */
  method HasPendingCancellation(loop: EventLoop, task: LoopTask) returns (r: bool)
    requires task.In(loop) && Ordered(loop.st.scopes) && TasksOk(loop.st.scopes, loop.st.places)
    ensures r <==> loop.st.tasks[task.id].requests > 0
                   || IsCancelled(loop.st.scopes, loop.st.places[task.id].scope)
  {
    assert loop.TaskAt(task.id) && PlacedAt(loop.st.scopes, loop.st.places, task.id);
    if task.requests > 0 {
      return true;
    }
    r := false;
    if task.scope.Some? {
      assert loop.ScopeAt(task.scope.value);
      r := loop.scopes[task.scope.value].IsEffectivelyCancelled(loop);
    }
  }
}
