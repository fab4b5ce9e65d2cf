/**
 The classes of the asyncio backend that carry out a cancellation. The loop keeps the value
 of the whole state in a ghost field that mirrors its objects, and every method is proved
 to change that value exactly as the step functions of `CancelState` say. Links between
 objects are ids, as in `id(scope)`; the loop resolves them.
 */
module CancelScopes {
  import opened Wrappers
  import opened ScopeTree
  import opened Tasks
  import opened CancelState
  import opened CancelSteps
  import opened CancelExit
  import opened Unwinding
  import opened Deadlines

  /** An `asyncio.Task` together with its `TaskState`. */
  class LoopTask {
    const id: TaskId
    var life: Life
    var waiter: Waiter
    var mustCancel: bool
    var requests: nat
    var scope: Option<ScopeId>
    ghost var home: Option<ScopeId>
    ghost var native: nat
    ghost var foreign: nat

    ghost predicate In(loop: EventLoop)
      reads loop, loop.scopes, loop.tasks
    {
      && loop.Valid() && id < |loop.tasks| && loop.tasks[id] == this
      && id in loop.st.tasks && id in loop.st.places
    }

    ghost function Rec(): Task
      reads this
    {
      Task(life, waiter, mustCancel, requests, native, foreign)
    }

    /** `Task.cancel()` on a task that has not finished. */
    method Cancel()
      modifies this`requests, this`waiter, this`mustCancel
      ensures Rec() == Struck(old(Rec()))
    {
      requests := requests + 1;
      if waiter == Pending {
        waiter := WaiterCancelled;
      } else {
        mustCancel := true;
      }
    }

    /** `task_state.cancel_scope = s`. */
    method MoveTo(loop: EventLoop, s: Option<ScopeId>)
      requires In(loop)
      modifies loop`st, this`scope
      ensures In(loop)
      ensures loop.st == MoveIn(old(loop.st), id, s)
    {
      assert loop.TaskAt(id);
      scope := s;
      loop.st := loop.st.(places := loop.st.places[id := Place(scope, home)]);
      forall u: TaskId ensures loop.TaskAt(u) { assert old(loop.TaskAt(u)); }
      forall i: ScopeId ensures loop.ScopeAt(i) { assert old(loop.ScopeAt(i)); }
    }

    /** `Task.uncancel()`. */
    method Uncancel() returns (left: nat)
      modifies this`requests
      ensures left == requests == (if old(requests) > 0 then old(requests) - 1 else 0)
    {
      if requests > 0 {
        requests := requests - 1;
      }
      left := requests;
    }
  }

  /** The part of the event loop that cancel scopes use. */
  class EventLoop {
    var scopes: seq<CancelScope>
    var tasks: seq<LoopTask>
    var ready: map<nat, ScopeId>
    var nextHandle: nat
    var current: Option<TaskId>
    ghost var st: State

    /** `st` records scope `i` as it is. */
    ghost predicate ScopeAt(i: ScopeId)
      reads this, scopes
    {
      if i < |scopes| then
        && scopes[i].id == i
        && i in st.scopes && i in st.calls && i in st.handles
        && st.scopes[i] == scopes[i].Rec()
        && st.calls[i] == scopes[i].calls && st.handles[i] == scopes[i].handle
      else
        i !in st.scopes && i !in st.calls && i !in st.handles
    }

    /** `st` records task `t` as it is, if the task is still known. */
    ghost predicate TaskAt(t: TaskId)
      reads this, tasks
    {
      && (t < |tasks| ==> tasks[t].id == t)
      && (t in st.tasks <==> t in st.places)
      && (t in st.tasks ==>
            && t < |tasks|
            && st.tasks[t] == tasks[t].Rec()
            && st.places[t] == Place(tasks[t].scope, tasks[t].home))
    }

    ghost predicate Valid()
      reads this, scopes, tasks
    {
      && (forall i {:trigger ScopeAt(i)} :: ScopeAt(i))
      && (forall t {:trigger TaskAt(t)} :: TaskAt(t))
      && st.ready == ready && st.nextHandle == nextHandle && st.current == current
    }
  }

  /** The `RuntimeError`s of `__enter__` and `__exit__`. */
  datatype Misuse = AlreadyActive | NotActive | WrongTask | NotCurrentScope

  datatype Outcome<T> = Ok(value: T) | RuntimeError(why: Misuse)

  class CancelScope {
    const id: ScopeId
    var parent: Option<ScopeId>
    var children: set<ScopeId>
    var tasks: set<TaskId>
    var host: Option<TaskId>
    var active: bool
    var shield: bool
    var cancelCalled: bool
    var cancelledCaught: bool
    var deadline: Deadline
    var cancelling: nat
    var calls: nat
    var handle: Option<nat>
    ghost var order: nat

    ghost predicate In(loop: EventLoop)
      reads loop, loop.scopes, loop.tasks
    {
      && loop.Valid() && id < |loop.scopes| && loop.scopes[id] == this
      && id in loop.st.scopes && id in loop.st.calls && id in loop.st.handles
    }

    ghost function Rec(): Scope
      reads this
    {
      Scope(parent, children, tasks, host, active, shield, cancelCalled, cancelling, order)
    }

    lemma Known(loop: EventLoop)
      requires In(loop)
      ensures id in loop.st.scopes && id in loop.st.calls && id in loop.st.handles
      ensures loop.st.scopes[id] == Rec() && loop.st.calls[id] == calls && loop.st.handles[id] == handle
    {
      assert loop.ScopeAt(id);
    }

    /** Cancels `task` on behalf of `origin`, and counts the call if `origin` hosts it. */
    static method Strike(loop: EventLoop, origin: CancelScope, task: LoopTask)
      requires origin.In(loop) && task.In(loop)
      modifies loop`st, task, origin`calls
      ensures loop.Valid()
      ensures var hosted := origin.host == Some(task.id);
              loop.st == old(loop.st).(
                tasks := old(loop.st.tasks)[task.id := StruckBy(old(loop.st.tasks)[task.id], hosted)],
                calls := if hosted then old(loop.st.calls)[origin.id := old(loop.st.calls)[origin.id] + 1]
                         else old(loop.st.calls))
    {
      assert loop.TaskAt(task.id) && loop.ScopeAt(origin.id);
      task.Cancel();
      if origin.host == Some(task.id) {
        origin.calls := origin.calls + 1;
        loop.st := loop.st.(calls := loop.st.calls[origin.id := origin.calls]);
      } else {
        task.foreign := task.foreign + 1;
      }
      loop.st := loop.st.(tasks := loop.st.tasks[task.id := task.Rec()]);
      forall t: TaskId ensures loop.TaskAt(t) { assert old(loop.TaskAt(t)); }
      forall i: ScopeId ensures loop.ScopeAt(i) { assert old(loop.ScopeAt(i)); }
    }

    /** Cancels one task of this scope if it is eligible. */
    method DeliverTo(loop: EventLoop, origin: CancelScope, t: TaskId)
      requires In(loop) && origin.In(loop)
      requires t in loop.st.places && loop.st.places[t].scope == Some(id)
      modifies loop`st, loop.tasks, origin`calls
      ensures loop.Valid()
      ensures loop.st == StrikeAll(old(loop.st), origin.id, {t})
    {
      assert loop.TaskAt(t) && loop.ScopeAt(id) && loop.ScopeAt(origin.id);
      StrikeOne(loop.st, origin.id, t);
      var task := loop.tasks[t];
      if !task.mustCancel && loop.current != Some(t) && (host == Some(t) || task.life == Running) {
        if task.waiter != HasResult && task.waiter != WaiterCancelled {
          Strike(loop, origin, task);
        }
      }
    }

    /** The first loop of `_deliver_cancellation`: the tasks of this scope itself. */
    method DeliverToTasks(loop: EventLoop, origin: CancelScope) returns (retry: bool)
      requires In(loop) && origin.In(loop)
      requires MembersAt(loop.st.scopes, loop.st.places, id)
      modifies loop`st, loop.tasks, origin`calls
      ensures loop.Valid()
      ensures loop.st == StrikeAll(old(loop.st), origin.id, tasks)
      ensures retry <==> tasks != {}
    {
      Known(loop);
      retry := false;
      var todo := tasks;
      StrikeNone(loop.st, origin.id);
      while todo != {}
        invariant todo <= tasks && loop.Valid()
        invariant loop.st == StrikeAll(old(loop.st), origin.id, tasks - todo)
        invariant retry <==> tasks - todo != {}
      {
        var t :| t in todo;
        retry := true;
        DeliverTo(loop, origin, t);
        StrikeNext(old(loop.st), origin.id, tasks, todo, t);
        todo := todo - {t};
      }
      assert tasks - todo == tasks;
    }

    /** The tasks in the regions of the children that a delivery descends into. */
    ghost function BelowMe(st: State): set<TaskId> {
      if id in st.scopes then MetBelow(st.scopes, st.clock, Kids(st.scopes, st.clock, id)) else {}
    }

    /** What child `c` adds to a delivery that starts here: its region, if it is visited. */
    ghost function ByChild(st: State, c: ScopeId): set<TaskId>
      requires id in st.scopes
    {
      if c in Kids(st.scopes, st.clock, id) then ReachedTasks(st.scopes, st.clock, c) else {}
    }

    /** One round of the second loop of `_deliver_cancellation`. */
    method DeliverToChild(loop: EventLoop, origin: CancelScope, c: ScopeId) returns (retry: bool)
      requires CanDeliver(loop, origin) && c in children
      modifies loop`st, loop`ready, loop`nextHandle, loop.tasks, origin`calls, origin`handle
      ensures CanDeliver(loop, origin) && origin.handle == old(origin.handle)
      ensures loop.st == StrikeAll(old(loop.st), origin.id, ByChild(old(loop.st), c))
      ensures retry <==> ByChild(old(loop.st), c) != {}
      decreases loop.st.clock - order, 0
    {
      Known(loop);
      StrikeNone(loop.st, origin.id);
      assert LinkedAt(loop.st.scopes, id) && OrderedAt(loop.st.scopes, c) && loop.ScopeAt(c);
      var child := loop.scopes[c];
      retry := false;
      if !child.shield && !child.cancelCalled {
        retry := child.DeliverCancellation(loop, origin);
      }
    }

    /** The second loop of `_deliver_cancellation`: the children that are neither shielded nor
        cancelled themselves. */
    method DeliverToChildren(loop: EventLoop, origin: CancelScope, sofar: bool) returns (retry: bool)
      requires CanDeliver(loop, origin)
      modifies loop`st, loop`ready, loop`nextHandle, loop.tasks, origin`calls, origin`handle
      ensures loop.Valid() && origin.handle == old(origin.handle)
      ensures loop.st == StrikeAll(old(loop.st), origin.id, BelowMe(old(loop.st)))
      ensures retry <==> sofar || BelowMe(old(loop.st)) != {}
      decreases loop.st.clock - order, 1
    {
      Known(loop);
      retry := sofar;
      var todo := children;
      NoChildYet(loop.st, origin.id);
      while todo != {}
        invariant todo <= children && CanDeliver(loop, origin) && origin.handle == old(origin.handle)
        invariant loop.st == StrikeAll(old(loop.st), origin.id, SeenBelow(old(loop.st), todo))
        invariant retry <==> sofar || SeenBelow(old(loop.st), todo) != {}
      {
        var c :| c in todo;
        ChildNext(old(loop.st), todo, c, origin.id);
        var r := DeliverToChild(loop, origin, c);
        retry := r || retry;
        todo := todo - {c};
      }
      assert SeenBelow(old(loop.st), {}) == BelowMe(old(loop.st));
    }

    /** What the children outside `todo` add. */
    ghost function SeenBelow(st: State, todo: set<ScopeId>): set<TaskId>
      requires id in st.scopes
    {
      MetBelow(st.scopes, st.clock, Kids(st.scopes, st.clock, id) - todo)
    }

    lemma NoChildYet(st: State, o: ScopeId)
      requires o in st.scopes && o in st.calls && id in st.scopes
      ensures SeenBelow(st, st.scopes[id].children) == {}
      ensures StrikeAll(st, o, SeenBelow(st, st.scopes[id].children)) == st
    {
      StrikeNone(st, o);
      assert Kids(st.scopes, st.clock, id) - st.scopes[id].children == {};
      assert SeenBelow(st, st.scopes[id].children) == {};
    }

    /** One more child strikes its region on top of those of the children seen before. */
    lemma ChildNext(st: State, todo: set<ScopeId>, c: ScopeId, o: ScopeId)
      requires o in st.scopes && o in st.calls && id in st.scopes
      requires TreeOk(st.scopes, st.clock) && TasksOk(st.scopes, st.places) && c in todo
      ensures SeenBelow(st, todo - {c}) == SeenBelow(st, todo) + ByChild(st, c)
      ensures StrikeAll(StrikeAll(st, o, SeenBelow(st, todo)), o, ByChild(st, c))
              == StrikeAll(st, o, SeenBelow(st, todo - {c}))
    {
      var kids := Kids(st.scopes, st.clock, id);
      if c in kids {
        MetNext(st.scopes, st.clock, st.places, id, kids - todo, c);
        assert kids - (todo - {c}) == (kids - todo) + {c};
      } else {
        assert kids - (todo - {c}) == kids - todo;
      }
      StrikeTwice(st, o, SeenBelow(st, todo), ByChild(st, c));
    }

    ghost predicate CanDeliver(loop: EventLoop, origin: CancelScope)
      reads loop, loop.scopes, loop.tasks
    {
      && In(loop)
      && origin.In(loop)
      && TreeOk(loop.st.scopes, loop.st.clock) && TasksOk(loop.st.scopes, loop.st.places)
      && (origin == this || loop.st.scopes[origin.id].order < loop.st.scopes[id].order)
    }

    /** `_deliver_cancellation`. */
    method DeliverCancellation(loop: EventLoop, origin: CancelScope) returns (retry: bool)
      requires CanDeliver(loop, origin)
      modifies loop`st, loop`ready, loop`nextHandle, loop.tasks, origin`calls, origin`handle
      ensures loop.Valid()
      ensures retry <==> ReachedTasks(old(loop.st.scopes), old(loop.st.clock), id) != {}
      ensures origin != this ==>
                && loop.st == StrikeAll(old(loop.st), origin.id,
                     ReachedTasks(old(loop.st.scopes), old(loop.st.clock), id))
                && origin.handle == old(origin.handle)
      ensures origin == this ==> loop.st == Deliver(old(loop.st), id)
      decreases loop.st.clock - order, 2
    {
      Known(loop);
      ReachedSplit(loop.st.scopes, loop.st.clock, loop.st.places, id);
      assert MembersAt(loop.st.scopes, loop.st.places, id);
      retry := DeliverToTasks(loop, origin);
      StrikeTwice(old(loop.st), origin.id, tasks, BelowMe(loop.st));
      retry := DeliverToChildren(loop, origin, retry);
      if origin == this {
        Schedule(loop, retry);
      }
    }

    /** The end of `_deliver_cancellation`: schedules another run, or forgets the handle. */
    method Schedule(loop: EventLoop, retry: bool)
      requires In(loop)
      modifies loop`st, loop`ready, loop`nextHandle, this`handle
      ensures loop.Valid()
      ensures loop.st == Reschedule(old(loop.st), id, retry)
    {
      assert loop.ScopeAt(id);
      if retry {
        handle := Some(loop.nextHandle);
        loop.ready := loop.ready[loop.nextHandle := id];
        loop.nextHandle := loop.nextHandle + 1;
      } else {
        handle := None;
      }
      loop.st := Reschedule(loop.st, id, retry);
      forall t: TaskId ensures loop.TaskAt(t) { assert old(loop.TaskAt(t)); }
      forall i: ScopeId ensures loop.ScopeAt(i) { assert old(loop.ScopeAt(i)); }
    }

    // ----- bottom-up walks -----

    /** `_effectively_cancelled`. */
    method IsEffectivelyCancelled(loop: EventLoop) returns (r: bool)
      requires In(loop) && Ordered(loop.st.scopes)
      ensures r == EffectivelyCancelled(loop.st.scopes, id)
    {
      var cur := Some(id);
      while cur.Some?
        invariant cur.Some? ==> cur.value in loop.st.scopes
        invariant EffectivelyCancelled(loop.st.scopes, id) == IsCancelled(loop.st.scopes, cur)
        decreases if cur.Some? then loop.st.scopes[cur.value].order + 1 else 0
      {
        assert loop.ScopeAt(cur.value) && OrderedAt(loop.st.scopes, cur.value);
        var scope := loop.scopes[cur.value];
        if scope.cancelCalled {
          return true;
        }
        if scope.shield {
          return false;
        }
        cur := scope.parent;
      }
      r := false;
    }

    /** `_restart_cancellation_in_parent`. */
    method RestartCancellationInParent(loop: EventLoop)
      requires In(loop) && KeysOk(loop.st)
      requires TreeOk(loop.st.scopes, loop.st.clock) && TasksOk(loop.st.scopes, loop.st.places)
      modifies loop`st, loop`ready, loop`nextHandle, loop.tasks, loop.scopes`calls, loop.scopes`handle
      ensures loop.Valid()
      ensures loop.st == Restart(old(loop.st), parent)
    {
      Known(loop);
      var cur := parent;
      assert OrderedAt(loop.st.scopes, id);
      while cur.Some?
        invariant loop.st == old(loop.st) && loop.Valid()
        invariant cur.Some? ==> cur.value in loop.st.scopes
        invariant OriginOf(loop.st.scopes, parent) == OriginOf(loop.st.scopes, cur)
        decreases if cur.Some? then loop.st.scopes[cur.value].order + 1 else 0
      {
        assert loop.ScopeAt(cur.value) && OrderedAt(loop.st.scopes, cur.value);
        var scope := loop.scopes[cur.value];
        if scope.cancelCalled {
          if scope.handle.None? {
            var _ := scope.DeliverCancellation(loop, scope);
          }
          return;
        }
        if scope.shield {
          return;
        }
        cur := scope.parent;
      }
    }

    // ----- cancel and shield -----

    /** `cancel()`. */
    method Cancel(loop: EventLoop)
      requires In(loop)
      requires TreeOk(loop.st.scopes, loop.st.clock) && TasksOk(loop.st.scopes, loop.st.places)
      modifies loop`st, loop`ready, loop`nextHandle, loop.tasks, this`cancelCalled, this`calls, this`handle
      ensures In(loop)
      ensures loop.st == CancelCall(old(loop.st), id)
    {
      Known(loop);
      if !cancelCalled {
        SetCancelCalled(loop);
        FlaggedKeepsTree(old(loop.st), id);
        if host.Some? {
          var _ := DeliverCancellation(loop, this);
        }
      }
    }

    method SetCancelCalled(loop: EventLoop)
      requires In(loop)
      modifies loop`st, this`cancelCalled
      ensures loop.Valid() && cancelCalled
      ensures loop.st == Flagged(old(loop.st), id)
    {
      assert loop.ScopeAt(id);
      cancelCalled := true;
      loop.st := Flagged(loop.st, id);
      forall t: TaskId ensures loop.TaskAt(t) { assert old(loop.TaskAt(t)); }
      forall i: ScopeId ensures loop.ScopeAt(i) { assert old(loop.ScopeAt(i)); }
    }

    /** The `shield` setter. */
    method SetShield(loop: EventLoop, value: bool)
      requires In(loop) && KeysOk(loop.st)
      requires TreeOk(loop.st.scopes, loop.st.clock) && TasksOk(loop.st.scopes, loop.st.places)
      modifies loop`st, loop`ready, loop`nextHandle, loop.tasks
      modifies loop.scopes`shield, loop.scopes`calls, loop.scopes`handle
      ensures loop.Valid()
      ensures loop.st == CancelState.SetShield(old(loop.st), id, value)
    {
      Known(loop);
      if shield != value {
        FlipShield(loop, value);
        FlippedKeepsTree(old(loop.st), id, value);
        if !value {
          RestartCancellationInParent(loop);
        }
      }
    }

    method FlipShield(loop: EventLoop, value: bool)
      requires In(loop)
      modifies loop`st, this`shield
      ensures loop.Valid()
      ensures loop.st == Flipped(old(loop.st), id, value)
    {
      assert loop.ScopeAt(id);
      shield := value;
      loop.st := Flipped(loop.st, id, value);
      forall t: TaskId ensures loop.TaskAt(t) { assert old(loop.TaskAt(t)); }
      forall i: ScopeId ensures loop.ScopeAt(i) { assert old(loop.ScopeAt(i)); }
    }

    // ----- entering -----

    /** A child scope and its host move in: the parent's side of `__enter__`. */
    method AdoptChild(loop: EventLoop, c: ScopeId, t: TaskId)
      requires In(loop)
      modifies loop`st, this`children, this`tasks
      ensures In(loop) && loop.st == AdoptIn(old(loop.st), Some(id), c, t)
    {
      assert loop.ScopeAt(id);
      children := children + {c};
      tasks := tasks - {t};
      loop.st := loop.st.(scopes := loop.st.scopes[id := Rec()]);
      forall u: TaskId ensures loop.TaskAt(u) { assert old(loop.TaskAt(u)); }
      forall i: ScopeId ensures loop.ScopeAt(i) { assert old(loop.ScopeAt(i)); }
    }

    /** The parent's side of `__exit__`. */
    method AbandonChild(loop: EventLoop, c: ScopeId, t: TaskId)
      requires In(loop)
      modifies loop`st, this`children, this`tasks
      ensures In(loop) && loop.st == AbandonIn(old(loop.st), Some(id), c, t)
    {
      assert loop.ScopeAt(id);
      children := children - {c};
      tasks := tasks + {t};
      loop.st := loop.st.(scopes := loop.st.scopes[id := Rec()]);
      forall u: TaskId ensures loop.TaskAt(u) { assert old(loop.TaskAt(u)); }
      forall i: ScopeId ensures loop.ScopeAt(i) { assert old(loop.ScopeAt(i)); }
    }

    /** The scope's own side of `__enter__`: it takes over the host. */
    method TakeHost(loop: EventLoop, t: TaskId)
      requires In(loop)
      modifies loop`st, this`tasks, this`host, this`active
      ensures In(loop) && loop.st == TakeIn(old(loop.st), id, t)
    {
      assert loop.ScopeAt(id);
      host := Some(t);
      tasks := tasks + {t};
      active := true;
      loop.st := loop.st.(scopes := loop.st.scopes[id := Rec()]);
      forall u: TaskId ensures loop.TaskAt(u) { assert old(loop.TaskAt(u)); }
      forall i: ScopeId ensures loop.ScopeAt(i) { assert old(loop.ScopeAt(i)); }
    }

    /** It remembers its parent, its entry number and the host's `cancelling()`. */
    method Position(loop: EventLoop, p: Option<ScopeId>, mark: nat)
      requires In(loop)
      modifies loop`st, this`parent, this`cancelling, this`order
      ensures In(loop) && loop.st == PositionIn(old(loop.st), id, p, mark)
    {
      assert loop.ScopeAt(id);
      parent := p;
      cancelling := mark;
      order := loop.st.clock;
      loop.st := loop.st.(scopes := loop.st.scopes[id := Rec()], clock := loop.st.clock + 1);
      forall u: TaskId ensures loop.TaskAt(u) { assert old(loop.TaskAt(u)); }
      forall i: ScopeId ensures loop.ScopeAt(i) { assert old(loop.ScopeAt(i)); }
    }

    /** The scope's own side of `__exit__`. */
    method ReleaseHost(loop: EventLoop, t: TaskId)
      requires In(loop)
      modifies loop`st, this`tasks, this`host, this`active
      ensures In(loop) && loop.st == ReleaseIn(old(loop.st), id, t)
    {
      assert loop.ScopeAt(id);
      active := false;
      tasks := tasks - {t};
      host := None;
      loop.st := loop.st.(scopes := loop.st.scopes[id := Rec()]);
      forall u: TaskId ensures loop.TaskAt(u) { assert old(loop.TaskAt(u)); }
      forall i: ScopeId ensures loop.ScopeAt(i) { assert old(loop.ScopeAt(i)); }
    }

    /** The tree part of `__enter__`. */
    method LinkInto(loop: EventLoop, task: LoopTask)
      requires In(loop) && task.In(loop)
      requires task.scope.Some? ==> task.scope.value in loop.st.scopes && task.scope.value != id
      modifies loop`st, task`scope, loop.scopes
      ensures In(loop)
      ensures loop.st == Link(old(loop.st), id, task.id)
    {
      assert loop.TaskAt(task.id);
      LinkInSteps(loop.st, id, task.id);
      var p := task.scope;
      if p.Some? {
        assert loop.ScopeAt(p.value);
        loop.scopes[p.value].AdoptChild(loop, id, task.id);
      }
      assert loop.ScopeAt(id);
      assert loop.st == AdoptIn(old(loop.st), p, id, task.id);
      TakeHost(loop, task.id);
      Position(loop, p, task.requests);
      assert loop.TaskAt(task.id);
      task.MoveTo(loop, Some(id));
    }

    /** The rest of `__enter__`: the deadline, and a cancellation that came before the entry. */
    method StartDelivery(loop: EventLoop, expired: bool)
      requires In(loop) && KeysOk(loop.st)
      requires TreeOk(loop.st.scopes, loop.st.clock) && TasksOk(loop.st.scopes, loop.st.places)
      modifies loop`st, loop`ready, loop`nextHandle, loop.tasks, this`cancelCalled, this`calls, this`handle
      ensures In(loop)
      ensures var timed := if expired then CancelCall(old(loop.st), id) else old(loop.st);
              loop.st == if timed.scopes[id].cancelCalled then Deliver(timed, id) else timed
    {
      if expired {
        CancelKeepsTree(loop.st, id);
        Cancel(loop);
      }
      Known(loop);
      if cancelCalled {
        var _ := DeliverCancellation(loop, this);
      }
    }

    /** `__enter__`, for a scope that is used once. `expired` is what comparing the clock with
        the deadline says. */
    method Enter(loop: EventLoop, expired: bool) returns (r: Outcome<()>)
      requires In(loop) && StateOk(loop.st) && loop.current.Some?
      requires !active ==> order == 0
      modifies loop`st, loop`ready, loop`nextHandle, loop.tasks, loop.scopes
      ensures In(loop) && loop.current.value in old(loop.st).tasks && loop.current.value in old(loop.st).places
      ensures old(active) ==> r == RuntimeError(AlreadyActive) && loop.st == old(loop.st)
      ensures !old(active) ==>
                r == Ok(()) && loop.st == CancelState.Enter(old(loop.st), id, loop.current.value, expired)
    {
      var t := loop.current.value;
      assert loop.ScopeAt(id) && loop.TaskAt(t);
      if active {
        return RuntimeError(AlreadyActive);
      }
      LinkFacts(loop.st, id, t);
      LinkKeeps(loop.st, id, t);
      LinkInto(loop, loop.tasks[t]);
      StartDelivery(loop, expired);
      r := Ok(());
    }

    /** The uncancel loop of `__exit__`. */
    method UncancelHost(loop: EventLoop, task: LoopTask)
      requires In(loop) && task.In(loop)
      modifies loop`st, this`calls, task`requests
      ensures In(loop) && loop.st == UncancelIn(old(loop.st), id, task.id)
    {
      assert loop.ScopeAt(id) && loop.TaskAt(task.id);
      while calls > 0
        invariant loop.st == old(loop.st)
        invariant UncancelLoop(calls, task.requests, cancelling)
               == UncancelLoop(old(calls), old(task.requests), cancelling)
      {
        calls := calls - 1;
        var left := task.Uncancel();
        if left <= cancelling {
          break;
        }
      }
      assert (calls, task.requests) == UncancelLoop(old(calls), old(task.requests), cancelling);
      loop.st := loop.st.(calls := loop.st.calls[id := calls],
                          tasks := loop.st.tasks[task.id := task.Rec()]);
      forall u: TaskId ensures loop.TaskAt(u) { assert old(loop.TaskAt(u)); }
      forall i: ScopeId ensures loop.ScopeAt(i) { assert old(loop.ScopeAt(i)); }
    }

    /** The tree part of `__exit__`, with the uncancel loop. */
    method UnlinkFrom(loop: EventLoop, task: LoopTask)
      requires In(loop) && task.In(loop)
      requires parent.Some? ==> parent.value in loop.st.scopes && parent.value != id
      modifies loop`st, task`scope, task`requests, loop.scopes
      ensures In(loop)
      ensures loop.st == Unlink(old(loop.st), id, task.id)
      ensures cancelledCaught == old(cancelledCaught)
    {
      Known(loop);
      UnlinkInSteps(loop.st, id, task.id);
      var p := parent;
      if p.Some? {
        assert loop.ScopeAt(p.value);
        loop.scopes[p.value].AbandonChild(loop, id, task.id);
      }
      assert loop.ScopeAt(id);
      assert loop.st == AbandonIn(old(loop.st), p, id, task.id);
      ReleaseHost(loop, task.id);
      assert loop.TaskAt(task.id);
      task.MoveTo(loop, p);
      assert loop.ScopeAt(id) && loop.TaskAt(task.id);
      UncancelHost(loop, task);
    }

    /** `_uncancel`: whether this scope swallows `exc`. */
    method Uncancel(loop: EventLoop, exc: Exc) returns (r: bool)
      requires In(loop) && Ordered(loop.st.scopes) && exc.Cancelled? && cancelCalled
      modifies this`cancelledCaught
      ensures In(loop)
      ensures r == (FromScope(exc) && Swallows(loop.st.scopes, id))
      ensures cancelledCaught == if FromScope(exc) then r else old(cancelledCaught)
    {
      Known(loop);
      var cur := exc;
      while true
        invariant In(loop) && cur.Cancelled? && FromScope(cur) == FromScope(exc)
        invariant cancelledCaught == old(cancelledCaught)
        decreases cur
      {
        if cur.byScope {
          var visible := false;
          assert OrderedAt(loop.st.scopes, id);
          if parent.Some? && !shield {
            assert loop.ScopeAt(parent.value);
            visible := loop.scopes[parent.value].IsEffectivelyCancelled(loop);
          }
          var effective := IsEffectivelyCancelled(loop);
          cancelledCaught := effective && !visible;
          forall i: ScopeId ensures loop.ScopeAt(i) { assert old(loop.ScopeAt(i)); }
          return cancelledCaught;
        }
        if cur.context.Some? && cur.context.value.Cancelled? {
          cur := cur.context.value;
        } else {
          return false;
        }
      }
    }

    /** The loop of `__exit__` over the atoms of the exception. */
    method ScanAtoms(loop: EventLoop, exc: Exc) returns (swallow: bool)
      requires In(loop) && Ordered(loop.st.scopes)
      modifies this`cancelledCaught
      ensures In(loop)
      ensures var r := Scan(loop.st.scopes, id, Leaves(exc)); swallow == (r.0 && r.1 == 0)
      ensures cancelledCaught == Caught(loop.st.scopes, id, Leaves(exc), old(cancelledCaught))
    {
      Known(loop);
      var notSwallowed := 0;
      swallow := false;
      var leaves := Leaves(exc);
      for i := 0 to |leaves|
        invariant In(loop)
        invariant (swallow, notSwallowed) == Scan(loop.st.scopes, id, leaves[..i])
        invariant cancelledCaught ==
                    if cancelCalled && exists j :: 0 <= j < i && FromScope(leaves[j])
                    then Swallows(loop.st.scopes, id) else old(cancelledCaught)
      {
        assert leaves[..i + 1][..i] == leaves[..i];
        if cancelCalled && leaves[i].Cancelled? {
          swallow := Uncancel(loop, leaves[i]);
          if !swallow {
            notSwallowed := notSwallowed + 1;
          }
        } else {
          notSwallowed := notSwallowed + 1;
        }
      }
      assert leaves[..|leaves|] == leaves;
      swallow := swallow && notSwallowed == 0;
    }

    /** Closes the scope and decides about the exception. */
    method Close(loop: EventLoop, task: LoopTask, exc: Option<Exc>) returns (swallow: bool)
      requires In(loop) && task.In(loop)
      requires parent.Some? ==> parent.value in loop.st.scopes && parent.value != id
      requires Ordered(Unlink(loop.st, id, task.id).scopes)
      modifies loop`st, task`scope, task`requests, loop.scopes
      ensures In(loop)
      ensures loop.st == Unlink(old(loop.st), id, task.id)
      ensures swallow == ExitSwallows(loop.st, id, exc)
      ensures cancelledCaught == CaughtAfter(loop.st, id, exc, old(cancelledCaught))
    {
      UnlinkFrom(loop, task);
      swallow := false;
      if exc.Some? {
        swallow := ScanAtoms(loop, exc.value);
      }
    }

    /** `__exit__` past its checks. */
    method Leave(loop: EventLoop, task: LoopTask, exc: Option<Exc>) returns (swallow: bool)
      requires In(loop) && task.In(loop) && ClosesWell(loop.st, id, task.id, exc)
      modifies loop`st, loop`ready, loop`nextHandle, loop.tasks, loop.scopes
      ensures In(loop)
      ensures swallow == ExitSwallows(old(loop.st), id, exc)
      ensures cancelledCaught == CaughtAfter(old(loop.st), id, exc, old(cancelledCaught))
      ensures loop.st == CancelState.Exit(old(loop.st), id, task.id)
    {
      Known(loop);
      swallow := Close(loop, task, exc);
      Known(loop);
      RestartCancellationInParent(loop);
      assert loop.ScopeAt(id);
    }

    /** `__exit__`: whether the scope swallows the exception that leaves its block. */
    method Exit(loop: EventLoop, exc: Option<Exc>) returns (r: Outcome<bool>)
      requires In(loop) && MayLeave(loop.st, id, exc)
      modifies loop`st, loop`ready, loop`nextHandle, loop.tasks, loop.scopes
      ensures In(loop) && loop.current.value in old(loop.st).tasks && loop.current.value in old(loop.st).places
      ensures r == ExitOutcome(old(loop.st), id, exc)
      ensures cancelledCaught ==
              if r.Ok? then CaughtAfter(old(loop.st), id, exc, old(cancelledCaught)) else old(cancelledCaught)
      ensures loop.st == if r.Ok? then CancelState.Exit(old(loop.st), id, loop.current.value) else old(loop.st)
    {
      var t := loop.current.value;
      assert loop.ScopeAt(id) && loop.TaskAt(t);
      if !active {
        return RuntimeError(NotActive);
      }
      if host != Some(t) {
        return RuntimeError(WrongTask);
      }
      if loop.tasks[t].scope != Some(id) {
        return RuntimeError(NotCurrentScope);
      }
      var swallow := Leave(loop, loop.tasks[t], exc);
      r := Ok(swallow);
    }
  }

  /** Whether `__exit__` swallows `exc`. */
  predicate ExitSwallows(st: State, s: ScopeId, exc: Option<Exc>)
    requires s in st.scopes
  {
    exc.Some? &&
    var r := Scan(st.scopes, s, Leaves(exc.value));
    r.0 && r.1 == 0
  }

  /** What `cancelled_caught` is after `__exit__`. */
  predicate CaughtAfter(st: State, s: ScopeId, exc: Option<Exc>, before: bool)
    requires s in st.scopes
  {
    if exc.Some? then Caught(st.scopes, s, Leaves(exc.value), before) else before
  }

  /** What `__exit__` returns or raises. */
  function ExitOutcome(st: State, s: ScopeId, exc: Option<Exc>): Outcome<bool>
    requires s in st.scopes
  {
    if !st.scopes[s].active then RuntimeError(NotActive)
    else if st.scopes[s].host != st.current then RuntimeError(WrongTask)
    else if st.current.None? || st.current.value !in st.places
            || st.places[st.current.value].scope != Some(s) then RuntimeError(NotCurrentScope)
    else Ok(ExitSwallows(st, s, exc))
  }

  /** The tree stays well-formed when `t` leaves `s`, and the decision about the exception is the
      same before and after. */
  ghost predicate ClosesWell(st: State, s: ScopeId, t: TaskId, exc: Option<Exc>) {
    && s in st.scopes && s in st.calls && t in st.places && t in st.tasks
    && (st.scopes[s].parent.Some? ==>
          st.scopes[s].parent.value in st.scopes && st.scopes[s].parent.value != s)
    && var n := Unlink(st, s, t);
       && KeysOk(n) && TreeOk(n.scopes, n.clock) && TasksOk(n.scopes, n.places)
       && n.scopes[s].parent == st.scopes[s].parent
       && ExitSwallows(n, s, exc) == ExitSwallows(st, s, exc)
       && forall before :: CaughtAfter(n, s, exc, before) == CaughtAfter(st, s, exc, before)
  }

  lemma ClosingFacts(st: State, s: ScopeId, t: TaskId, exc: Option<Exc>)
    requires CanUnlink(st, s, t)
    ensures ClosesWell(st, s, t, exc)
  {
    UnlinkFacts(st, s, t);
    UnlinkKeeps(st, s, t);
    if exc.Some? {
      UnlinkKeepsSwallowing(st, s, t, exc);
    }
  }

  /** A task runs, and if the checks of `__exit__` pass, the scope can be left. */
  ghost predicate MayLeave(st: State, s: ScopeId, exc: Option<Exc>) {
    && st.current.Some? && st.current.value in st.tasks && st.current.value in st.places
    && (s in st.scopes && ExitOutcome(st, s, exc).Ok? ==> ClosesWell(st, s, st.current.value, exc))
  }

  /** In every state of a structured program a task may try to leave any scope that is nobody's
      home; of a task group's scope, `GroupTheorems` proves that when `__aexit__` leaves it. */
  lemma StructuredMayLeave(st: State, s: ScopeId, exc: Option<Exc>)
    requires StateOk(st) && st.current.Some?
    requires forall u :: u in st.places ==> st.places[u].home != Some(s)
    ensures MayLeave(st, s, exc)
  {
    if s in st.scopes && ExitOutcome(st, s, exc).Ok? {
      ClosingFacts(st, s, st.current.value, exc);
    }
  }

  lemma UnlinkKeepsSwallowing(st: State, s: ScopeId, t: TaskId, exc: Option<Exc>)
    requires CanUnlink(st, s, t) && exc.Some?
    ensures Scan(Unlink(st, s, t).scopes, s, Leaves(exc.value)) == Scan(st.scopes, s, Leaves(exc.value))
    ensures forall before :: CaughtAfter(Unlink(st, s, t), s, exc, before) == CaughtAfter(st, s, exc, before)
  {
    UnlinkFacts(st, s, t);
    UnlinkFrame(st, s, t, t);
    UnlinkKeepsTree(st, s, t);
    assert NewAt(st.scopes, st.calls, s);
    SwallowsFrame(st.scopes, Unlink(st, s, t).scopes, s);
    ScanFrame(st.scopes, Unlink(st, s, t).scopes, s, Leaves(exc.value));
  }

  // ----- the same steps on the value of the state, one object at a time -----

  function AdoptIn(st: State, p: Option<ScopeId>, s: ScopeId, t: TaskId): State {
    if p.Some? && p.value in st.scopes then
      st.(scopes := st.scopes[p.value := st.scopes[p.value].(
            children := st.scopes[p.value].children + {s}, tasks := st.scopes[p.value].tasks - {t})])
    else st
  }

  function AbandonIn(st: State, p: Option<ScopeId>, s: ScopeId, t: TaskId): State {
    if p.Some? && p.value in st.scopes then
      st.(scopes := st.scopes[p.value := st.scopes[p.value].(
            children := st.scopes[p.value].children - {s}, tasks := st.scopes[p.value].tasks + {t})])
    else st
  }

  function TakeIn(st: State, s: ScopeId, t: TaskId): State
    requires s in st.scopes
  {
    st.(scopes := st.scopes[s := st.scopes[s].(
          tasks := st.scopes[s].tasks + {t}, host := Some(t), active := true)])
  }

  function ReleaseIn(st: State, s: ScopeId, t: TaskId): State
    requires s in st.scopes
  {
    st.(scopes := st.scopes[s := st.scopes[s].(
          active := false, host := None, tasks := st.scopes[s].tasks - {t})])
  }

  function PositionIn(st: State, s: ScopeId, p: Option<ScopeId>, mark: nat): State
    requires s in st.scopes
  {
    st.(scopes := st.scopes[s := st.scopes[s].(parent := p, cancelling := mark, order := st.clock)],
        clock := st.clock + 1)
  }

  function MoveIn(st: State, t: TaskId, s: Option<ScopeId>): State
    requires t in st.places
  {
    st.(places := st.places[t := st.places[t].(scope := s)])
  }

  function UncancelIn(st: State, s: ScopeId, t: TaskId): State
    requires s in st.scopes && s in st.calls && t in st.tasks
  {
    var left := UncancelLoop(st.calls[s], st.tasks[t].requests, st.scopes[s].cancelling);
    st.(calls := st.calls[s := left.0], tasks := st.tasks[t := st.tasks[t].(requests := left.1)])
  }

  lemma LinkInSteps(st: State, s: ScopeId, t: TaskId)
    requires s in st.scopes && t in st.places && t in st.tasks && st.places[t].scope != Some(s)
    ensures var p := st.places[t].scope;
            var a := TakeIn(AdoptIn(st, p, s, t), s, t);
            MoveIn(PositionIn(a, s, p, st.tasks[t].requests), t, Some(s)) == Link(st, s, t)
  {
    var p := st.places[t].scope;
    var a := TakeIn(AdoptIn(st, p, s, t), s, t);
    assert PositionIn(a, s, p, st.tasks[t].requests).scopes == Link(st, s, t).scopes;
  }

  lemma UnlinkInSteps(st: State, s: ScopeId, t: TaskId)
    requires s in st.scopes && s in st.calls && t in st.places && t in st.tasks
    requires st.scopes[s].parent != Some(s)
    ensures var p := st.scopes[s].parent;
            var a := ReleaseIn(AbandonIn(st, p, s, t), s, t);
            UncancelIn(MoveIn(a, t, p), s, t) == Unlink(st, s, t)
  {
  }

  function StruckBy(t: Task, hosted: bool): Task {
    if hosted then Struck(t) else Struck(t).(foreign := t.foreign + 1)
  }

  lemma StrikeOne(st: State, o: ScopeId, t: TaskId)
    requires o in st.scopes && o in st.calls && t in st.tasks
    ensures var n := StrikeAll(st, o, {t});
            var hosted := st.scopes[o].host == Some(t);
            if !Eligible(st, t) then n == st
            else n == st.(tasks := st.tasks[t := StruckBy(st.tasks[t], hosted)],
                          calls := if hosted then st.calls[o := st.calls[o] + 1] else st.calls)
  {
    var n := StrikeAll(st, o, {t});
    var hosted := st.scopes[o].host == Some(t);
    if !Eligible(st, t) {
      assert n.tasks == st.tasks;
    } else {
      assert n.tasks == st.tasks[t := StruckBy(st.tasks[t], hosted)];
    }
  }

  lemma StrikeNone(st: State, o: ScopeId)
    requires o in st.scopes && o in st.calls
    ensures StrikeAll(st, o, {}) == st
  {
    assert StrikeAll(st, o, {}).tasks == st.tasks;
  }

  lemma StrikeNext(st: State, o: ScopeId, all: set<TaskId>, todo: set<TaskId>, t: TaskId)
    requires o in st.scopes && o in st.calls && t in todo && todo <= all
    ensures StrikeAll(StrikeAll(st, o, all - todo), o, {t}) == StrikeAll(st, o, all - (todo - {t}))
  {
    assert all - (todo - {t}) == (all - todo) + {t};
    StrikeTwice(st, o, all - todo, {t});
  }

  /** Striking two disjoint sets of tasks one after the other strikes their union. */
  lemma StrikeTwice(st: State, o: ScopeId, a: set<TaskId>, b: set<TaskId>)
    requires o in st.scopes && o in st.calls && a !! b
    ensures StrikeAll(StrikeAll(st, o, a), o, b) == StrikeAll(st, o, a + b)
  {
    var first := StrikeAll(st, o, a);
    forall t | t in st.tasks && t in b
      ensures Eligible(first, t) == Eligible(st, t)
    {
    }
    assert StrikeAll(first, o, b).tasks == StrikeAll(st, o, a + b).tasks;
    assert StrikeAll(first, o, b).calls == StrikeAll(st, o, a + b).calls;
  }

  /** The tasks that the deliveries of `kids` meet. */
  ghost function MetBelow(m: Scopes, clock: nat, kids: set<ScopeId>): set<TaskId> {
    set c, t | c in kids && c in m && t in ReachedTasks(m, clock, c) :: t
  }

  /** A delivery meets the scope's own tasks and those of its children, never one twice. */
  lemma ReachedSplit(m: Scopes, clock: nat, places: map<TaskId, Place>, s: ScopeId)
    requires TreeOk(m, clock) && TasksOk(m, places) && s in m
    ensures ReachedTasks(m, clock, s) == m[s].tasks + MetBelow(m, clock, Kids(m, clock, s))
    ensures m[s].tasks !! MetBelow(m, clock, Kids(m, clock, s))
  {
    forall t | t in MetBelow(m, clock, Kids(m, clock, s))
      ensures t !in m[s].tasks && t in ReachedTasks(m, clock, s)
    {
      var c :| c in Kids(m, clock, s) && t in ReachedTasks(m, clock, c);
      var x :| x in Region(m, clock, c) && t in m[x].tasks;
      RegionIsAbove(m, clock, c, x);
      RegionClosed(m, clock, s, c, x);
      assert MembersAt(m, places, x) && MembersAt(m, places, s);
    }
    forall t | t in ReachedTasks(m, clock, s) && t !in m[s].tasks
      ensures t in MetBelow(m, clock, Kids(m, clock, s))
    {
      var x :| x in Region(m, clock, s) && t in m[x].tasks;
      var c :| c in Kids(m, clock, s) && x in Region(m, clock, c);
      assert t in ReachedTasks(m, clock, c);
    }
  }

  lemma MetNext(m: Scopes, clock: nat, places: map<TaskId, Place>, s: ScopeId, seen: set<ScopeId>, c: ScopeId)
    requires TreeOk(m, clock) && TasksOk(m, places) && s in m
    requires seen <= Kids(m, clock, s) && c in Kids(m, clock, s) && c !in seen
    ensures MetBelow(m, clock, seen + {c}) == MetBelow(m, clock, seen) + ReachedTasks(m, clock, c)
    ensures MetBelow(m, clock, seen) !! ReachedTasks(m, clock, c)
  {
    forall t | t in MetBelow(m, clock, seen) && t in ReachedTasks(m, clock, c)
      ensures false
    {
      var d :| d in seen && d in m && t in ReachedTasks(m, clock, d);
      var x :| x in Region(m, clock, c) && t in m[x].tasks;
      var y :| y in Region(m, clock, d) && t in m[y].tasks;
      assert MembersAt(m, places, x) && MembersAt(m, places, y);
      SiblingRegionsDisjoint(m, clock, s, c, d, x);
    }
  }

  lemma FlaggedKeepsTree(st: State, s: ScopeId)
    requires s in st.scopes && TreeOk(st.scopes, st.clock) && TasksOk(st.scopes, st.places)
    ensures var n := Flagged(st, s); TreeOk(n.scopes, n.clock) && TasksOk(n.scopes, n.places)
  {
    FlagsKeepTree(st, Flagged(st, s));
    FlagsKeepTasks(st, Flagged(st, s));
  }

  lemma FlippedKeepsTree(st: State, s: ScopeId, v: bool)
    requires s in st.scopes && TreeOk(st.scopes, st.clock) && TasksOk(st.scopes, st.places) && KeysOk(st)
    ensures var n := Flipped(st, s, v);
            TreeOk(n.scopes, n.clock) && TasksOk(n.scopes, n.places) && KeysOk(n)
  {
    var n := Flipped(st, s, v);
    FlagsKeepTree(st, n);
    FlagsKeepTasks(st, n);
    forall x | x in n.scopes
      ensures NewAt(n.scopes, n.calls, x)
    {
      assert NewAt(st.scopes, st.calls, x);
    }
  }

  lemma CancelKeepsTree(st: State, s: ScopeId)
    requires s in st.scopes && s in st.calls
    requires TreeOk(st.scopes, st.clock) && TasksOk(st.scopes, st.places)
    ensures var n := CancelCall(st, s); TreeOk(n.scopes, n.clock) && TasksOk(n.scopes, n.places)
  {
    FlaggedKeepsTree(st, s);
  }
}
