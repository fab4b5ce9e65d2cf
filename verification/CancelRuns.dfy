/**
 What every run of the event loop keeps: the bookkeeping of the scope tree, the make-up of
 the cancellation counters, and that the delivery of a cancellation never stalls.
 */
module CancelRuns {
  import opened Wrappers
  import opened ScopeTree
  import opened Tasks
  import opened CancelState
  import opened CancelSteps
  import opened CancelExit

  // ----- steps that change no link of the tree -----

  /** `n` differs from `st` in the tasks, the running task and the scheduled callbacks. */
  ghost predicate SameTree(st: State, n: State) {
    n.scopes == st.scopes && n.places == st.places && n.calls == st.calls
    && n.handles == st.handles
  }

  lemma TaskChangeKeeps(st: State, n: State, t: TaskId)
    requires StateOk(st) && SameTree(st, n) && KeysOk(n) && n.clock == st.clock && n.ready == st.ready
    requires t in st.tasks && n.tasks.Keys == st.tasks.Keys
    requires forall u :: u in st.tasks && u != t ==> n.tasks[u] == st.tasks[u]
    requires n.tasks[t].life == Running || forall s :: s in st.scopes ==> st.scopes[s].host != Some(t)
    requires n.tasks[t].foreign == st.tasks[t].foreign && n.tasks[t].native >= st.tasks[t].native
    requires n.tasks[t].requests - n.tasks[t].native == st.tasks[t].requests - st.tasks[t].native
    ensures StateOk(n)
  {
    forall u | u in n.tasks && u in n.places
      ensures CountsFor(n, u)
    {
      assert CountsFor(st, u);
      assert HostedCalls(n, n.places[u].scope, u) == HostedCalls(st, st.places[u].scope, u);
    }
    forall s, h | s in n.scopes && h in n.tasks && n.scopes[s].host == Some(h)
      ensures MarkFor(n, s, h)
    {
      assert MarkFor(st, s, h);
      assert HostedCalls(n, Up(n.scopes, s), h) == HostedCalls(st, Up(st.scopes, s), h);
    }
  }

  /** A task that has not started, or has returned, hosts no scope. */
  lemma OnlyRunningHosts(st: State, t: TaskId)
    requires StateOk(st) && t in st.tasks && st.tasks[t].life != Running
    ensures forall s :: s in st.scopes ==> st.scopes[s].host != Some(t)
  {
  }

  lemma NativeKeeps(st: State, t: TaskId)
    requires StateOk(st) && Enabled(st, NativeCancel(t))
    ensures StateOk(Next(st, NativeCancel(t)))
  {
    if st.tasks[t].life != Running {
      OnlyRunningHosts(st, t);
    }
    TaskChangeKeeps(st, Next(st, NativeCancel(t)), t);
  }

  lemma ResumeKeeps(st: State, t: TaskId)
    requires StateOk(st) && Enabled(st, Resume(t))
    ensures StateOk(Next(st, Resume(t)))
  {
    TaskChangeKeeps(st, Next(st, Resume(t)), t);
  }

  lemma BlockKeeps(st: State, onFuture: bool)
    requires StateOk(st) && Enabled(st, Block(onFuture))
    ensures StateOk(Next(st, Block(onFuture)))
  {
    TaskChangeKeeps(st, Next(st, Block(onFuture)), st.current.value);
  }

  lemma CompleteKeeps(st: State, t: TaskId)
    requires StateOk(st) && Enabled(st, Complete(t))
    ensures StateOk(Next(st, Complete(t)))
  {
    if st.tasks[t].life != Running {
      OnlyRunningHosts(st, t);
    }
    TaskChangeKeeps(st, Next(st, Complete(t)), t);
  }

  lemma ReturnKeeps(st: State)
    requires StateOk(st) && Enabled(st, Return)
    ensures StateOk(Next(st, Return))
  {
    var t := st.current.value;
    forall s | s in st.scopes
      ensures st.scopes[s].host != Some(t)
    {
      assert LinkedAt(st.scopes, s);
    }
    TaskChangeKeeps(st, Next(st, Return), t);
  }

  lemma SameTreeServes(st: State, n: State)
    requires SameTree(st, n) && Live(st)
    ensures Live(n)
  {
    forall t | t in n.places
      ensures Served(n, t)
    {
      assert Served(st, t);
    }
  }

  // ----- new scopes and tasks -----

  ghost predicate BlankScope(s: Scope) {
    && !s.active && s.host == None && s.parent == None && s.order == 0
    && s.tasks == {} && s.children == {}
  }

  /** `n` adds blank scopes to `st`, and tasks whose current scope is their home. */
  ghost predicate Grows(st: State, n: State) {
    && n.clock == st.clock && n.ready == st.ready && KeysOk(st) && KeysOk(n)
    && st.scopes.Keys <= n.scopes.Keys
    && (forall s :: s in n.scopes ==>
          if s in st.scopes then
            && n.scopes[s] == st.scopes[s].(tasks := n.scopes[s].tasks)
            && n.calls[s] == st.calls[s] && n.handles[s] == st.handles[s]
          else
            BlankScope(n.scopes[s]) && n.handles[s] == None)
    && (forall s, t :: s in st.scopes ==>
          (t in n.scopes[s].tasks <==>
           t in st.scopes[s].tasks || (t in n.places && t !in st.places && n.places[t].scope == Some(s))))
    && st.places.Keys <= n.places.Keys
    && (forall t :: t in n.places ==>
          if t in st.places then
            n.places[t] == st.places[t] && n.tasks[t] == st.tasks[t]
          else
            && n.tasks[t] == Task(Created, NoWaiter, false, 0, 0, 0)
            && n.places[t].scope == n.places[t].home
            && (n.places[t].home.Some? ==>
                  n.places[t].home.value in st.scopes && st.scopes[n.places[t].home.value].active))
  }

  lemma InactiveStaysEmpty(st: State, n: State, s: ScopeId, t: TaskId)
    requires Grows(st, n) && Linked(st.scopes) && s in st.scopes && !st.scopes[s].active
    ensures t !in n.scopes[s].tasks
  {
    assert LinkedAt(st.scopes, s);
    assert t in n.places && t !in st.places ==> n.places[t].scope == n.places[t].home;
  }

  lemma GrowsKeepsTree(st: State, n: State)
    requires Grows(st, n) && StateOk(st)
    ensures TreeOk(n.scopes, n.clock)
  {
    forall s | s in n.scopes
      ensures OrderedAt(n.scopes, s) && LinkedAt(n.scopes, s)
    {
      if s in st.scopes {
        GrowsKeepsScope(st, n, s);
      }
    }
  }

  lemma GrowsKeepsScope(st: State, n: State, s: ScopeId)
    requires Grows(st, n) && StateOk(st) && s in st.scopes
    ensures s in n.scopes && OrderedAt(n.scopes, s) && LinkedAt(n.scopes, s)
  {
    assert OrderedAt(st.scopes, s) && LinkedAt(st.scopes, s);
    if !st.scopes[s].active {
      forall t ensures t !in n.scopes[s].tasks { InactiveStaysEmpty(st, n, s, t); }
    }
  }

  lemma FreshHostsNothing(st: State, t: TaskId)
    requires StateOk(st) && t !in st.places
    ensures forall s :: s in st.scopes ==> st.scopes[s].host != Some(t)
    ensures forall s :: s in st.scopes ==> t !in st.scopes[s].tasks
  {
    forall s | s in st.scopes
      ensures st.scopes[s].host != Some(t) && t !in st.scopes[s].tasks
    {
      assert HostAt(st.scopes, st.places, s) && MembersAt(st.scopes, st.places, s);
    }
  }

  lemma GrowsKeepsTasks(st: State, n: State)
    requires Grows(st, n) && StateOk(st)
    ensures TasksOk(n.scopes, n.places)
  {
    forall s | s in n.scopes
      ensures MembersAt(n.scopes, n.places, s)
    {
      if s in st.scopes {
        assert MembersAt(st.scopes, st.places, s);
      }
    }
    forall t | t in n.places
      ensures PlacedAt(n.scopes, n.places, t)
    {
      if t in st.places {
        assert PlacedAt(st.scopes, st.places, t);
      }
    }
  }

  lemma GrowsKeepsHomes(st: State, n: State)
    requires Grows(st, n) && StateOk(st)
    ensures HomeOk(n.scopes, n.places)
  {
    forall s | s in n.scopes
      ensures HostAt(n.scopes, n.places, s)
    {
      if s in st.scopes {
        assert HostAt(st.scopes, st.places, s) && OrderedAt(st.scopes, s);
      }
    }
    forall t | t in n.places
      ensures HomeAt(n.scopes, n.places, t)
    {
      if t in st.places {
        assert HomeAt(st.scopes, st.places, t);
      } else {
        FreshHostsNothing(st, t);
      }
    }
  }

  lemma GrowsStack(st: State, n: State, s: Option<ScopeId>, t: TaskId)
    requires Grows(st, n) && StateOk(st)
    requires s.Some? ==> s.value in st.scopes && 0 < st.scopes[s.value].order
    ensures Stack(n.scopes, s, t) == Stack(st.scopes, s, t)
    ensures HostedCalls(n, s, t) == HostedCalls(st, s, t)
  {
    StackFrame(st.scopes, n.scopes, s, t, st.clock);
    SumAgrees(st.calls, n.calls, Stack(st.scopes, s, t));
  }

  lemma {:induction false} SumAgrees(calls: map<ScopeId, nat>, more: map<ScopeId, nat>, stack: seq<ScopeId>)
    requires forall c :: c in stack ==> c in calls && c in more && calls[c] == more[c]
    ensures Sum(more, stack) == Sum(calls, stack)
  {
    if stack != [] {
      SumAgrees(calls, more, stack[1..]);
    }
  }

  lemma GrowsKeepsStacks(st: State, n: State)
    requires Grows(st, n) && StateOk(st)
    ensures StackOk(n.scopes, n.places)
  {
    forall s | s in n.scopes && n.scopes[s].host.Some? && n.scopes[s].host.value in n.places
      ensures StackAt(n.scopes, n.places, s)
    {
      var h := n.scopes[s].host.value;
      if h in st.places {
        assert StackAt(st.scopes, st.places, s);
        if st.places[h].scope.Some? {
          PlaceEntered(st, h);
        }
        GrowsStack(st, n, st.places[h].scope, h);
      } else {
        FreshHostsNothing(st, h);
      }
    }
  }

  lemma GrowsKeepsCountsFor(st: State, n: State, t: TaskId)
    requires Grows(st, n) && StateOk(st) && t in n.tasks && t in n.places
    ensures CountsFor(n, t)
  {
    if t in st.places {
      assert CountsFor(st, t);
      if st.places[t].scope.Some? {
        PlaceEntered(st, t);
      }
      GrowsStack(st, n, st.places[t].scope, t);
    } else {
      FreshHostsNothing(st, t);
      assert Stack(n.scopes, n.places[t].scope, t) == [];
    }
  }

  lemma GrowsKeepsCounts(st: State, n: State)
    requires Grows(st, n) && StateOk(st)
    ensures CountOk(n)
  {
    forall t | t in n.tasks && t in n.places
      ensures CountsFor(n, t)
    {
      GrowsKeepsCountsFor(st, n, t);
    }
    forall s, h | s in n.scopes && h in n.tasks && n.scopes[s].host == Some(h)
      ensures MarkFor(n, s, h)
    {
      GrowsKeepsMarkFor(st, n, s, h);
    }
  }

  lemma GrowsKeepsMarkFor(st: State, n: State, s: ScopeId, h: TaskId)
    requires Grows(st, n) && StateOk(st) && s in n.scopes && h in n.tasks && n.scopes[s].host == Some(h)
    ensures MarkFor(n, s, h)
  {
    assert OrderedAt(st.scopes, s) && HostAt(st.scopes, st.places, s);
    GrowsKeepsTree(st, n);
    assert OrderedAt(n.scopes, s) && MarkFor(st, s, h);
    GrowsStack(st, n, Up(st.scopes, s), h);
  }

  lemma GrowsKeeps(st: State, n: State)
    requires Grows(st, n) && StateOk(st)
    ensures StateOk(n)
  {
    GrowsKeepsTree(st, n);
    GrowsKeepsTasks(st, n);
    GrowsKeepsHomes(st, n);
    GrowsKeepsStacks(st, n);
    GrowsKeepsCounts(st, n);
    GrowsKeepsHandles(st, n);
    GrowsKeepsHostsRun(st, n);
  }

  lemma GrowsKeepsHandles(st: State, n: State)
    requires Grows(st, n) && StateOk(st)
    ensures HandlesOk(n.handles, n.ready)
  {
    forall s | s in n.handles
      ensures HandleAt(n.handles, n.ready, s)
    {
      if s in st.scopes {
        assert HandleAt(st.handles, st.ready, s);
      }
    }
  }

  lemma GrowsKeepsHostsRun(st: State, n: State)
    requires Grows(st, n) && StateOk(st)
    ensures HostsRun(n.scopes, n.tasks)
  {
    forall s, h | s in n.scopes && h in n.tasks && n.scopes[s].host == Some(h)
      ensures n.tasks[h].life == Running
    {
      if h !in st.places {
        FreshHostsNothing(st, h);
      }
    }
  }

  lemma NewKeepsNew(st: State, n: State)
    requires NewOk(st.scopes, st.calls)
    requires forall s :: s in n.scopes ==>
      if s in st.scopes then
        s in st.calls && s in n.calls && n.calls[s] == st.calls[s]
        && n.scopes[s] == st.scopes[s].(tasks := n.scopes[s].tasks)
      else BlankScope(n.scopes[s]) && s in n.calls && n.calls[s] == 0
    ensures NewOk(n.scopes, n.calls)
  {
    forall s | s in n.scopes
      ensures NewAt(n.scopes, n.calls, s)
    {
      if s in st.scopes {
        assert NewAt(st.scopes, st.calls, s);
      }
    }
  }

  lemma NewScopeKeeps(st: State, s: ScopeId, shield: bool)
    requires StateOk(st) && s !in st.scopes
    ensures StateOk(Next(st, NewScope(s, shield)))
  {
    NewScopeGrows(st, s, shield, Next(st, NewScope(s, shield)));
    GrowsKeeps(st, Next(st, NewScope(s, shield)));
  }

  lemma NewScopeGrows(st: State, s: ScopeId, shield: bool, n: State)
    requires KeysOk(st) && s !in st.scopes && n == Next(st, NewScope(s, shield))
    ensures Grows(st, n)
  {
    assert n.places == st.places && n.tasks == st.tasks;
    NewScopeKeys(st, s, shield, n);
  }

  lemma NewScopeKeys(st: State, s: ScopeId, shield: bool, n: State)
    requires KeysOk(st) && s !in st.scopes && n == Next(st, NewScope(s, shield))
    ensures KeysOk(n)
  {
    NewKeepsNew(st, n);
  }

  lemma NewTaskKeeps(st: State, t: TaskId)
    requires StateOk(st) && t !in st.tasks
    ensures StateOk(Next(st, NewTask(t)))
  {
    var n := Next(st, NewTask(t));
    NewKeepsNew(st, n);
    FreshHostsNothing(st, t);
    GrowsKeeps(st, n);
  }

  lemma SpawnKeeps(st: State, g: ScopeId, t: TaskId)
    requires StateOk(st) && g in st.scopes && st.scopes[g].active && t !in st.tasks
    ensures StateOk(Spawn(st, g, t))
  {
    FreshHostsNothing(st, t);
    SpawnGrows(st, g, t, Spawn(st, g, t));
    GrowsKeeps(st, Spawn(st, g, t));
  }

  lemma SpawnGrows(st: State, g: ScopeId, t: TaskId, n: State)
    requires KeysOk(st) && g in st.scopes && st.scopes[g].active && t !in st.tasks
    requires n == Spawn(st, g, t) && forall s :: s in st.scopes ==> t !in st.scopes[s].tasks
    ensures Grows(st, n)
  {
    NewKeepsNew(st, n);
    assert KeysOk(n);
  }

  // ----- a task that has returned -----

  /** What `task_done` asserts and relies on: a finished group member is in its group's scope,
      and nowhere else. */
  lemma DoneIsAtHome(st: State, t: TaskId)
    requires StateOk(st) && t in st.tasks && st.tasks[t].life == Returned
    ensures st.places[t].scope == st.places[t].home
    ensures forall s :: s in st.scopes && t in st.scopes[s].tasks ==> st.places[t].home == Some(s)
    ensures st.places[t].home.Some? ==>
              st.places[t].home.value in st.scopes && t in st.scopes[st.places[t].home.value].tasks
  {
    OnlyRunningHosts(st, t);
    assert HomeAt(st.scopes, st.places, t) && PlacedAt(st.scopes, st.places, t);
    forall s | s in st.scopes && t in st.scopes[s].tasks
      ensures st.places[t].home == Some(s)
    {
      assert MembersAt(st.scopes, st.places, s);
    }
  }

  lemma ForgetKeepsTree(st: State, t: TaskId)
    requires StateOk(st) && t in st.tasks && st.tasks[t].life == Returned
    ensures TreeOk(Forget(st, t).scopes, Forget(st, t).clock)
  {
    DoneIsAtHome(st, t);
    var n := Forget(st, t);
    forall s | s in n.scopes
      ensures OrderedAt(n.scopes, s) && LinkedAt(n.scopes, s)
    {
      assert OrderedAt(st.scopes, s) && LinkedAt(st.scopes, s);
    }
  }

  lemma ForgetKeepsPlaces(st: State, t: TaskId)
    requires StateOk(st) && t in st.tasks && st.tasks[t].life == Returned
    ensures TasksOk(Forget(st, t).scopes, Forget(st, t).places)
    ensures HomeOk(Forget(st, t).scopes, Forget(st, t).places)
  {
    DoneIsAtHome(st, t);
    OnlyRunningHosts(st, t);
    var n := Forget(st, t);
    forall s | s in n.scopes
      ensures MembersAt(n.scopes, n.places, s) && HostAt(n.scopes, n.places, s)
    {
      assert MembersAt(st.scopes, st.places, s) && HostAt(st.scopes, st.places, s);
    }
    forall u | u in n.places
      ensures PlacedAt(n.scopes, n.places, u) && HomeAt(n.scopes, n.places, u)
    {
      assert PlacedAt(st.scopes, st.places, u) && HomeAt(st.scopes, st.places, u);
    }
  }

  lemma ForgetStack(st: State, t: TaskId, s: Option<ScopeId>, h: TaskId)
    requires StateOk(st) && t in st.tasks && st.tasks[t].life == Returned
    ensures Stack(Forget(st, t).scopes, s, h) == Stack(st.scopes, s, h)
  {
    FlagsKeepStack(st.scopes, Forget(st, t).scopes, s, h);
  }

  lemma ForgetKeepsStacks(st: State, t: TaskId)
    requires StateOk(st) && t in st.tasks && st.tasks[t].life == Returned
    ensures StackOk(Forget(st, t).scopes, Forget(st, t).places)
  {
    var n := Forget(st, t);
    forall s | s in n.scopes && n.scopes[s].host.Some? && n.scopes[s].host.value in n.places
      ensures StackAt(n.scopes, n.places, s)
    {
      assert StackAt(st.scopes, st.places, s);
      ForgetStack(st, t, st.places[n.scopes[s].host.value].scope, n.scopes[s].host.value);
    }
  }

  lemma ForgetKeepsCounts(st: State, t: TaskId)
    requires StateOk(st) && t in st.tasks && st.tasks[t].life == Returned
    ensures CountOk(Forget(st, t))
  {
    var n := Forget(st, t);
    forall u | u in n.tasks && u in n.places
      ensures CountsFor(n, u)
    {
      assert CountsFor(st, u);
      ForgetStack(st, t, st.places[u].scope, u);
    }
    forall s, h | s in n.scopes && h in n.tasks && n.scopes[s].host == Some(h)
      ensures MarkFor(n, s, h)
    {
      assert MarkFor(st, s, h);
      ForgetStack(st, t, Up(st.scopes, s), h);
    }
  }

  lemma ForgetKeeps(st: State, t: TaskId)
    requires StateOk(st) && t in st.tasks && st.tasks[t].life == Returned
    ensures StateOk(Forget(st, t))
  {
    var n := Forget(st, t);
    ForgetKeepsTree(st, t);
    ForgetKeepsPlaces(st, t);
    ForgetKeepsStacks(st, t);
    ForgetKeepsCounts(st, t);
    forall s | s in n.scopes
      ensures NewAt(n.scopes, n.calls, s)
    {
      assert NewAt(st.scopes, st.calls, s);
    }
  }

  /** When every task of `n` is where it was and no flag or link has changed, nobody who was
      served is unserved. */
  lemma SameOriginsServe(st: State, n: State)
    requires StateOk(st) && Live(st)
    requires SameChains(st.scopes, n.scopes) && SameFlags(st.scopes, n.scopes)
    requires forall s :: s in st.handles ==> s in n.handles && n.handles[s] == st.handles[s]
    requires forall t :: t in n.places ==>
               if t in st.places then n.places[t] == st.places[t] else n.places[t].scope == None
    ensures Live(n)
  {
    forall t | t in n.places
      ensures Served(n, t)
    {
      if t in st.places {
        assert Served(st, t);
        if st.places[t].scope.Some? {
          PlaceEntered(st, t);
          OriginFrame(st.scopes, n.scopes, st.places[t].scope.value);
        }
      }
    }
  }

  // ----- callbacks -----

  lemma CallbackReady(st: State, h: nat)
    requires StateOk(st) && h in st.ready
    ensures StateOkBut(st.(ready := st.ready - {h}), st.ready[h])
  {
    var n := st.(ready := st.ready - {h});
    CountFrame(st, n);
    forall s | s in n.handles && s != st.ready[h]
      ensures HandleAt(n.handles, n.ready, s)
    {
      assert HandleAt(st.handles, st.ready, s);
    }
  }

  lemma CallbackKeeps(st: State, h: nat)
    requires StateOk(st) && Enabled(st, Callback(h))
    ensures StateOk(Next(st, Callback(h)))
  {
    CallbackReady(st, h);
    DeliverKeeps(st.(ready := st.ready - {h}), st.ready[h]);
  }

  lemma CallbackServes(st: State, h: nat)
    requires StateOk(st) && Live(st) && Enabled(st, Callback(h))
    ensures Live(Next(st, Callback(h)))
  {
    var n := st.(ready := st.ready - {h});
    SameTreeServes(st, n);
    LiveIsLiveBut(n, Some(st.ready[h]));
    DeliverServes(n, st.ready[h]);
  }

  // ----- spawning -----

  /** A spawn is served iff its group is not cancelled or the delivery that will reach the
      group is scheduled. */
  ghost predicate SpawnServed(st: State, g: ScopeId) {
    var o := OriginOf(st.scopes, Some(g));
    o.Some? ==> o.value in st.handles && st.handles[o.value].Some?
  }

  lemma SpawnKeepsOrigins(st: State, g: ScopeId, t: TaskId, s: ScopeId)
    requires StateOk(st) && Enabled(st, SpawnStep(g, t)) && s in st.scopes && 0 < st.scopes[s].order
    ensures s in Spawn(st, g, t).scopes && Origin(Spawn(st, g, t).scopes, s) == Origin(st.scopes, s)
  {
    OriginFrame(st.scopes, Spawn(st, g, t).scopes, s);
  }

  lemma ServedSpawnServes(st: State, g: ScopeId, t: TaskId)
    requires StateOk(st) && Live(st) && Enabled(st, SpawnStep(g, t)) && SpawnServed(st, g)
    ensures Live(Spawn(st, g, t))
  {
    var n := Spawn(st, g, t);
    assert LinkedAt(st.scopes, g) && NewAt(st.scopes, st.calls, g);
    SpawnKeepsOrigins(st, g, t, g);
    forall u | u in n.places
      ensures Served(n, u)
    {
      if u != t {
        assert Served(st, u);
        if st.places[u].scope.Some? {
          PlaceEntered(st, u);
          SpawnKeepsOrigins(st, g, t, st.places[u].scope.value);
        }
      }
    }
  }

  /** `_spawn` does not restart a delivery. It keeps every cancelled task served exactly when
      its group is not cancelled or the group's origin already has a callback scheduled. */
  lemma SpawnStallsUnlessServed(st: State, g: ScopeId, t: TaskId)
    requires StateOk(st) && Live(st) && Enabled(st, SpawnStep(g, t))
    ensures Live(Next(st, SpawnStep(g, t))) <==> SpawnServed(st, g)
  {
    if SpawnServed(st, g) {
      ServedSpawnServes(st, g, t);
    } else {
      assert LinkedAt(st.scopes, g) && NewAt(st.scopes, st.calls, g);
      SpawnKeepsOrigins(st, g, t, g);
      assert !Served(Spawn(st, g, t), t);
    }
  }

  // ----- every step -----

  lemma StepKeeps(st: State, step: Step)
    requires StateOk(st) && Enabled(st, step)
    ensures StateOk(Next(st, step))
  {
    match step
    case NewScope(s, shield) => NewScopeKeeps(st, s, shield);
    case NewTask(t) => NewTaskKeeps(st, t);
    case EnterStep(s, expired) => EnterKeeps(st, s, st.current.value, expired);
    case ExitStep(s) => ExitKeeps(st, s, st.current.value);
    case CancelStep(s) => CancelKeeps(st, s);
    case ShieldStep(s, v) => ShieldKeeps(st, s, v);
    case Callback(h) => CallbackKeeps(st, h);
    case SpawnStep(g, t) => SpawnKeeps(st, g, t);
    case NativeCancel(t) => NativeKeeps(st, t);
    case Resume(t) => ResumeKeeps(st, t);
    case Block(onFuture) => BlockKeeps(st, onFuture);
    case Complete(t) => CompleteKeeps(st, t);
    case Return => ReturnKeeps(st);
    case Done(t) => ForgetKeeps(st, t);
  }

  lemma NewScopeServes(st: State, s: ScopeId, shield: bool)
    requires StateOk(st) && Live(st) && s !in st.scopes
    ensures Live(Next(st, NewScope(s, shield)))
  {
    SameOriginsServe(st, Next(st, NewScope(s, shield)));
  }

  lemma NewTaskServes(st: State, t: TaskId)
    requires StateOk(st) && Live(st) && t !in st.tasks
    ensures Live(Next(st, NewTask(t)))
  {
    SameOriginsServe(st, Next(st, NewTask(t)));
  }

  lemma DoneServes(st: State, t: TaskId)
    requires StateOk(st) && Live(st) && t in st.tasks
    ensures Live(Forget(st, t))
  {
    SameOriginsServe(st, Forget(st, t));
  }

  lemma StepServes(st: State, step: Step)
    requires StateOk(st) && Live(st) && Enabled(st, step)
    requires step.SpawnStep? ==> SpawnServed(st, step.g)
    ensures Live(Next(st, step))
  {
    match step
    case EnterStep(s, expired) => EnterServes(st, s, st.current.value, expired);
    case ExitStep(s) => ExitServes(st, s, st.current.value);
    case CancelStep(s) =>
      if !st.scopes[s].cancelCalled {
        LiveIsLiveBut(st, Some(s));
        CancelServes(st, s);
      }
    case ShieldStep(s, v) => ShieldServes(st, s, v);
    case Callback(h) => CallbackServes(st, h);
    case SpawnStep(g, t) => SpawnStallsUnlessServed(st, g, t);
    case NewScope(s, shield) => NewScopeServes(st, s, shield);
    case NewTask(t) => NewTaskServes(st, t);
    case Done(t) => DoneServes(st, t);
    case _ => SameTreeServes(st, Next(st, step));
  }

  // ----- runs -----

  /** `steps` is a run of a structured program from `st`. */
  ghost predicate Runs(st: State, steps: seq<Step>)
    decreases |steps|
  {
    steps == [] ||
    (KeysOk(st) && Enabled(st, steps[0]) && Runs(Next(st, steps[0]), steps[1..]))
  }

  ghost function After(st: State, steps: seq<Step>): State
    requires Runs(st, steps)
    decreases |steps|
  {
    if steps == [] then st else After(Next(st, steps[0]), steps[1..])
  }

  /** In no state of the run does a spawn go to a cancelled group that no scheduled delivery
      will reach. */
  ghost predicate SpawnsServed(st: State, steps: seq<Step>)
    requires Runs(st, steps)
    decreases |steps|
  {
    steps == [] ||
    (&& (steps[0].SpawnStep? ==> SpawnServed(st, steps[0].g))
     && SpawnsServed(Next(st, steps[0]), steps[1..]))
  }

  lemma InitialOk()
    ensures StateOk(INITIAL) && Live(INITIAL)
  {
  }

  lemma {:induction false} RunKeeps(st: State, steps: seq<Step>)
    requires StateOk(st) && Runs(st, steps)
    ensures StateOk(After(st, steps))
    ensures Live(st) && SpawnsServed(st, steps) ==> Live(After(st, steps))
    decreases |steps|
  {
    if steps != [] {
      StepKeeps(st, steps[0]);
      if Live(st) && SpawnsServed(st, steps) {
        StepServes(st, steps[0]);
      }
      RunKeeps(Next(st, steps[0]), steps[1..]);
    }
  }
}
