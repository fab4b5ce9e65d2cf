/** The main results about cancel scopes, for every state that a run can reach. */
module CancelTheorems {
  import opened Wrappers
  import opened ScopeTree
  import opened Tasks
  import opened CancelState
  import opened CancelSteps
  import opened CancelExit
  import opened CancelRuns

  /** `st` is a state of some run of a structured program. */
  ghost predicate Reachable(st: State) {
    exists steps :: Runs(INITIAL, steps) && After(INITIAL, steps) == st
  }

  lemma ReachableOk(st: State)
    requires Reachable(st)
    ensures StateOk(st)
  {
    var steps :| Runs(INITIAL, steps) && After(INITIAL, steps) == st;
    InitialOk();
    RunKeeps(INITIAL, steps);
  }

  // ----- delivery -----

  /** A delivery that still has a task to meet never stalls: its callback is scheduled. */
  lemma DeliveryNeverStalls(steps: seq<Step>, s: ScopeId)
    requires Runs(INITIAL, steps) && SpawnsServed(INITIAL, steps)
    requires var st := After(INITIAL, steps);
             s in st.scopes && st.scopes[s].cancelCalled && ReachedTasks(st.scopes, st.clock, s) != {}
    ensures var st := After(INITIAL, steps);
            && s in st.handles && st.handles[s].Some?
            && st.handles[s].value in st.ready && st.ready[st.handles[s].value] == s
  {
    var st := After(INITIAL, steps);
    InitialOk();
    RunKeeps(INITIAL, steps);
    var x, t :| x in Region(st.scopes, st.clock, s) && t in st.scopes[x].tasks;
    VisitedHasOrigin(st.scopes, st.clock, x, s);
    assert MembersAt(st.scopes, st.places, x) && Served(st, t);
    assert HandleAt(st.handles, st.ready, s);
  }

  /** After a delivery every task it reached is about to see a cancellation, unless it has an
      undelivered result, is the one that runs, or has no code to run. */
  lemma DeliveryStrikes(st: State, s: ScopeId, t: TaskId)
    requires StateOk(st) && s in st.scopes && t in ReachedTasks(st.scopes, st.clock, s)
    ensures var n := Deliver(st, s);
            t in n.tasks &&
            (|| n.tasks[t].mustCancel
             || n.tasks[t].waiter in {HasResult, WaiterCancelled}
             || n.current == Some(t)
             || n.tasks[t].life != Running)
  {
    var x :| x in Region(st.scopes, st.clock, s) && t in st.scopes[x].tasks;
    assert MembersAt(st.scopes, st.places, x);
    assert t in st.places && t in st.tasks;
    assert st.tasks[t].waiter.NoWaiter? || st.tasks[t].waiter.Pending?
        || st.tasks[t].waiter.HasResult? || st.tasks[t].waiter.WaiterCancelled?;
  }

  /** To a task that is not running, a delivery does nothing or one `Delivered`, which leaves a
      task alone whose awaited future is already done; it does the latter to every running
      coroutine that it reaches. */
  lemma DeliveryIsDelivered(st: State, s: ScopeId, t: TaskId)
    requires s in st.scopes && s in st.calls && t in st.tasks && st.current != Some(t)
    ensures t in Deliver(st, s).tasks
    ensures var task := Deliver(st, s).tasks[t].(foreign := st.tasks[t].foreign);
            && (task == st.tasks[t] || task == Delivered(st.tasks[t]))
            && (t in ReachedTasks(st.scopes, st.clock, s) && st.tasks[t].life == Running ==>
                  task == Delivered(st.tasks[t]))
    ensures st.tasks[t].waiter in {HasResult, WaiterCancelled} ==>
              Deliver(st, s).tasks[t] == st.tasks[t]
  {
  }

  // ----- a spawn that stalls -----

  /** The steps lead from `st` to `end`. */
  ghost predicate Leads(st: State, steps: seq<Step>, end: State) {
    Runs(st, steps) && After(st, steps) == end
  }

  lemma LeadsBack(st: State, step: Step, steps: seq<Step>, end: State)
    requires KeysOk(st) && Enabled(st, step) && Leads(Next(st, step), steps, end)
    ensures Leads(st, [step] + steps, end)
  {
    assert ([step] + steps)[1..] == steps;
  }

  /** Task 0 hosts scope 0 and, inside it, the shielded scope 1. */
  const SHIELDED := State(
    map[0 := Scope(None, {1}, {}, Some(0), true, false, false, 0, 1),
        1 := Scope(Some(0), {}, {0}, Some(0), true, true, false, 0, 2)],
    map[0 := Place(Some(1), None)],
    map[0 := Task(Running, NoWaiter, false, 0, 0, 0)],
    map[0 := 0, 1 := 0], map[0 := None, 1 := None], map[], 0, 3, Some(0))

  const BEFORE_SHIELD := State(
    map[0 := Scope(None, {}, {0}, Some(0), true, false, false, 0, 1),
        1 := Scope(None, {}, {}, None, false, true, false, 0, 0)],
    map[0 := Place(Some(0), None)],
    map[0 := Task(Running, NoWaiter, false, 0, 0, 0)],
    map[0 := 0, 1 := 0], map[0 := None, 1 := None], map[], 0, 2, Some(0))

  const BEFORE_SCOPES := State(
    map[0 := Scope(None, {}, {}, None, false, false, false, 0, 0),
        1 := Scope(None, {}, {}, None, false, true, false, 0, 0)],
    map[0 := Place(None, None)],
    map[0 := Task(Running, NoWaiter, false, 0, 0, 0)],
    map[0 := 0, 1 := 0], map[0 := None, 1 := None], map[], 0, 1, Some(0))

  lemma ToBeforeScopes() returns (steps: seq<Step>)
    ensures Leads(INITIAL, steps, BEFORE_SCOPES)
  {
    var s1 := Next(INITIAL, NewTask(0));
    var s2 := Next(s1, NewScope(0, false));
    var s3 := Next(s2, NewScope(1, true));
    assert Next(s3, Resume(0)) == BEFORE_SCOPES;
    LeadsBack(s3, Resume(0), [], BEFORE_SCOPES);
    LeadsBack(s2, NewScope(1, true), [Resume(0)] + [], BEFORE_SCOPES);
    steps := [NewScope(1, true)] + ([Resume(0)] + []);
    LeadsBack(s1, NewScope(0, false), steps, BEFORE_SCOPES);
    steps := [NewScope(0, false)] + steps;
    LeadsBack(INITIAL, NewTask(0), steps, BEFORE_SCOPES);
    steps := [NewTask(0)] + steps;
  }

  lemma EnterOuter()
    ensures KeysOk(BEFORE_SCOPES) && Enabled(BEFORE_SCOPES, EnterStep(0, false))
    ensures Next(BEFORE_SCOPES, EnterStep(0, false)) == BEFORE_SHIELD
  {
    assert Link(BEFORE_SCOPES, 0, 0).scopes[0].tasks == {0};
    assert Link(BEFORE_SCOPES, 0, 0).scopes == BEFORE_SHIELD.scopes;
    assert Link(BEFORE_SCOPES, 0, 0).places == BEFORE_SHIELD.places;
  }

  lemma EnterInner()
    ensures KeysOk(BEFORE_SHIELD) && Enabled(BEFORE_SHIELD, EnterStep(1, false))
    ensures Next(BEFORE_SHIELD, EnterStep(1, false)) == SHIELDED
  {
    assert Link(BEFORE_SHIELD, 1, 0).scopes[0].children == {1};
    assert Link(BEFORE_SHIELD, 1, 0).scopes[0].tasks == {};
    assert Link(BEFORE_SHIELD, 1, 0).scopes[1].tasks == {0};
    assert Link(BEFORE_SHIELD, 1, 0).scopes == SHIELDED.scopes;
    assert Link(BEFORE_SHIELD, 1, 0).places == SHIELDED.places;
  }

  lemma ToShielded(steps: seq<Step>, end: State)
    requires Leads(SHIELDED, steps, end)
    ensures Leads(BEFORE_SCOPES, [EnterStep(0, false)] + ([EnterStep(1, false)] + steps), end)
  {
    EnterInner();
    LeadsBack(BEFORE_SHIELD, EnterStep(1, false), steps, end);
    EnterOuter();
    LeadsBack(BEFORE_SCOPES, EnterStep(0, false), [EnterStep(1, false)] + steps, end);
  }

  lemma SplitFirst(first: seq<Step>, rest: seq<Step>)
    ensures first == [] ==> first + rest == rest
    ensures first != [] ==> [first[0]] + (first[1..] + rest) == first + rest
  {
  }

  lemma {:induction false} LeadsOn(st: State, first: seq<Step>, mid: State, rest: seq<Step>, end: State)
    requires Leads(st, first, mid) && Leads(mid, rest, end)
    ensures Leads(st, first + rest, end)
    decreases |first|
  {
    SplitFirst(first, rest);
    if first != [] {
      LeadsOn(Next(st, first[0]), first[1..], mid, rest, end);
      LeadsBack(st, first[0], first[1..] + rest, end);
    }
  }

  /** Cancelling the group finds nobody, so nothing is scheduled. */
  lemma CancelFindsNobody()
    ensures KeysOk(SHIELDED) && Enabled(SHIELDED, CancelStep(0))
    ensures Next(SHIELDED, CancelStep(0)) == Flagged(SHIELDED, 0)
  {
    var f := Flagged(SHIELDED, 0);
    assert Kids(f.scopes, f.clock, 0) == {};
    assert Region(f.scopes, f.clock, 0) == {0};
    assert ReachedTasks(f.scopes, f.clock, 0) == {};
    assert StrikeAll(f, 0, {}) == f;
    assert Reschedule(f, 0, false) == f;
  }

  /** The group is cancelled and a task is spawned into it. */
  lemma SpawnIntoCancelled() returns (end: State)
    ensures Leads(SHIELDED, [CancelStep(0)] + ([SpawnStep(0, 1)] + []), end)
    ensures 1 in end.places && IsCancelled(end.scopes, end.places[1].scope) && !Served(end, 1)
  {
    CancelFindsNobody();
    var f := Flagged(SHIELDED, 0);
    end := Next(f, SpawnStep(0, 1));
    LeadsBack(f, SpawnStep(0, 1), [], end);
    LeadsBack(SHIELDED, CancelStep(0), [SpawnStep(0, 1)] + [], end);
    assert Origin(end.scopes, 0) == Some(0);
  }

  /** A spawn can stall: a group is cancelled while its host sits in a shielded scope, so the
      delivery finds nobody and stops; a task spawned then is cancelled but not served. */
  lemma SpawnCanStall() returns (steps: seq<Step>, t: TaskId)
    ensures Runs(INITIAL, steps)
    ensures var st := After(INITIAL, steps);
            t in st.places && IsCancelled(st.scopes, st.places[t].scope) && !Served(st, t)
  {
    var end := SpawnIntoCancelled();
    var last := [CancelStep(0)] + ([SpawnStep(0, 1)] + []);
    ToShielded(last, end);
    var first := ToBeforeScopes();
    steps := first + ([EnterStep(0, false)] + ([EnterStep(1, false)] + last));
    LeadsOn(INITIAL, first, BEFORE_SCOPES, [EnterStep(0, false)] + ([EnterStep(1, false)] + last), end);
    t := 1;
  }

  // ----- the two walks -----

  /** In a reachable state an active scope is effectively cancelled iff exactly one cancelled
      scope's delivery visits it. */
  lemma ExactlyOneDelivery(st: State, s: ScopeId)
    requires Reachable(st) && s in st.scopes && st.scopes[s].active
    ensures EffectivelyCancelled(st.scopes, s) <==>
            exists o :: o in st.scopes && st.scopes[o].cancelCalled && s in Region(st.scopes, st.clock, o)
    ensures forall o, q ::
              && o in st.scopes && st.scopes[o].cancelCalled && s in Region(st.scopes, st.clock, o)
              && q in st.scopes && st.scopes[q].cancelCalled && s in Region(st.scopes, st.clock, q)
              ==> o == q
  {
    ReachableOk(st);
    TopDownIsBottomUp(st.scopes, st.clock, s);
  }

  // ----- counting -----

  /** The stack of a task is exactly the set of active scopes that it hosts, without
      repetition. */
  lemma StackIsHosted(st: State, t: TaskId, s: ScopeId)
    requires Reachable(st) && t in st.tasks && s in st.scopes
    ensures t in st.places
    ensures var stack := Stack(st.scopes, st.places[t].scope, t);
            && Distinct(stack)
            && (s in stack <==> st.scopes[s].active && st.scopes[s].host == Some(t))
  {
    ReachableOk(st);
    StackDistinct(st.scopes, st.places[t].scope, t);
    assert StackAt(st.scopes, st.places, s) && LinkedAt(st.scopes, s);
  }

  /** `cancelling()` is native cancels, plus deliveries from scopes the task does not host,
      plus the calls counted by the active scopes it does host. */
  lemma CountingTheorem(st: State, t: TaskId)
    requires Reachable(st) && t in st.tasks
    ensures t in st.places
    ensures st.tasks[t].requests ==
            st.tasks[t].native + st.tasks[t].foreign
            + Sum(st.calls, Stack(st.scopes, st.places[t].scope, t))
  {
    ReachableOk(st);
    assert CountsFor(st, t);
  }

  /** Leaving a scope takes its own share off `cancelling()` and nothing else. */
  lemma ExitTheorem(st: State, s: ScopeId)
    requires Reachable(st) && Enabled(st, ExitStep(s))
    ensures KeysOk(st)
    ensures var t := st.current.value;
            var n := Next(st, ExitStep(s));
            && n.calls[s] == 0
            && n.tasks[t].requests == st.tasks[t].requests - st.calls[s]
            && n.tasks[t].native == st.tasks[t].native
            && n.tasks[t].requests >= n.tasks[t].native
  {
    ReachableOk(st);
    var t := st.current.value;
    ExitGivesBackOwnShare(st, s, t);
    RestartSparesCurrent(Unlink(st, s, t), st.scopes[s].parent, t);
  }

  // ----- bookkeeping -----

  /** A scope is in its parent's child set iff it is active, and each task that has a current
      scope is in the task set of that scope and of no other. */
  lemma Bookkeeping(st: State, s: ScopeId, t: TaskId)
    requires Reachable(st) && s in st.scopes && t in st.places
    ensures st.scopes[s].parent.Some? ==>
              && st.scopes[s].parent.value in st.scopes
              && (s in st.scopes[st.scopes[s].parent.value].children <==> st.scopes[s].active)
              && st.scopes[st.scopes[s].parent.value].order < st.scopes[s].order
    ensures t in st.scopes[s].tasks <==> st.places[t].scope == Some(s)
  {
    ReachableOk(st);
    assert OrderedAt(st.scopes, s) && LinkedAt(st.scopes, s);
    if st.scopes[s].parent.Some? {
      assert LinkedAt(st.scopes, st.scopes[s].parent.value);
    }
    assert MembersAt(st.scopes, st.places, s) && PlacedAt(st.scopes, st.places, t);
  }

  /** The `set.remove` calls of `__enter__`, `__exit__` and `task_done`, and the two asserts
      of `task_done`, never fail. */
  lemma RemovalsSucceed(st: State)
    requires Reachable(st)
    ensures st.current.Some? ==> st.current.value in st.places
    ensures forall s :: Enabled(st, EnterStep(s, false)) ==>
              var p := st.places[st.current.value].scope;
              p.Some? ==> p.value in st.scopes && st.current.value in st.scopes[p.value].tasks
    ensures forall s :: Enabled(st, ExitStep(s)) ==>
              && st.current.value in st.scopes[s].tasks
              && (st.scopes[s].parent.Some? ==>
                    st.scopes[s].parent.value in st.scopes
                    && s in st.scopes[st.scopes[s].parent.value].children)
    ensures forall t :: Enabled(st, Done(t)) ==>
              t in st.places &&
              var g := st.places[t].home;
              g.Some? ==> st.places[t].scope == g && g.value in st.scopes && t in st.scopes[g.value].tasks
  {
    ReachableOk(st);
    if st.current.Some? {
      assert PlacedAt(st.scopes, st.places, st.current.value);
    }
    forall s | Enabled(st, ExitStep(s))
      ensures st.current.value in st.scopes[s].tasks
      ensures st.scopes[s].parent.Some? ==>
                st.scopes[s].parent.value in st.scopes
                && s in st.scopes[st.scopes[s].parent.value].children
    {
      assert OrderedAt(st.scopes, s) && LinkedAt(st.scopes, s);
    }
    forall t | Enabled(st, Done(t))
      ensures t in st.places
      ensures var g := st.places[t].home;
              g.Some? ==> st.places[t].scope == g && g.value in st.scopes && t in st.scopes[g.value].tasks
    {
      DoneIsAtHome(st, t);
    }
  }
}
