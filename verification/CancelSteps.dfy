/** What the steps of the event loop keep. */
module CancelSteps {
  import opened Wrappers
  import opened ScopeTree
  import opened Tasks
  import opened CancelState

  // ----- deliveries keep the invariants -----

  ghost predicate Distinct(stack: seq<ScopeId>) {
    forall i, j :: 0 <= i < j < |stack| ==> stack[i] != stack[j]
  }

  lemma {:induction false} StackDistinct(m: Scopes, s: Option<ScopeId>, t: TaskId)
    ensures Distinct(Stack(m, s, t))
    decreases if s.Some? && s.value in m then m[s.value].order + 1 else 0
  {
    if s.Some? && s.value in m && m[s.value].host == Some(t) {
      var up := Up(m, s.value);
      var rest := Stack(m, up, t);
      StackDistinct(m, up, t);
      forall i | 0 <= i < |rest|
        ensures rest[i] != s.value
      {
        StackIsBelow(m, up.value, t, rest[i]);
      }
    }
  }

  lemma {:induction false} SumUpdate(calls: map<ScopeId, nat>, stack: seq<ScopeId>, o: ScopeId, n: nat)
    requires o in calls && Distinct(stack)
    ensures Sum(calls[o := n], stack) ==
            if o in stack then Sum(calls, stack) - calls[o] + n else Sum(calls, stack)
  {
    if stack != [] {
      SumUpdate(calls, stack[1..], o, n);
    }
  }

  /** Whether a delivery for `o` strikes the host of `o`. */
  ghost predicate StrikesHost(st: State, o: ScopeId, met: set<TaskId>)
    requires o in st.scopes
  {
    var host := st.scopes[o].host;
    host.Some? && host.value in met && Eligible(st, host.value)
  }

  lemma HostedAfterStrike(st: State, o: ScopeId, met: set<TaskId>, s: Option<ScopeId>, t: TaskId)
    requires o in st.scopes && o in st.calls
    ensures HostedCalls(StrikeAll(st, o, met), s, t) == HostedCalls(st, s, t)
              + if StrikesHost(st, o, met) && o in Stack(st.scopes, s, t) then 1 else 0
  {
    var stack := Stack(st.scopes, s, t);
    StackDistinct(st.scopes, s, t);
    SumUpdate(st.calls, stack, o, st.calls[o] + 1);
  }

  lemma StrikeKeepsCountsFor(st: State, o: ScopeId, met: set<TaskId>, t: TaskId)
    requires o in st.scopes && o in st.calls && t in st.tasks && t in st.places
    requires StackOk(st.scopes, st.places) && CountsFor(st, t)
    ensures CountsFor(StrikeAll(st, o, met), t)
  {
    assert StackAt(st.scopes, st.places, o);
    HostedAfterStrike(st, o, met, st.places[t].scope, t);
  }

  lemma StrikeKeepsMarkFor(st: State, o: ScopeId, met: set<TaskId>, s: ScopeId, h: TaskId)
    requires o in st.scopes && o in st.calls && s in st.scopes && h in st.tasks
    requires MarkFor(st, s, h)
    ensures MarkFor(StrikeAll(st, o, met), s, h)
  {
    HostedAfterStrike(st, o, met, Up(st.scopes, s), h);
  }

  lemma StrikeKeepsCounts(st: State, o: ScopeId, met: set<TaskId>)
    requires o in st.scopes && o in st.calls
    requires StackOk(st.scopes, st.places) && CountOk(st)
    ensures CountOk(StrikeAll(st, o, met))
  {
    var n := StrikeAll(st, o, met);
    forall t | t in n.tasks && t in n.places
      ensures CountsFor(n, t)
    {
      StrikeKeepsCountsFor(st, o, met, t);
    }
    forall s, h | s in n.scopes && h in n.tasks && n.scopes[s].host == Some(h)
      ensures MarkFor(n, s, h)
    {
      StrikeKeepsMarkFor(st, o, met, s, h);
    }
  }

  /** Rescheduling touches no field that the counters depend on. */
  lemma CountFrame(st: State, n: State)
    requires n.scopes == st.scopes && n.places == st.places && n.tasks == st.tasks
    requires n.calls == st.calls && CountOk(st)
    ensures CountOk(n)
  {
    forall t | t in n.tasks && t in n.places
      ensures CountsFor(n, t)
    {
      assert CountsFor(st, t);
    }
    forall s, h | s in n.scopes && h in n.tasks && n.scopes[s].host == Some(h)
      ensures MarkFor(n, s, h)
    {
      assert MarkFor(st, s, h);
    }
  }

  lemma StrikeKeepsKeys(st: State, o: ScopeId, met: set<TaskId>)
    requires KeysOk(st) && HostsRun(st.scopes, st.tasks) && o in st.scopes
    ensures KeysOk(StrikeAll(st, o, met))
    ensures HostsRun(st.scopes, StrikeAll(st, o, met).tasks)
  {
    var n := StrikeAll(st, o, met);
    forall s | s in n.scopes
      ensures NewAt(n.scopes, n.calls, s)
    {
      assert NewAt(st.scopes, st.calls, s);
    }
  }

  /** `HandlesOk`, except that the handle of `o` may be stale. */
  ghost predicate HandlesOkBut(handles: map<ScopeId, Option<nat>>, ready: map<nat, ScopeId>, o: ScopeId) {
    forall s {:trigger HandleAt(handles, ready, s)} ::
      s in handles && s != o ==> HandleAt(handles, ready, s)
  }

  ghost predicate StateOkBut(st: State, o: ScopeId) {
    && KeysOk(st) && Structure(st) && HostsRun(st.scopes, st.tasks) && CountOk(st)
    && HandlesOkBut(st.handles, st.ready, o)
  }

  lemma RescheduleKeeps(st: State, o: ScopeId, retry: bool)
    requires KeysOk(st) && HandlesOkBut(st.handles, st.ready, o) && o in st.scopes
    ensures var n := Reschedule(st, o, retry); KeysOk(n) && HandlesOk(n.handles, n.ready)
  {
    var n := Reschedule(st, o, retry);
    forall s | s in n.handles
      ensures HandleAt(n.handles, n.ready, s)
    {
      if s != o {
        assert HandleAt(st.handles, st.ready, s);
      }
    }
  }

  lemma DeliverKeeps(st: State, o: ScopeId)
    requires StateOkBut(st, o) && o in st.scopes
    ensures StateOk(Deliver(st, o))
  {
    var met := ReachedTasks(st.scopes, st.clock, o);
    var hit := StrikeAll(st, o, met);
    StrikeKeepsCounts(st, o, met);
    StrikeKeepsKeys(st, o, met);
    RescheduleKeeps(hit, o, met != {});
    CountFrame(hit, Deliver(st, o));
  }

  // ----- deliveries and liveness -----

  /** Every cancelled task is served, except perhaps those whose origin is `o`. */
  ghost predicate LiveBut(st: State, o: Option<ScopeId>) {
    forall t {:trigger Served(st, t)} :: t in st.places ==>
      Served(st, t) || OriginOf(st.scopes, st.places[t].scope) == o
  }

  lemma OriginReaches(st: State, t: TaskId, o: ScopeId)
    requires TreeOk(st.scopes, st.clock) && TasksOk(st.scopes, st.places)
    requires t in st.places && OriginOf(st.scopes, st.places[t].scope) == Some(o)
    ensures t in ReachedTasks(st.scopes, st.clock, o)
  {
    var s := st.places[t].scope.value;
    assert PlacedAt(st.scopes, st.places, t);
    OriginVisits(st.scopes, st.clock, s, o);
    assert s in Region(st.scopes, st.clock, o) && t in st.scopes[s].tasks;
  }

  lemma DeliverServes(st: State, o: ScopeId)
    requires TreeOk(st.scopes, st.clock) && TasksOk(st.scopes, st.places)
    requires o in st.scopes && o in st.calls && o in st.handles
    requires LiveBut(st, Some(o))
    ensures Live(Deliver(st, o))
  {
    var n := Deliver(st, o);
    forall t | t in n.places
      ensures Served(n, t)
    {
      assert Served(st, t) || OriginOf(st.scopes, st.places[t].scope) == Some(o);
      if OriginOf(st.scopes, st.places[t].scope) == Some(o) {
        OriginReaches(st, t, o);
      }
    }
  }

  lemma RestartKeeps(st: State, p: Option<ScopeId>)
    requires StateOk(st)
    ensures StateOk(Restart(st, p))
  {
    var o := OriginOf(st.scopes, p);
    if o.Some? && st.handles[o.value].None? {
      DeliverKeeps(st, o.value);
    }
  }

  lemma RestartServes(st: State, p: Option<ScopeId>)
    requires KeysOk(st) && TreeOk(st.scopes, st.clock) && TasksOk(st.scopes, st.places)
    requires LiveBut(st, OriginOf(st.scopes, p))
    ensures Live(Restart(st, p))
  {
    var o := OriginOf(st.scopes, p);
    if o.Some? && st.handles[o.value].None? {
      DeliverServes(st, o.value);
    } else {
      forall t | t in st.places
        ensures Served(st, t)
      {
        assert Served(st, t) || OriginOf(st.scopes, st.places[t].scope) == o;
      }
    }
  }

  // ----- cancelling and shielding -----

  /** `n` is `st` with other cancel and shield flags. */
  ghost predicate OnlyFlags(st: State, n: State) {
    && n == st.(scopes := n.scopes)
    && n.scopes.Keys == st.scopes.Keys
    && forall s :: s in st.scopes ==>
         n.scopes[s] == st.scopes[s].(shield := n.scopes[s].shield,
                                      cancelCalled := n.scopes[s].cancelCalled)
  }

  lemma {:induction false} FlagsKeepStack(m: Scopes, n: Scopes, s: Option<ScopeId>, t: TaskId)
    requires n.Keys == m.Keys
    requires forall x :: x in m ==>
               n[x].parent == m[x].parent && n[x].order == m[x].order && n[x].host == m[x].host
    ensures Stack(n, s, t) == Stack(m, s, t)
    decreases if s.Some? && s.value in m then m[s.value].order + 1 else 0
  {
    if s.Some? && s.value in m {
      FlagsKeepStack(m, n, Up(m, s.value), t);
    }
  }

  lemma FlagsKeepCounts(st: State, n: State)
    requires OnlyFlags(st, n) && CountOk(st)
    ensures CountOk(n)
  {
    forall t | t in n.tasks && t in n.places
      ensures CountsFor(n, t)
    {
      FlagsKeepStack(st.scopes, n.scopes, st.places[t].scope, t);
      assert CountsFor(st, t);
    }
    forall s, h | s in n.scopes && h in n.tasks && n.scopes[s].host == Some(h)
      ensures MarkFor(n, s, h)
    {
      FlagsKeepStack(st.scopes, n.scopes, Up(st.scopes, s), h);
      assert MarkFor(st, s, h);
    }
  }

  lemma FlagsKeepTree(st: State, n: State)
    requires OnlyFlags(st, n) && TreeOk(st.scopes, st.clock)
    ensures TreeOk(n.scopes, n.clock)
  {
    forall s | s in n.scopes
      ensures OrderedAt(n.scopes, s) && LinkedAt(n.scopes, s)
    {
      assert OrderedAt(st.scopes, s) && LinkedAt(st.scopes, s);
    }
  }

  lemma FlagsKeepTasks(st: State, n: State)
    requires OnlyFlags(st, n) && TasksOk(st.scopes, st.places)
    ensures TasksOk(n.scopes, n.places)
  {
    forall s | s in n.scopes
      ensures MembersAt(n.scopes, n.places, s)
    {
      assert MembersAt(st.scopes, st.places, s);
    }
    forall t | t in n.places
      ensures PlacedAt(n.scopes, n.places, t)
    {
      assert PlacedAt(st.scopes, st.places, t);
    }
  }

  lemma FlagsKeepHomes(st: State, n: State)
    requires OnlyFlags(st, n) && HomeOk(st.scopes, st.places) && StackOk(st.scopes, st.places)
    ensures HomeOk(n.scopes, n.places) && StackOk(n.scopes, n.places)
  {
    var m, places := n.scopes, n.places;
    forall s | s in m
      ensures HostAt(m, places, s) && StackAt(m, places, s)
    {
      assert HostAt(st.scopes, places, s) && StackAt(st.scopes, places, s);
      if m[s].host.Some? && m[s].host.value in places {
        FlagsKeepStack(st.scopes, m, places[m[s].host.value].scope, m[s].host.value);
      }
    }
    forall t | t in places
      ensures HomeAt(m, places, t)
    {
      assert HomeAt(st.scopes, places, t);
    }
  }

  lemma FlagsKeepKeys(st: State, n: State)
    requires OnlyFlags(st, n) && KeysOk(st) && HostsRun(st.scopes, st.tasks)
    ensures KeysOk(n) && HostsRun(n.scopes, n.tasks)
  {
    forall s | s in n.scopes
      ensures NewAt(n.scopes, n.calls, s)
    {
      assert NewAt(st.scopes, st.calls, s);
    }
  }

  lemma FlagsKeep(st: State, n: State)
    requires OnlyFlags(st, n) && StateOk(st)
    ensures StateOk(n)
  {
    FlagsKeepCounts(st, n);
    FlagsKeepTree(st, n);
    FlagsKeepTasks(st, n);
    FlagsKeepHomes(st, n);
    FlagsKeepKeys(st, n);
  }

  function Flagged(st: State, s: ScopeId): State
    requires s in st.scopes
  {
    st.(scopes := st.scopes[s := st.scopes[s].(cancelCalled := true)])
  }

  lemma CancelKeeps(st: State, s: ScopeId)
    requires StateOk(st) && s in st.scopes
    ensures StateOk(CancelCall(st, s))
  {
    if !st.scopes[s].cancelCalled {
      FlagsKeep(st, Flagged(st, s));
      if st.scopes[s].host.Some? {
        DeliverKeeps(Flagged(st, s), s);
      }
    }
  }

  lemma OriginInTree(st: State, t: TaskId)
    requires TasksOk(st.scopes, st.places) && t in st.places && st.places[t].scope.Some?
    ensures st.places[t].scope.value in st.scopes
    ensures st.scopes[st.places[t].scope.value].active
  {
    assert PlacedAt(st.scopes, st.places, t);
  }

  lemma FlaggedLive(st: State, s: ScopeId, t: TaskId)
    requires Ordered(st.scopes) && TasksOk(st.scopes, st.places)
    requires s in st.scopes && t in st.places
    requires Served(st, t) || OriginOf(st.scopes, st.places[t].scope) == Some(s)
    ensures Served(Flagged(st, s), t)
         || OriginOf(Flagged(st, s).scopes, st.places[t].scope) == Some(s)
  {
    if st.places[t].scope.Some? {
      OriginInTree(st, t);
      OriginAfterCancel(st.scopes, s, st.places[t].scope.value);
    }
  }

  lemma InactiveIsNoOrigin(st: State, s: ScopeId, t: TaskId)
    requires TreeOk(st.scopes, st.clock) && TasksOk(st.scopes, st.places)
    requires s in st.scopes && st.scopes[s].host == None && t in st.places
    ensures OriginOf(st.scopes, st.places[t].scope) != Some(s)
  {
    assert LinkedAt(st.scopes, s);
    if OriginOf(st.scopes, st.places[t].scope) == Some(s) {
      OriginInTree(st, t);
      OriginIsActive(st.scopes, st.places[t].scope.value);
    }
  }

  /** `cancel()` serves everyone it newly cancels. */
  lemma CancelServes(st: State, s: ScopeId)
    requires StateOk(st) && s in st.scopes && !st.scopes[s].cancelCalled
    requires LiveBut(st, Some(s))
    ensures Live(CancelCall(st, s))
  {
    var n := Flagged(st, s);
    FlagsKeep(st, n);
    assert LiveBut(n, Some(s)) by {
      forall t | t in n.places
        ensures Served(n, t) || OriginOf(n.scopes, n.places[t].scope) == Some(s)
      {
        assert Served(st, t) || OriginOf(st.scopes, st.places[t].scope) == Some(s);
        FlaggedLive(st, s, t);
      }
    }
    if st.scopes[s].host.Some? {
      DeliverServes(n, s);
    } else {
      forall t | t in n.places
        ensures Served(n, t)
      {
        assert Served(n, t) || OriginOf(n.scopes, n.places[t].scope) == Some(s);
        InactiveIsNoOrigin(n, s, t);
      }
    }
  }

  function Flipped(st: State, s: ScopeId, v: bool): State
    requires s in st.scopes
  {
    st.(scopes := st.scopes[s := st.scopes[s].(shield := v)])
  }

  lemma ShieldKeeps(st: State, s: ScopeId, v: bool)
    requires StateOk(st) && s in st.scopes
    ensures StateOk(SetShield(st, s, v))
  {
    if st.scopes[s].shield != v {
      FlagsKeep(st, Flipped(st, s, v));
      RestartKeeps(Flipped(st, s, v), st.scopes[s].parent);
    }
  }

  lemma FlippedLive(st: State, s: ScopeId, v: bool, t: TaskId)
    requires Ordered(st.scopes) && TasksOk(st.scopes, st.places)
    requires s in st.scopes && t in st.places && Served(st, t)
    ensures var n := Flipped(st, s, v);
            || Served(n, t)
            || (!v && OriginOf(n.scopes, n.places[t].scope) == OriginOf(n.scopes, st.scopes[s].parent))
  {
    assert OrderedAt(st.scopes, s);
    if st.scopes[s].parent.Some? {
      OriginBeyond(st.scopes, s, v, st.scopes[s].parent.value);
    }
    if st.places[t].scope.Some? {
      OriginInTree(st, t);
      OriginAfterShield(st.scopes, s, v, st.places[t].scope.value);
    }
  }

  lemma ShieldServes(st: State, s: ScopeId, v: bool)
    requires StateOk(st) && s in st.scopes && Live(st)
    ensures Live(SetShield(st, s, v))
  {
    if st.scopes[s].shield != v {
      var p := st.scopes[s].parent;
      var n := Flipped(st, s, v);
      FlagsKeep(st, n);
      forall t | t in n.places
        ensures Served(n, t) || (!v && OriginOf(n.scopes, n.places[t].scope) == OriginOf(n.scopes, p))
      {
        assert Served(st, t);
        FlippedLive(st, s, v, t);
      }
      if !v {
        RestartServes(n, p);
      }
    }
  }

  // ----- entering -----

  /** What `Link` may assume: a running task enters a scope that was never entered. */
  ghost predicate CanLink(st: State, s: ScopeId, t: TaskId) {
    && StateOk(st) && s in st.scopes && t in st.tasks
    && st.scopes[s].order == 0 && st.tasks[t].life == Running
  }

  /** The facts about `s` and its new parent that every part of the proof needs. */
  lemma LinkFacts(st: State, s: ScopeId, t: TaskId)
    requires CanLink(st, s, t)
    ensures st.scopes[s].parent == None && st.scopes[s].host == None && !st.scopes[s].active
    ensures st.scopes[s].tasks == {} && st.scopes[s].children == {} && st.calls[s] == 0
    ensures var p := st.places[t].scope;
            p.Some? ==> p.value in st.scopes && p.value != s && st.scopes[p.value].active
                        && t in st.scopes[p.value].tasks && 0 < st.scopes[p.value].order
  {
    assert NewAt(st.scopes, st.calls, s) && LinkedAt(st.scopes, s);
    var p := st.places[t].scope;
    if p.Some? {
      OriginInTree(st, t);
      assert PlacedAt(st.scopes, st.places, t);
      assert NewAt(st.scopes, st.calls, p.value) && LinkedAt(st.scopes, p.value);
    }
  }

  lemma LinkKeepsTree(st: State, s: ScopeId, t: TaskId)
    requires CanLink(st, s, t)
    ensures TreeOk(Link(st, s, t).scopes, Link(st, s, t).clock)
  {
    LinkFacts(st, s, t);
    var n := Link(st, s, t);
    forall x | x in n.scopes
      ensures OrderedAt(n.scopes, x) && LinkedAt(n.scopes, x)
    {
      assert OrderedAt(st.scopes, x) && LinkedAt(st.scopes, x);
    }
  }

  lemma LinkKeepsTasks(st: State, s: ScopeId, t: TaskId)
    requires CanLink(st, s, t)
    ensures TasksOk(Link(st, s, t).scopes, Link(st, s, t).places)
  {
    LinkFacts(st, s, t);
    var n := Link(st, s, t);
    forall x | x in n.scopes
      ensures MembersAt(n.scopes, n.places, x)
    {
      assert MembersAt(st.scopes, st.places, x);
    }
    forall u | u in n.places
      ensures PlacedAt(n.scopes, n.places, u)
    {
      assert PlacedAt(st.scopes, st.places, u);
    }
  }

  lemma LinkKeepsHost(st: State, s: ScopeId, t: TaskId, x: ScopeId)
    requires CanLink(st, s, t) && x in st.scopes
    ensures x in Link(st, s, t).scopes && HostAt(Link(st, s, t).scopes, Link(st, s, t).places, x)
  {
    LinkFacts(st, s, t);
    assert HomeAt(st.scopes, st.places, t);
    assert HostAt(st.scopes, st.places, x) && OrderedAt(st.scopes, x);
  }

  lemma LinkKeepsHome(st: State, s: ScopeId, t: TaskId, u: TaskId)
    requires CanLink(st, s, t) && u in st.places
    ensures u in Link(st, s, t).places && HomeAt(Link(st, s, t).scopes, Link(st, s, t).places, u)
  {
    LinkFacts(st, s, t);
    assert HomeAt(st.scopes, st.places, t) && HomeAt(st.scopes, st.places, u);
  }

  lemma LinkKeepsHomes(st: State, s: ScopeId, t: TaskId)
    requires CanLink(st, s, t)
    ensures HomeOk(Link(st, s, t).scopes, Link(st, s, t).places)
  {
    var n := Link(st, s, t);
    forall x | x in n.scopes
      ensures HostAt(n.scopes, n.places, x)
    {
      LinkKeepsHost(st, s, t, x);
    }
    forall u | u in n.places
      ensures HomeAt(n.scopes, n.places, u)
    {
      LinkKeepsHome(st, s, t, u);
    }
  }

  /** Entering pushes `s` on the stack of `t` and leaves every other stack alone. */
  lemma LinkStack(st: State, s: ScopeId, t: TaskId, x: Option<ScopeId>, h: TaskId)
    requires CanLink(st, s, t)
    requires x.Some? ==> x.value in st.scopes && 0 < st.scopes[x.value].order
    ensures Stack(Link(st, s, t).scopes, x, h) == Stack(st.scopes, x, h)
    ensures Stack(Link(st, s, t).scopes, Some(s), t)
            == [s] + Stack(st.scopes, st.places[t].scope, t)
  {
    OlderStackStays(st, s, t, x, h);
    LinkFacts(st, s, t);
    OlderStackStays(st, s, t, st.places[t].scope, t);
    LinkKeepsTree(st, s, t);
    assert OrderedAt(Link(st, s, t).scopes, s);
    assert Up(Link(st, s, t).scopes, s) == st.places[t].scope;
  }

  lemma OlderStackStays(st: State, s: ScopeId, t: TaskId, x: Option<ScopeId>, h: TaskId)
    requires CanLink(st, s, t)
    requires x.Some? ==> x.value in st.scopes && 0 < st.scopes[x.value].order
    ensures Stack(Link(st, s, t).scopes, x, h) == Stack(st.scopes, x, h)
  {
    LinkFacts(st, s, t);
    StackFrame(st.scopes, Link(st, s, t).scopes, x, h, st.clock);
  }

  lemma PlaceEntered(st: State, h: TaskId)
    requires StateOk(st) && h in st.places && st.places[h].scope.Some?
    ensures st.places[h].scope.value in st.scopes
    ensures 0 < st.scopes[st.places[h].scope.value].order
  {
    OriginInTree(st, h);
    var x := st.places[h].scope.value;
    assert NewAt(st.scopes, st.calls, x) && LinkedAt(st.scopes, x);
  }

  lemma LinkKeepsStacks(st: State, s: ScopeId, t: TaskId)
    requires CanLink(st, s, t)
    ensures StackOk(Link(st, s, t).scopes, Link(st, s, t).places)
  {
    var n := Link(st, s, t);
    forall c | c in n.scopes && n.scopes[c].host.Some? && n.scopes[c].host.value in n.places
      ensures StackAt(n.scopes, n.places, c)
    {
      var h := n.scopes[c].host.value;
      if st.places[h].scope.Some? {
        PlaceEntered(st, h);
      }
      LinkStack(st, s, t, st.places[h].scope, h);
      assert StackAt(st.scopes, st.places, c);
    }
  }

  lemma LinkKeepsCounts(st: State, s: ScopeId, t: TaskId)
    requires CanLink(st, s, t)
    ensures CountOk(Link(st, s, t))
  {
    var n := Link(st, s, t);
    LinkFacts(st, s, t);
    forall u | u in n.tasks && u in n.places
      ensures CountsFor(n, u)
    {
      assert CountsFor(st, u);
      if st.places[u].scope.Some? {
        PlaceEntered(st, u);
      }
      LinkStack(st, s, t, st.places[u].scope, u);
    }
    forall x, h | x in n.scopes && h in n.tasks && n.scopes[x].host == Some(h)
      ensures MarkFor(n, x, h)
    {
      LinkKeepsMark(st, s, t, x, h);
    }
  }

  lemma LinkKeepsMark(st: State, s: ScopeId, t: TaskId, x: ScopeId, h: TaskId)
    requires CanLink(st, s, t)
    requires x in st.scopes && h in st.tasks && Link(st, s, t).scopes[x].host == Some(h)
    ensures MarkFor(Link(st, s, t), x, h)
  {
    var n := Link(st, s, t);
    LinkFacts(st, s, t);
    LinkKeepsTree(st, s, t);
    assert OrderedAt(n.scopes, x) && OrderedAt(st.scopes, x);
    if x == s {
      if st.places[t].scope.Some? {
        PlaceEntered(st, t);
      }
      LinkStack(st, s, t, st.places[t].scope, t);
      assert CountsFor(st, t);
    } else {
      LinkStack(st, s, t, Up(st.scopes, x), h);
      assert MarkFor(st, x, h);
    }
  }

  lemma LinkKeeps(st: State, s: ScopeId, t: TaskId)
    requires CanLink(st, s, t)
    ensures StateOk(Link(st, s, t))
  {
    LinkKeepsTree(st, s, t);
    LinkKeepsTasks(st, s, t);
    LinkKeepsHomes(st, s, t);
    LinkKeepsStacks(st, s, t);
    LinkKeepsCounts(st, s, t);
    LinkKeepsKeys(st, s, t);
  }

  lemma LinkKeepsKeys(st: State, s: ScopeId, t: TaskId)
    requires CanLink(st, s, t)
    ensures KeysOk(Link(st, s, t)) && HostsRun(Link(st, s, t).scopes, Link(st, s, t).tasks)
  {
    var n := Link(st, s, t);
    LinkFacts(st, s, t);
    forall x | x in n.scopes
      ensures NewAt(n.scopes, n.calls, x)
    {
      assert NewAt(st.scopes, st.calls, x);
    }
  }

  lemma LinkServes(st: State, s: ScopeId, t: TaskId)
    requires CanLink(st, s, t) && Live(st)
    ensures LiveBut(Link(st, s, t), Some(s))
  {
    var n := Link(st, s, t);
    forall u | u in n.places
      ensures Served(n, u) || OriginOf(n.scopes, n.places[u].scope) == Some(s)
    {
      LinkServesTask(st, s, t, u, n);
    }
  }

  lemma LinkServesTask(st: State, s: ScopeId, t: TaskId, u: TaskId, n: State)
    requires CanLink(st, s, t) && Live(st) && n == Link(st, s, t) && u in n.places
    ensures Served(n, u) || OriginOf(n.scopes, n.places[u].scope) == Some(s)
  {
    LinkFacts(st, s, t);
    LinkKeepsTree(st, s, t);
    assert OrderedAt(n.scopes, s);
    assert Served(st, u);
    if st.places[u].scope.Some? {
      PlaceEntered(st, u);
      OriginFrame(st.scopes, n.scopes, st.places[u].scope.value);
    }
  }

  lemma EnterKeeps(st: State, s: ScopeId, t: TaskId, expired: bool)
    requires CanLink(st, s, t)
    ensures StateOk(Enter(st, s, t, expired))
  {
    var linked := Link(st, s, t);
    LinkKeeps(st, s, t);
    var timed := if expired then CancelCall(linked, s) else linked;
    CancelKeeps(linked, s);
    if timed.scopes[s].cancelCalled {
      DeliverKeeps(timed, s);
    }
  }

  /** When no scope but an uncancelled one may be unserved, everyone is served. */
  lemma NoneUnserved(st: State, s: ScopeId)
    requires LiveBut(st, Some(s)) && s in st.scopes && !st.scopes[s].cancelCalled
    ensures Live(st)
  {
    forall t | t in st.places
      ensures Served(st, t)
    {
      assert Served(st, t) || OriginOf(st.scopes, st.places[t].scope) == Some(s);
    }
  }

  lemma LiveIsLiveBut(st: State, o: Option<ScopeId>)
    requires Live(st)
    ensures LiveBut(st, o)
  {
    forall t | t in st.places
      ensures Served(st, t) || OriginOf(st.scopes, st.places[t].scope) == o
    {
      assert Served(st, t);
    }
  }

  lemma EnterServes(st: State, s: ScopeId, t: TaskId, expired: bool)
    requires CanLink(st, s, t) && Live(st)
    ensures Live(Enter(st, s, t, expired))
  {
    var linked := Link(st, s, t);
    LinkKeeps(st, s, t);
    LinkServes(st, s, t);
    var timed := if expired then CancelCall(linked, s) else linked;
    CancelKeeps(linked, s);
    if expired && !linked.scopes[s].cancelCalled {
      CancelServes(linked, s);
      LiveIsLiveBut(timed, Some(s));
    }
    if timed.scopes[s].cancelCalled {
      DeliverServes(timed, s);
    } else {
      NoneUnserved(timed, s);
    }
  }
}
