/** Leaving a cancel scope: the uncancel loop, the tree and the restart in the parent. */
module CancelExit {
  import opened Wrappers
  import opened ScopeTree
  import opened Tasks
  import opened CancelState
  import opened CancelSteps

  /** In a structured program the running task leaves its current scope, and no task that was
      spawned in that scope is left. */
  ghost predicate CanUnlink(st: State, s: ScopeId, t: TaskId) {
    && StateOk(st) && s in st.scopes && t in st.tasks
    && st.places[t].scope == Some(s) && st.scopes[s].host == Some(t)
    && (forall u :: u in st.places ==> st.places[u].home != Some(s))
  }

  // ----- the uncancel loop -----

  /** The loop gives back every call, and its early exit never leaves any. */
  lemma {:induction false} UncancelGivesBackAll(calls: nat, requests: nat, mark: nat)
    requires mark + calls <= requests
    ensures UncancelLoop(calls, requests, mark) == (0, requests - calls)
  {
    if calls > 0 && requests - 1 > mark {
      UncancelGivesBackAll(calls - 1, requests - 1, mark);
    }
  }

  /** A scope's mark leaves room for all of its calls. */
  lemma MarkLeavesRoom(st: State, s: ScopeId, t: TaskId)
    requires CanUnlink(st, s, t)
    ensures st.scopes[s].cancelling + st.calls[s] <= st.tasks[t].requests
  {
    assert CountsFor(st, t) && MarkFor(st, s, t);
    assert Stack(st.scopes, Some(s), t) == [s] + Stack(st.scopes, Up(st.scopes, s), t);
  }

  lemma UnlinkGivesBackAll(st: State, s: ScopeId, t: TaskId)
    requires CanUnlink(st, s, t)
    ensures UncancelLoop(st.calls[s], st.tasks[t].requests, st.scopes[s].cancelling)
            == (0, st.tasks[t].requests - st.calls[s])
  {
    MarkLeavesRoom(st, s, t);
    UncancelGivesBackAll(st.calls[s], st.tasks[t].requests, st.scopes[s].cancelling);
  }

  // ----- the tree -----

  /** No scope is nested in a scope that may be left. */
  lemma ExitHasNoChild(st: State, s: ScopeId, t: TaskId, c: ScopeId)
    requires CanUnlink(st, s, t)
    ensures c !in st.scopes[s].children
  {
    if c in st.scopes[s].children {
      assert LinkedAt(st.scopes, s) && LinkedAt(st.scopes, c);
      assert HostAt(st.scopes, st.places, c) && StackAt(st.scopes, st.places, c);
      var h := st.scopes[c].host.value;
      assert OrderedAt(st.scopes, c);
      if h == t {
        StackIsBelow(st.scopes, s, t, c);
      }
    }
  }

  /** The host is the only task in a scope that may be left. */
  lemma ExitHasOnlyHost(st: State, s: ScopeId, t: TaskId, u: TaskId)
    requires CanUnlink(st, s, t)
    ensures u in st.scopes[s].tasks <==> u == t
  {
    assert MembersAt(st.scopes, st.places, s) && PlacedAt(st.scopes, st.places, t);
    if u in st.scopes[s].tasks {
      assert HomeAt(st.scopes, st.places, u);
    }
  }

  /** Leaving a scope empties it, and the parent it gives the host back to is active. */
  lemma UnlinkFacts(st: State, s: ScopeId, t: TaskId)
    requires CanUnlink(st, s, t)
    ensures st.scopes[s].children == {} && st.scopes[s].tasks == {t} && st.scopes[s].active
    ensures var p := st.scopes[s].parent;
            p.Some? ==> p.value in st.scopes && p.value != s && st.scopes[p.value].active
                        && 0 < st.scopes[p.value].order < st.scopes[s].order
                        && s in st.scopes[p.value].children
  {
    forall c ensures c !in st.scopes[s].children { ExitHasNoChild(st, s, t, c); }
    forall u ensures u in st.scopes[s].tasks <==> u == t { ExitHasOnlyHost(st, s, t, u); }
    assert LinkedAt(st.scopes, s) && OrderedAt(st.scopes, s);
  }

  lemma UnlinkKeepsTree(st: State, s: ScopeId, t: TaskId)
    requires CanUnlink(st, s, t)
    ensures TreeOk(Unlink(st, s, t).scopes, Unlink(st, s, t).clock)
  {
    var n := Unlink(st, s, t);
    forall x | x in n.scopes
      ensures OrderedAt(n.scopes, x)
    {
      assert OrderedAt(st.scopes, x);
    }
    UnlinkKeepsLinks(st, s, t);
  }

  lemma UnlinkKeepsLinks(st: State, s: ScopeId, t: TaskId)
    requires CanUnlink(st, s, t)
    ensures Linked(Unlink(st, s, t).scopes)
  {
    var n := Unlink(st, s, t);
    UnlinkFacts(st, s, t);
    forall x | x in n.scopes
      ensures LinkedAt(n.scopes, x)
    {
      assert LinkedAt(st.scopes, x);
    }
  }

  lemma UnlinkKeepsTasks(st: State, s: ScopeId, t: TaskId)
    requires CanUnlink(st, s, t)
    ensures TasksOk(Unlink(st, s, t).scopes, Unlink(st, s, t).places)
  {
    UnlinkFacts(st, s, t);
    var n := Unlink(st, s, t);
    forall x | x in n.scopes
      ensures MembersAt(n.scopes, n.places, x)
    {
      assert MembersAt(st.scopes, st.places, x);
    }
    forall u | u in n.places
      ensures PlacedAt(n.scopes, n.places, u)
    {
      assert PlacedAt(st.scopes, st.places, u);
    }
  }

  lemma UnlinkKeepsHomes(st: State, s: ScopeId, t: TaskId)
    requires CanUnlink(st, s, t)
    ensures HomeOk(Unlink(st, s, t).scopes, Unlink(st, s, t).places)
  {
    UnlinkFacts(st, s, t);
    var n := Unlink(st, s, t);
    assert HostAt(st.scopes, st.places, s);
    forall u | u in n.places
      ensures HomeAt(n.scopes, n.places, u)
    {
      assert HomeAt(st.scopes, st.places, u) && PlacedAt(st.scopes, st.places, u);
    }
    UnlinkKeepsHosts(st, s, t);
  }

  lemma UnlinkKeepsHosts(st: State, s: ScopeId, t: TaskId)
    requires CanUnlink(st, s, t)
    ensures var n := Unlink(st, s, t);
            forall x {:trigger HostAt(n.scopes, n.places, x)} :: x in n.scopes ==>
              HostAt(n.scopes, n.places, x)
  {
    UnlinkFacts(st, s, t);
    var n := Unlink(st, s, t);
    forall x | x in n.scopes
      ensures HostAt(n.scopes, n.places, x)
    {
      assert HostAt(st.scopes, st.places, x) && LinkedAt(st.scopes, x);
    }
  }

  /** Leaving changes no parent, order or flag, and no host but that of `s`. */
  lemma UnlinkFrame(st: State, s: ScopeId, t: TaskId, h: TaskId)
    requires CanUnlink(st, s, t)
    ensures SameChains(st.scopes, Unlink(st, s, t).scopes)
    ensures SameFlags(st.scopes, Unlink(st, s, t).scopes)
    ensures SameHosts(st.scopes, Unlink(st, s, t).scopes, h,
                      if h == t then st.scopes[s].order else st.clock)
  {
  }

  lemma NotBelowItself(m: Scopes, s: ScopeId, x: Option<ScopeId>, t: TaskId)
    requires s in m && (x.Some? ==> x.value in m && m[x.value].order < m[s].order)
    ensures s !in Stack(m, x, t)
  {
    if s in Stack(m, x, t) {
      StackIsBelow(m, x.value, t, s);
    }
  }

  /** Leaving pops `s` from the stack of `t`; stacks that do not reach `s` stay. */
  lemma UnlinkStack(st: State, s: ScopeId, t: TaskId, x: Option<ScopeId>, h: TaskId)
    requires CanUnlink(st, s, t)
    requires x.Some? ==> x.value in st.scopes && 0 < st.scopes[x.value].order
    requires h != t || (x.Some? ==> st.scopes[x.value].order < st.scopes[s].order)
    ensures Stack(Unlink(st, s, t).scopes, x, h) == Stack(st.scopes, x, h)
    ensures s !in Stack(st.scopes, x, h)
  {
    UnlinkFrame(st, s, t, h);
    StackFrame(st.scopes, Unlink(st, s, t).scopes, x, h, if h == t then st.scopes[s].order else st.clock);
    if h == t {
      NotBelowItself(st.scopes, s, x, h);
    }
  }

  lemma UnlinkOwnStack(st: State, s: ScopeId, t: TaskId)
    requires CanUnlink(st, s, t)
    ensures Stack(st.scopes, Some(s), t) == [s] + Stack(st.scopes, st.scopes[s].parent, t)
    ensures Stack(Unlink(st, s, t).scopes, st.scopes[s].parent, t)
            == Stack(st.scopes, st.scopes[s].parent, t)
    ensures s !in Stack(st.scopes, st.scopes[s].parent, t)
  {
    UnlinkFacts(st, s, t);
    assert OrderedAt(st.scopes, s);
    UnlinkStack(st, s, t, st.scopes[s].parent, t);
  }

  lemma UnlinkKeepsStacks(st: State, s: ScopeId, t: TaskId)
    requires CanUnlink(st, s, t)
    ensures StackOk(Unlink(st, s, t).scopes, Unlink(st, s, t).places)
  {
    var n := Unlink(st, s, t);
    forall c | c in n.scopes && n.scopes[c].host.Some? && n.scopes[c].host.value in n.places
      ensures StackAt(n.scopes, n.places, c)
    {
      var h := n.scopes[c].host.value;
      assert StackAt(st.scopes, st.places, c);
      if h == t {
        UnlinkOwnStack(st, s, t);
      } else {
        if st.places[h].scope.Some? {
          PlaceEntered(st, h);
        }
        UnlinkStack(st, s, t, st.places[h].scope, h);
      }
    }
  }

  // ----- the counters -----

  lemma CallsElsewhere(st: State, s: ScopeId, t: TaskId, x: Option<ScopeId>, h: TaskId)
    requires CanUnlink(st, s, t)
    requires x.Some? ==> x.value in st.scopes && 0 < st.scopes[x.value].order
    requires h != t || (x.Some? ==> st.scopes[x.value].order < st.scopes[s].order)
    ensures HostedCalls(Unlink(st, s, t), x, h) == HostedCalls(st, x, h)
  {
    UnlinkStack(st, s, t, x, h);
    var stack := Stack(st.scopes, x, h);
    StackDistinct(st.scopes, x, h);
    SumUpdate(st.calls, stack, s, Unlink(st, s, t).calls[s]);
  }

  lemma UnlinkKeepsCountsFor(st: State, s: ScopeId, t: TaskId, u: TaskId)
    requires CanUnlink(st, s, t) && u in st.tasks
    ensures CountsFor(Unlink(st, s, t), u)
  {
    assert CountsFor(st, u);
    if u == t {
      UnlinkFacts(st, s, t);
      UnlinkOwnStack(st, s, t);
      UnlinkGivesBackAll(st, s, t);
      CallsElsewhere(st, s, t, st.scopes[s].parent, t);
    } else {
      if st.places[u].scope.Some? {
        PlaceEntered(st, u);
      }
      CallsElsewhere(st, s, t, st.places[u].scope, u);
    }
  }

  lemma UnlinkKeepsMarkFor(st: State, s: ScopeId, t: TaskId, x: ScopeId, h: TaskId)
    requires CanUnlink(st, s, t) && x in st.scopes && x != s
    requires h in st.tasks && st.scopes[x].host == Some(h)
    ensures MarkFor(Unlink(st, s, t), x, h)
  {
    var n := Unlink(st, s, t);
    assert MarkFor(st, x, h) && OrderedAt(st.scopes, x);
    UnlinkKeepsTree(st, s, t);
    assert OrderedAt(n.scopes, x);
    if h == t {
      assert StackAt(st.scopes, st.places, x);
      StackIsBelow(st.scopes, s, t, x);
    }
    CallsElsewhere(st, s, t, Up(st.scopes, x), h);
  }

  lemma UnlinkKeepsCounts(st: State, s: ScopeId, t: TaskId)
    requires CanUnlink(st, s, t)
    ensures CountOk(Unlink(st, s, t))
  {
    var n := Unlink(st, s, t);
    forall u | u in n.tasks && u in n.places
      ensures CountsFor(n, u)
    {
      UnlinkKeepsCountsFor(st, s, t, u);
    }
    forall x, h | x in n.scopes && h in n.tasks && n.scopes[x].host == Some(h)
      ensures MarkFor(n, x, h)
    {
      UnlinkKeepsMarkFor(st, s, t, x, h);
    }
  }

  lemma UnlinkKeepsKeys(st: State, s: ScopeId, t: TaskId)
    requires CanUnlink(st, s, t)
    ensures KeysOk(Unlink(st, s, t))
    ensures HostsRun(Unlink(st, s, t).scopes, Unlink(st, s, t).tasks)
  {
    UnlinkFacts(st, s, t);
    UnlinkKeepsNew(st, s, t);
  }

  lemma UnlinkKeepsNew(st: State, s: ScopeId, t: TaskId)
    requires CanUnlink(st, s, t)
    ensures NewOk(Unlink(st, s, t).scopes, Unlink(st, s, t).calls)
  {
    var n := Unlink(st, s, t);
    forall x | x in n.scopes
      ensures NewAt(n.scopes, n.calls, x)
    {
      assert NewAt(st.scopes, st.calls, x);
    }
  }

  lemma UnlinkKeeps(st: State, s: ScopeId, t: TaskId)
    requires CanUnlink(st, s, t)
    ensures StateOk(Unlink(st, s, t))
  {
    UnlinkKeepsTree(st, s, t);
    UnlinkKeepsTasks(st, s, t);
    UnlinkKeepsHomes(st, s, t);
    UnlinkKeepsStacks(st, s, t);
    UnlinkKeepsCounts(st, s, t);
    UnlinkKeepsKeys(st, s, t);
  }

  lemma UnlinkServes(st: State, s: ScopeId, t: TaskId)
    requires CanUnlink(st, s, t) && Live(st)
    ensures var n := Unlink(st, s, t); LiveBut(n, OriginOf(n.scopes, st.scopes[s].parent))
  {
    var n := Unlink(st, s, t);
    UnlinkFrame(st, s, t, t);
    forall u | u in n.places
      ensures Served(n, u)
           || OriginOf(n.scopes, n.places[u].scope) == OriginOf(n.scopes, st.scopes[s].parent)
    {
      assert Served(st, u);
      if u != t && st.places[u].scope.Some? {
        PlaceEntered(st, u);
        OriginFrame(st.scopes, n.scopes, st.places[u].scope.value);
      }
    }
  }

  lemma ExitKeeps(st: State, s: ScopeId, t: TaskId)
    requires CanUnlink(st, s, t)
    ensures StateOk(Exit(st, s, t))
  {
    UnlinkKeeps(st, s, t);
    RestartKeeps(Unlink(st, s, t), st.scopes[s].parent);
  }

  lemma ExitServes(st: State, s: ScopeId, t: TaskId)
    requires CanUnlink(st, s, t) && Live(st)
    ensures Live(Exit(st, s, t))
  {
    UnlinkKeeps(st, s, t);
    UnlinkServes(st, s, t);
    RestartServes(Unlink(st, s, t), st.scopes[s].parent);
  }

  // ----- what leaving a scope means for the host -----

  /** No delivery strikes the task that is running. */
  lemma RestartSparesCurrent(st: State, p: Option<ScopeId>, t: TaskId)
    requires st.current == Some(t) && t in st.tasks
    ensures t in Restart(st, p).tasks && Restart(st, p).tasks[t] == st.tasks[t]
  {
  }

  /** `__exit__` takes exactly the scope's own deliveries off `cancelling()`: no call is left
      over, and native cancellations and those of other scopes stay counted. */
  lemma ExitGivesBackOwnShare(st: State, s: ScopeId, t: TaskId)
    requires CanUnlink(st, s, t) && st.current == Some(t)
    ensures var n := Exit(st, s, t);
            && s in n.calls && n.calls[s] == 0
            && t in n.tasks && n.tasks[t].requests == st.tasks[t].requests - st.calls[s]
            && n.tasks[t].requests ==
               st.tasks[t].native + st.tasks[t].foreign + HostedCalls(st, st.scopes[s].parent, t)
  {
    UnlinkGivesBackAll(st, s, t);
    UnlinkOwnStack(st, s, t);
    assert CountsFor(st, t);
    var u := Unlink(st, s, t);
    RestartSparesCurrent(u, st.scopes[s].parent, t);
    UnlinkKeeps(st, s, t);
    var o := OriginOf(u.scopes, st.scopes[s].parent);
    if o == Some(s) {
      RestartIsAbove(st, s, t);
    }
  }

  /** The scope that is left is not the one whose delivery is restarted. */
  lemma RestartIsAbove(st: State, s: ScopeId, t: TaskId)
    requires CanUnlink(st, s, t)
    ensures OriginOf(Unlink(st, s, t).scopes, st.scopes[s].parent) != Some(s)
  {
    var u := Unlink(st, s, t);
    UnlinkFacts(st, s, t);
    UnlinkKeepsTree(st, s, t);
    if OriginOf(u.scopes, st.scopes[s].parent) == Some(s) {
      OriginIsActive(u.scopes, st.scopes[s].parent.value);
    }
  }
}
