/**
 The tree of cancel scopes, as values: the bottom-up walk that asks whether a scope is
 cancelled, the top-down walk that delivers a cancellation, and the theorem that the two
 agree on every well-formed tree.
 */
module ScopeTree {
  import opened Wrappers
  import opened Tasks

  type ScopeId = nat

  /** The fields of a cancel scope that decide who is cancelled. `order` is the scope's
      entry number; it stands for the time at which `__enter__` ran. */
  datatype Scope = Scope(
    parent: Option<ScopeId>,
    children: set<ScopeId>,
    tasks: set<TaskId>,
    host: Option<TaskId>,
    active: bool,
    shield: bool,
    cancelCalled: bool,
    cancelling: nat,
    order: nat)

  type Scopes = map<ScopeId, Scope>

  // ----- well-formed trees -----

  ghost predicate OrderedAt(m: Scopes, s: ScopeId)
    requires s in m
  {
    m[s].parent.Some? ==>
      && m[s].parent.value in m
      && 0 < m[m[s].parent.value].order < m[s].order
  }

  ghost predicate Ordered(m: Scopes) {
    forall s {:trigger OrderedAt(m, s)} :: s in m ==> OrderedAt(m, s)
  }

  ghost predicate Below(m: Scopes, clock: nat) {
    forall s :: s in m ==> m[s].order < clock
  }

  /** An active scope is in its parent's child set, and that parent is active; a scope that
      is not active has no children and no tasks. */
  ghost predicate LinkedAt(m: Scopes, s: ScopeId)
    requires s in m
  {
    && (forall c :: c in m[s].children ==> c in m && m[c].active && m[c].parent == Some(s))
    && (m[s].active && m[s].parent.Some? && m[s].parent.value in m ==>
          s in m[m[s].parent.value].children && m[m[s].parent.value].active)
    && m[s].active == m[s].host.Some?
    && (!m[s].active ==> m[s].tasks == {} && m[s].children == {})
  }

  ghost predicate Linked(m: Scopes) {
    forall s {:trigger LinkedAt(m, s)} :: s in m ==> LinkedAt(m, s)
  }

  ghost predicate TreeOk(m: Scopes, clock: nat) {
    Ordered(m) && Below(m, clock) && Linked(m)
  }

  // ----- bottom-up -----

  /** The parent, as a chain walk sees it. In an ordered tree this is `parent`. */
  function Up(m: Scopes, s: ScopeId): (p: Option<ScopeId>)
    requires s in m
    ensures p.Some? ==> p.value in m && m[p.value].order < m[s].order
    ensures OrderedAt(m, s) ==> p == m[s].parent
  {
    var p := m[s].parent;
    if p.Some? && p.value in m && m[p.value].order < m[s].order then p else None
  }

  /** `_effectively_cancelled`. */
  predicate EffectivelyCancelled(m: Scopes, s: ScopeId)
    requires s in m
    decreases m[s].order
  {
    || m[s].cancelCalled
    || (!m[s].shield && Up(m, s).Some? && EffectivelyCancelled(m, Up(m, s).value))
  }

  predicate IsCancelled(m: Scopes, s: Option<ScopeId>) {
    s.Some? && s.value in m && EffectivelyCancelled(m, s.value)
  }

  /** The closest cancelled scope that is visible from `s`. */
  function Origin(m: Scopes, s: ScopeId): (o: Option<ScopeId>)
    requires s in m
    ensures o.Some? ==> o.value in m && m[o.value].cancelCalled
    decreases m[s].order
  {
    if m[s].cancelCalled then Some(s)
    else if m[s].shield || Up(m, s).None? then None
    else Origin(m, Up(m, s).value)
  }

  function OriginOf(m: Scopes, s: Option<ScopeId>): (o: Option<ScopeId>)
    ensures o.Some? ==> o.value in m && m[o.value].cancelCalled
  {
    if s.Some? && s.value in m then Origin(m, s.value) else None
  }

  lemma {:induction false} CancelledHasOrigin(m: Scopes, s: ScopeId)
    requires s in m
    ensures EffectivelyCancelled(m, s) <==> Origin(m, s).Some?
    decreases m[s].order
  {
    if !m[s].cancelCalled && Up(m, s).Some? {
      CancelledHasOrigin(m, Up(m, s).value);
    }
  }

  lemma {:induction false} OriginIsActive(m: Scopes, s: ScopeId)
    requires s in m && Ordered(m) && Linked(m) && m[s].active && Origin(m, s).Some?
    ensures m[Origin(m, s).value].active
    decreases m[s].order
  {
    assert OrderedAt(m, s) && LinkedAt(m, s);
    if !m[s].cancelCalled {
      OriginIsActive(m, m[s].parent.value);
    }
  }

  // ----- top-down -----

  /** The children that `_deliver_cancellation` descends into. */
  function Kids(m: Scopes, clock: nat, s: ScopeId): (kids: set<ScopeId>)
    requires s in m
  {
    set c | c in m[s].children && c in m && m[s].order < m[c].order < clock
      && !m[c].shield && !m[c].cancelCalled
  }

  /** Every scope that one delivery starting at `s` visits. */
  ghost function Region(m: Scopes, clock: nat, s: ScopeId): (r: set<ScopeId>)
    requires s in m
    ensures s in r && r <= m.Keys
    decreases clock - m[s].order
  {
    {s} + set c, x | c in Kids(m, clock, s) && x in Region(m, clock, c) :: x
  }

  ghost function ReachedTasks(m: Scopes, clock: nat, s: ScopeId): (r: set<TaskId>)
    requires s in m
  {
    set x, t | x in Region(m, clock, s) && t in m[x].tasks :: t
  }

  lemma {:induction false} RegionIsAbove(m: Scopes, clock: nat, s: ScopeId, x: ScopeId)
    requires s in m && x in Region(m, clock, s)
    ensures x == s || m[s].order < m[x].order
    decreases clock - m[s].order
  {
    if x != s {
      var c :| c in Kids(m, clock, s) && x in Region(m, clock, c);
      RegionIsAbove(m, clock, c, x);
    }
  }

  lemma KidHasParent(m: Scopes, clock: nat, s: ScopeId, c: ScopeId)
    requires Linked(m) && s in m && c in Kids(m, clock, s)
    ensures m[c].parent == Some(s) && m[c].active && !m[c].shield && !m[c].cancelCalled
  {
    assert LinkedAt(m, s);
  }

  /** Below its root, a region is entered only through an unshielded, uncancelled scope
      from its parent. */
  lemma {:induction false} RegionHasParent(m: Scopes, clock: nat, s: ScopeId, x: ScopeId)
    requires Linked(m) && s in m && x in Region(m, clock, s) && x != s
    ensures !m[x].shield && !m[x].cancelCalled
    ensures m[x].parent.Some? && m[x].parent.value in Region(m, clock, s)
    ensures m[m[x].parent.value].order < m[x].order
    decreases clock - m[s].order
  {
    var c :| c in Kids(m, clock, s) && x in Region(m, clock, c);
    if x == c {
      KidHasParent(m, clock, s, c);
    } else {
      RegionHasParent(m, clock, c, x);
      RegionClosed(m, clock, s, c, m[x].parent.value);
    }
  }

  /** The region of a visited child is part of the region. */
  lemma RegionClosed(m: Scopes, clock: nat, s: ScopeId, c: ScopeId, x: ScopeId)
    requires s in m && c in Kids(m, clock, s) && x in Region(m, clock, c)
    ensures x in Region(m, clock, s)
  {
  }

  lemma {:induction false} RegionHasKids(m: Scopes, clock: nat, s: ScopeId, x: ScopeId, k: ScopeId)
    requires s in m && x in Region(m, clock, s) && k in Kids(m, clock, x)
    ensures k in Region(m, clock, s)
    decreases clock - m[s].order
  {
    if x == s {
      RegionClosed(m, clock, s, k, k);
    } else {
      var c :| c in Kids(m, clock, s) && x in Region(m, clock, c);
      RegionHasKids(m, clock, c, x, k);
      RegionClosed(m, clock, s, c, k);
    }
  }

  lemma SiblingNotVisited(m: Scopes, clock: nat, s: ScopeId, c: ScopeId, d: ScopeId)
    requires Linked(m) && s in m && c in Kids(m, clock, s) && d in Kids(m, clock, s)
    requires c in Region(m, clock, d)
    ensures c == d
  {
    if c != d {
      KidHasParent(m, clock, s, c);
      RegionHasParent(m, clock, d, c);
      RegionIsAbove(m, clock, d, s);
    }
  }

  /** Two children of one scope have disjoint regions. */
  lemma {:induction false} SiblingRegionsDisjoint(
    m: Scopes, clock: nat, s: ScopeId, c: ScopeId, d: ScopeId, x: ScopeId)
    requires Linked(m) && s in m && c in Kids(m, clock, s) && d in Kids(m, clock, s)
    requires x in Region(m, clock, c) && x in Region(m, clock, d)
    ensures c == d
    decreases m[x].order
  {
    if x == c {
      SiblingNotVisited(m, clock, s, c, d);
    } else if x == d {
      SiblingNotVisited(m, clock, s, d, c);
    } else {
      RegionHasParent(m, clock, c, x);
      RegionHasParent(m, clock, d, x);
      SiblingRegionsDisjoint(m, clock, s, c, d, m[x].parent.value);
    }
  }

  // ----- the two walks agree -----

  lemma {:induction false} OriginVisits(m: Scopes, clock: nat, s: ScopeId, o: ScopeId)
    requires TreeOk(m, clock) && s in m && m[s].active && Origin(m, s) == Some(o)
    ensures s in Region(m, clock, o)
    decreases m[s].order
  {
    assert OrderedAt(m, s) && LinkedAt(m, s);
    if !m[s].cancelCalled {
      var p := m[s].parent.value;
      OriginVisits(m, clock, p, o);
      RegionHasKids(m, clock, o, p, s);
    }
  }

  lemma {:induction false} VisitedHasOrigin(m: Scopes, clock: nat, s: ScopeId, o: ScopeId)
    requires TreeOk(m, clock) && o in m && m[o].cancelCalled && s in Region(m, clock, o)
    ensures Origin(m, s) == Some(o)
    decreases m[s].order
  {
    if s != o {
      RegionHasParent(m, clock, o, s);
      assert OrderedAt(m, s);
      VisitedHasOrigin(m, clock, m[s].parent.value, o);
    }
  }

  /** Top-down equals bottom-up. An active scope is effectively cancelled iff some cancelled
      scope's delivery visits it; that scope is its origin and no other delivery visits it. */
  lemma TopDownIsBottomUp(m: Scopes, clock: nat, s: ScopeId)
    requires TreeOk(m, clock) && s in m && m[s].active
    ensures EffectivelyCancelled(m, s) <==>
            exists o :: o in m && m[o].cancelCalled && s in Region(m, clock, o)
    ensures forall o :: o in m && m[o].cancelCalled && s in Region(m, clock, o) ==>
            Origin(m, s) == Some(o)
  {
    CancelledHasOrigin(m, s);
    if EffectivelyCancelled(m, s) {
      OriginVisits(m, clock, s, Origin(m, s).value);
    }
    forall o | o in m && m[o].cancelCalled && s in Region(m, clock, o)
      ensures Origin(m, s) == Some(o)
    {
      VisitedHasOrigin(m, clock, s, o);
    }
  }

  /** Deliveries of different cancelled scopes never visit the same scope. */
  lemma RegionsOfOriginsDisjoint(m: Scopes, clock: nat, o1: ScopeId, o2: ScopeId)
    requires TreeOk(m, clock) && o1 in m && o2 in m && o1 != o2
    requires m[o1].cancelCalled && m[o2].cancelCalled
    ensures Region(m, clock, o1) !! Region(m, clock, o2)
  {
    forall x | x in Region(m, clock, o1) && x in Region(m, clock, o2)
      ensures false
    {
      VisitedHasOrigin(m, clock, x, o1);
      VisitedHasOrigin(m, clock, x, o2);
    }
  }

  // ----- the scopes that one task has entered -----

  /** The scopes that `t` hosts, from `s` outwards: the part of the parent chain that the
      task itself entered, innermost first. */
  function Stack(m: Scopes, s: Option<ScopeId>, t: TaskId): (r: seq<ScopeId>)
    ensures forall i :: 0 <= i < |r| ==> r[i] in m && m[r[i]].host == Some(t)
    decreases if s.Some? && s.value in m then m[s.value].order + 1 else 0
  {
    if s.Some? && s.value in m && m[s.value].host == Some(t)
    then [s.value] + Stack(m, Up(m, s.value), t)
    else []
  }

  lemma {:induction false} StackIsBelow(m: Scopes, s: ScopeId, t: TaskId, c: ScopeId)
    requires s in m && c in Stack(m, Some(s), t)
    ensures c == s || m[c].order < m[s].order
    decreases m[s].order
  {
    if c != s && Up(m, s).Some? {
      StackIsBelow(m, Up(m, s).value, t, c);
    }
  }

  function Sum(calls: map<ScopeId, nat>, stack: seq<ScopeId>): (n: nat)
  {
    if stack == [] then 0
    else (if stack[0] in calls then calls[stack[0]] else 0) + Sum(calls, stack[1..])
  }

  // ----- frames: what a walk does not look at -----

  /** `n` has every scope that was entered in `m`, with the same parent and order. */
  ghost predicate SameChains(m: Scopes, n: Scopes) {
    forall s :: s in m && m[s].order > 0 ==>
      s in n && n[s].parent == m[s].parent && n[s].order == m[s].order
  }

  ghost predicate SameFlags(m: Scopes, n: Scopes) {
    forall s :: s in m && m[s].order > 0 ==>
      s in n && n[s].cancelCalled == m[s].cancelCalled && n[s].shield == m[s].shield
  }

  /** Below entry number `bound`, `t` hosts the same scopes. */
  ghost predicate SameHosts(m: Scopes, n: Scopes, t: TaskId, bound: nat) {
    forall s :: s in m && 0 < m[s].order < bound ==>
      s in n && (n[s].host == Some(t) <==> m[s].host == Some(t))
  }

  lemma {:induction false} OriginFrame(m: Scopes, n: Scopes, s: ScopeId)
    requires Ordered(m) && SameChains(m, n) && SameFlags(m, n) && s in m && m[s].order > 0
    ensures s in n && Origin(n, s) == Origin(m, s)
    decreases m[s].order
  {
    assert OrderedAt(m, s);
    if m[s].parent.Some? {
      OriginFrame(m, n, m[s].parent.value);
    }
  }

  lemma {:induction false} StackFrame(m: Scopes, n: Scopes, s: Option<ScopeId>, t: TaskId, bound: nat)
    requires Ordered(m) && SameChains(m, n) && SameHosts(m, n, t, bound)
    requires s.Some? ==> s.value in m && 0 < m[s.value].order < bound
    ensures Stack(n, s, t) == Stack(m, s, t)
    decreases if s.Some? then m[s.value].order + 1 else 0
  {
    if s.Some? {
      assert OrderedAt(m, s.value);
      StackFrame(m, n, m[s.value].parent, t, bound);
    }
  }

  /** Cancelling `s` makes `s` the origin of some scopes and changes no other origin. */
  lemma {:induction false} OriginAfterCancel(m: Scopes, s: ScopeId, x: ScopeId)
    requires Ordered(m) && s in m && x in m
    ensures Origin(m[s := m[s].(cancelCalled := true)], x) in {Some(s), Origin(m, x)}
    decreases m[x].order
  {
    var n := m[s := m[s].(cancelCalled := true)];
    assert OrderedAt(m, x);
    if x != s && Up(m, x).Some? {
      OriginAfterCancel(m, s, Up(m, x).value);
    }
  }

  /** Changing a shield replaces an origin by nothing, or by the origin of the parent. */
  lemma {:induction false} OriginAfterShield(m: Scopes, s: ScopeId, v: bool, x: ScopeId)
    requires Ordered(m) && s in m && x in m
    ensures var n := m[s := m[s].(shield := v)];
            Origin(n, x) in {None, Origin(m, x), if v then None else OriginOf(m, m[s].parent)}
    decreases m[x].order
  {
    var n := m[s := m[s].(shield := v)];
    assert OrderedAt(m, x);
    if x == s {
      if Up(m, s).Some? {
        OriginBeyond(m, s, v, Up(m, s).value);
      }
    } else if Up(m, x).Some? {
      OriginAfterShield(m, s, v, Up(m, x).value);
    }
  }

  lemma {:induction false} OriginBeyond(m: Scopes, s: ScopeId, v: bool, x: ScopeId)
    requires Ordered(m) && s in m && x in m && m[x].order < m[s].order
    ensures Origin(m[s := m[s].(shield := v)], x) == Origin(m, x)
    decreases m[x].order
  {
    var n := m[s := m[s].(shield := v)];
    assert OrderedAt(m, x);
    if Up(m, x).Some? {
      OriginBeyond(m, s, v, Up(m, x).value);
    }
  }
}
