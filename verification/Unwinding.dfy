/**
 Which scope swallows a cancellation. Exceptions are values: atoms, `CancelledError`s with the
 error they were raised from, and exception groups.
 */
module Unwinding {
  import opened Wrappers
  import opened ScopeTree

  /** `byScope` says that the message starts with "Cancelled by cancel scope"; `context` is
      `__context__`. */
  datatype Exc =
    | Other(id: nat)
    | Cancelled(byScope: bool, context: Option<Exc>)
    | Group(excs: seq<Exc>)

  // ----- iterate_exceptions -----

  /** The atoms of an exception, left to right. */
  function Leaves(e: Exc): (r: seq<Exc>)
    ensures forall i :: 0 <= i < |r| ==> !r[i].Group?
    decreases e, 0
  {
    match e
    case Group(excs) => LeavesOfAll(excs)
    case _ => [e]
  }

  function LeavesOfAll(excs: seq<Exc>): (r: seq<Exc>)
    ensures forall i :: 0 <= i < |r| ==> !r[i].Group?
    decreases excs, 1
  {
    if excs == [] then [] else Leaves(excs[0]) + LeavesOfAll(excs[1..])
  }

  /** `e` contains `leaf` at some depth. */
  ghost predicate Contains(e: Exc, leaf: Exc)
    decreases e
  {
    match e
    case Group(excs) => exists i :: 0 <= i < |excs| && Contains(excs[i], leaf)
    case _ => e == leaf
  }

  /** Flattening loses no atom and invents none. */
  lemma {:induction false} LeavesAreContained(e: Exc, leaf: Exc)
    ensures leaf in Leaves(e) <==> Contains(e, leaf)
    decreases e, 0
  {
    if e.Group? {
      LeavesOfAllAreContained(e.excs, leaf);
    }
  }

  lemma {:induction false} LeavesOfAllAreContained(excs: seq<Exc>, leaf: Exc)
    ensures leaf in LeavesOfAll(excs) <==> exists i :: 0 <= i < |excs| && Contains(excs[i], leaf)
    decreases excs, 1
  {
    if excs != [] {
      LeavesAreContained(excs[0], leaf);
      LeavesOfAllAreContained(excs[1..], leaf);
      assert forall i :: 0 < i < |excs| ==> excs[i] == excs[1..][i - 1];
    }
  }

  /** A `CancelledError` that a scope raised, or that was raised while handling one. */
  predicate FromScope(e: Exc)
    decreases e
  {
    e.Cancelled? && (e.byScope || (e.context.Some? && FromScope(e.context.value)))
  }

  // ----- who swallows -----

  /** `_parent_cancellation_is_visible_to_us`. */
  predicate ParentVisible(m: Scopes, s: ScopeId)
    requires s in m
  {
    Up(m, s).Some? && !m[s].shield && EffectivelyCancelled(m, Up(m, s).value)
  }

  /** Scope `s` swallows a cancellation that leaves its block. */
  predicate Swallows(m: Scopes, s: ScopeId)
    requires s in m
  {
    m[s].cancelCalled && !ParentVisible(m, s)
  }

  /** The first scope from `s` outwards that swallows a scope cancellation. */
  function Catcher(m: Scopes, s: ScopeId): (c: Option<ScopeId>)
    requires s in m
    decreases m[s].order
  {
    if Swallows(m, s) then Some(s)
    else if Up(m, s).None? then None
    else Catcher(m, Up(m, s).value)
  }

  /** The scopes from `s` outwards up to `c`, without `c`. */
  function Passed(m: Scopes, s: ScopeId, c: ScopeId): (r: seq<ScopeId>)
    requires s in m
    decreases m[s].order
  {
    if s == c then []
    else if Up(m, s).None? then [s]
    else [s] + Passed(m, Up(m, s).value, c)
  }

  /** The scopes that a scope cancellation leaves, from `s` outwards to the one that swallows
      it, each with what its `cancelled_caught` becomes. */
  function Unwind(m: Scopes, s: ScopeId): (r: seq<(ScopeId, bool)>)
    requires s in m
    decreases m[s].order
  {
    if Swallows(m, s) then [(s, true)]
    else if Up(m, s).None? then [(s, false)]
    else [(s, false)] + Unwind(m, Up(m, s).value)
  }

  predicate Encloses(m: Scopes, c: ScopeId, s: ScopeId)
    requires s in m
    decreases m[s].order
  {
    c == s || (Up(m, s).Some? && Encloses(m, c, Up(m, s).value))
  }

  lemma {:induction false} CatcherIsUnseen(m: Scopes, s: ScopeId)
    requires s in m && EffectivelyCancelled(m, s)
    ensures Catcher(m, s).Some?
    ensures var c := Catcher(m, s).value;
            && c in m && Encloses(m, c, s) && m[c].cancelCalled
            && (!m[c].shield && Up(m, c).Some? ==> !EffectivelyCancelled(m, Up(m, c).value))
            && (forall x :: x in Passed(m, s, c) ==>
                  x in m && EffectivelyCancelled(m, x) && !m[x].shield && !Swallows(m, x))
    decreases m[s].order
  {
    if !Swallows(m, s) {
      var p := Up(m, s).value;
      CatcherIsUnseen(m, p);
      var c := Catcher(m, s).value;
      EnclosingIsOlder(m, c, p);
      assert Passed(m, s, c) == [s] + Passed(m, p, c);
    }
  }

  lemma {:induction false} UnwindEndsAtCatcher(m: Scopes, s: ScopeId)
    requires s in m && Catcher(m, s).Some? && Encloses(m, Catcher(m, s).value, s)
    ensures var c := Catcher(m, s).value;
            var left, passed := Unwind(m, s), Passed(m, s, c);
            && |left| == |passed| + 1 && left[|passed|] == (c, true)
            && forall i :: 0 <= i < |passed| ==> left[i] == (passed[i], false)
    decreases m[s].order
  {
    if !Swallows(m, s) {
      var p := Up(m, s).value;
      var c := Catcher(m, s).value;
      CatcherEncloses(m, p);
      EnclosingIsOlder(m, c, p);
      UnwindEndsAtCatcher(m, p);
    }
  }

  lemma {:induction false} CatcherEncloses(m: Scopes, s: ScopeId)
    requires s in m && Catcher(m, s).Some?
    ensures Encloses(m, Catcher(m, s).value, s)
    decreases m[s].order
  {
    if !Swallows(m, s) {
      CatcherEncloses(m, Up(m, s).value);
    }
  }

  /** Unique catcher. A cancellation raised in an effectively cancelled scope is swallowed by
      exactly one enclosing scope: it passes only scopes that are effectively cancelled,
      unshielded and unwilling to swallow it, and beyond the catcher nothing visible is
      cancelled. Of the scopes it leaves, the catcher alone, the last one, ends with
      `cancelled_caught` set. */
  lemma UniqueCatcher(m: Scopes, s: ScopeId)
    requires s in m && EffectivelyCancelled(m, s)
    ensures Catcher(m, s).Some?
    ensures var c := Catcher(m, s).value;
            && c in m && Encloses(m, c, s) && m[c].cancelCalled
            && (!m[c].shield && Up(m, c).Some? ==> !EffectivelyCancelled(m, Up(m, c).value))
            && (forall x :: x in Passed(m, s, c) ==>
                  x in m && EffectivelyCancelled(m, x) && !m[x].shield && !Swallows(m, x))
    ensures var c := Catcher(m, s).value;
            var left, passed := Unwind(m, s), Passed(m, s, c);
            && |left| == |passed| + 1 && left[|passed|] == (c, true)
            && forall i :: 0 <= i < |passed| ==> left[i] == (passed[i], false)
  {
    CatcherIsUnseen(m, s);
    UnwindEndsAtCatcher(m, s);
  }

  lemma {:induction false} EnclosingIsOlder(m: Scopes, c: ScopeId, s: ScopeId)
    requires s in m && Encloses(m, c, s)
    ensures c in m && m[c].order <= m[s].order
    decreases m[s].order
  {
    if c != s {
      EnclosingIsOlder(m, c, Up(m, s).value);
    }
  }

  /** The catcher is the outermost cancelled scope that is visible from `s`: the origin of `s`,
      which delivered the cancellation, is the innermost one. */
  lemma {:induction false} CatcherIsOutermost(m: Scopes, s: ScopeId, o: ScopeId)
    requires s in m && Origin(m, s) == Some(o)
    ensures Catcher(m, s).Some? && Encloses(m, Catcher(m, s).value, o)
    decreases m[s].order
  {
    CancelledHasOrigin(m, s);
    UniqueCatcher(m, s);
    if s != o {
      CatcherIsOutermost(m, Up(m, s).value, o);
    }
  }

  /** A tree with the same parents and flags has the same catchers. */
  lemma SwallowsFrame(m: Scopes, n: Scopes, s: ScopeId)
    requires Ordered(m) && Ordered(n) && SameChains(m, n) && SameFlags(m, n)
    requires s in m && m[s].order > 0
    ensures s in n && Swallows(n, s) == Swallows(m, s)
  {
    assert OrderedAt(m, s) && OrderedAt(n, s);
    if m[s].parent.Some? {
      var p := m[s].parent.value;
      OriginFrame(m, n, p);
      CancelledHasOrigin(m, p);
      CancelledHasOrigin(n, p);
    }
  }

  // ----- exception groups -----

  /** The loop of `__exit__` over the atoms: whether the last atom was swallowed, and how many
      were not. */
  function Scan(m: Scopes, s: ScopeId, leaves: seq<Exc>): (r: (bool, nat))
    requires s in m
  {
    if leaves == [] then (false, 0)
    else
      var before := Scan(m, s, leaves[..|leaves| - 1]);
      var last := leaves[|leaves| - 1];
      if m[s].cancelCalled && last.Cancelled? then
        var swallowed := FromScope(last) && Swallows(m, s);
        (swallowed, if swallowed then before.1 else before.1 + 1)
      else
        (before.0, before.1 + 1)
  }

  ghost predicate AllFromScope(leaves: seq<Exc>) {
    forall i :: 0 <= i < |leaves| ==> FromScope(leaves[i])
  }

  /** What `cancelled_caught` is after that loop. */
  predicate Caught(m: Scopes, s: ScopeId, leaves: seq<Exc>, before: bool)
    requires s in m
  {
    if m[s].cancelCalled && exists i :: 0 <= i < |leaves| && FromScope(leaves[i])
    then Swallows(m, s) else before
  }

  /** A scope that a single scope cancellation leaves ends with `cancelled_caught` set iff it
      swallows it. */
  lemma CaughtIffSwallowed(m: Scopes, s: ScopeId, e: Exc)
    requires s in m && FromScope(e)
    ensures Caught(m, s, [e], false) <==> Swallows(m, s)
    ensures Caught(m, s, [e], false) <==> Scan(m, s, [e]).0 && Scan(m, s, [e]).1 == 0
  {
    assert [e][0] == e && [e][..0] == [];
  }

  /** `__exit__` swallows an exception iff it has an atom, every atom is a cancellation made by
      a scope, and the scope swallows such a cancellation. */
  lemma {:induction false} GroupIsSwallowed(m: Scopes, s: ScopeId, leaves: seq<Exc>)
    requires s in m
    ensures var r := Scan(m, s, leaves);
            && (r.1 == 0 <==> leaves == [] || (AllFromScope(leaves) && Swallows(m, s)))
            && (r.0 && r.1 == 0 <==> leaves != [] && AllFromScope(leaves) && Swallows(m, s))
  {
    if leaves != [] {
      var init := leaves[..|leaves| - 1];
      GroupIsSwallowed(m, s, init);
      var last := leaves[|leaves| - 1];
      assert leaves == init + [last];
      AllOfConcat(init, last);
    }
  }

  /** The loop depends on the tree only through the scope's own decision. */
  lemma {:induction false} ScanFrame(m: Scopes, n: Scopes, s: ScopeId, leaves: seq<Exc>)
    requires s in m && s in n && m[s].cancelCalled == n[s].cancelCalled
    requires Swallows(m, s) == Swallows(n, s)
    ensures Scan(m, s, leaves) == Scan(n, s, leaves)
  {
    if leaves != [] {
      ScanFrame(m, n, s, leaves[..|leaves| - 1]);
    }
  }

  lemma AllOfConcat(init: seq<Exc>, last: Exc)
    ensures AllFromScope(init + [last]) <==> AllFromScope(init) && FromScope(last)
  {
    var s := init + [last];
    assert forall i :: 0 <= i < |init| ==> s[i] == init[i];
    assert s[|init|] == last;
  }

  /** In terms of the exception itself, for groups that are not empty. */
  lemma ExceptionIsSwallowed(m: Scopes, s: ScopeId, e: Exc)
    requires s in m && Leaves(e) != []
    ensures Scan(m, s, Leaves(e)).0 && Scan(m, s, Leaves(e)).1 == 0 <==>
            Swallows(m, s) && forall leaf :: Contains(e, leaf) ==> FromScope(leaf)
  {
    GroupIsSwallowed(m, s, Leaves(e));
    AllAtoms(e);
  }

  lemma AllAtoms(e: Exc)
    ensures AllFromScope(Leaves(e)) <==> forall leaf :: Contains(e, leaf) ==> FromScope(leaf)
  {
    var leaves := Leaves(e);
    if AllFromScope(leaves) {
      forall leaf | Contains(e, leaf)
        ensures FromScope(leaf)
      {
        LeavesAreContained(e, leaf);
        var i :| 0 <= i < |leaves| && leaves[i] == leaf;
      }
    } else {
      var i :| 0 <= i < |leaves| && !FromScope(leaves[i]);
      LeavesAreContained(e, leaves[i]);
      assert leaves[i] in leaves;
    }
  }
}
