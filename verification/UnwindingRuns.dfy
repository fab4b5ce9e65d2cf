/** A scope cancellation on its way out of the running task, one `__exit__` after the other. */
module UnwindingRuns {
  import opened Wrappers
  import opened ScopeTree
  import opened Tasks
  import opened CancelState
  import opened Unwinding
  import CancelRuns
  import CancelExit
  import CancelScopes
  import GroupFrames
  import CT = CancelTheorems

  /** What one `__exit__` did: whether it swallowed the exception, and its `cancelled_caught`. */
  datatype Left = Left(s: ScopeId, swallowed: bool, caught: bool)

  /** The running task leaves the scopes of `path`, and each but the last lets `e` pass. */
  ghost predicate Passes(st: State, e: Exc, path: seq<ScopeId>)
    decreases |path|
  {
    path == [] ||
    (&& KeysOk(st) && Enabled(st, ExitStep(path[0]))
     && (|path| > 1 ==> !CancelScopes.ExitSwallows(st, path[0], Some(e)))
     && Passes(Next(st, ExitStep(path[0])), e, path[1..]))
  }

  ghost function Exits(st: State, e: Exc, path: seq<ScopeId>): seq<Left>
    requires Passes(st, e, path)
    decreases |path|
  {
    if path == [] then []
    else
      [Left(path[0], CancelScopes.ExitSwallows(st, path[0], Some(e)),
            CancelScopes.CaughtAfter(st, path[0], Some(e), false))]
      + Exits(Next(st, ExitStep(path[0])), e, path[1..])
  }

  // ----- one exit -----

  /** An exit keeps the chains and flags on which the other scopes decide. */
  lemma UnlinkDecides(st: State, s: ScopeId, t: TaskId, n: State)
    requires CancelExit.CanUnlink(st, s, t) && n == Unlink(st, s, t)
    ensures SameChains(st.scopes, n.scopes) && SameFlags(st.scopes, n.scopes)
    ensures t in n.places && n.places[t].scope == Up(st.scopes, s)
    ensures st.scopes[s].order > 0
  {
    CancelExit.UnlinkFacts(st, s, t);
    CancelExit.UnlinkFrame(st, s, t, t);
    assert NewAt(st.scopes, st.calls, s) && OrderedAt(st.scopes, s);
  }

  lemma ExitFrame(st: State, s: ScopeId, n: State)
    requires StateOk(st) && Enabled(st, ExitStep(s)) && n == Next(st, ExitStep(s))
    ensures StateOk(n) && n.current == st.current && st.current.value in n.places
    ensures SameChains(st.scopes, n.scopes) && SameFlags(st.scopes, n.scopes)
    ensures n.places[st.current.value].scope == Up(st.scopes, s)
    ensures st.scopes[s].order > 0
  {
    var t := st.current.value;
    CancelExit.ExitKeeps(st, s, t);
    UnlinkDecides(st, s, t, Unlink(st, s, t));
    GroupFrames.RestartLeaves(Unlink(st, s, t), st.scopes[s].parent);
  }

  /** A single scope cancellation is swallowed, and counted as caught, as the tree says. */
  lemma ExitDecides(st: State, s: ScopeId, e: Exc)
    requires s in st.scopes && FromScope(e)
    ensures CancelScopes.ExitSwallows(st, s, Some(e)) == Swallows(st.scopes, s)
    ensures CancelScopes.CaughtAfter(st, s, Some(e), false) == Swallows(st.scopes, s)
  {
    assert Leaves(e) == [e];
    CaughtIffSwallowed(st.scopes, s, e);
  }

  lemma {:induction false} UnwindFrame(m: Scopes, n: Scopes, s: ScopeId)
    requires Ordered(m) && Ordered(n) && SameChains(m, n) && SameFlags(m, n)
    requires s in m && m[s].order > 0
    ensures s in n && Unwind(n, s) == Unwind(m, s)
    decreases m[s].order
  {
    SwallowsFrame(m, n, s);
    assert OrderedAt(m, s) && OrderedAt(n, s);
    if Up(m, s).Some? {
      UnwindFrame(m, n, Up(m, s).value);
    }
  }

  // ----- all of them -----

  /** The first of several exits lets `e` pass, and the rest of the path is as before. */
  lemma FirstExit(st: State, e: Exc, path: seq<ScopeId>, n: State)
    requires StateOk(st) && FromScope(e) && Passes(st, e, path) && |path| > 1
    requires n == Next(st, ExitStep(path[0]))
    ensures path[0] in st.scopes && path[1] in n.scopes && StateOk(n) && Passes(n, e, path[1..])
    ensures Unwind(st.scopes, path[0]) == [(path[0], false)] + Unwind(n.scopes, path[1])
  {
    var s := path[0];
    ExitDecides(st, s, e);
    ExitFrame(st, s, n);
    NextOnPath(n, e, path[1..]);
    assert OrderedAt(st.scopes, s);
    UnwindFrame(st.scopes, n.scopes, path[1]);
  }

  lemma NextOnPath(st: State, e: Exc, path: seq<ScopeId>)
    requires Passes(st, e, path) && path != []
    ensures st.current.Some? && st.current.value in st.places
    ensures st.places[st.current.value].scope == Some(path[0])
  {
  }

  /** The exits do to one scope after the other what the tree said before the first. */
  lemma {:induction false} ExitsUnwind(st: State, e: Exc, path: seq<ScopeId>)
    requires StateOk(st) && FromScope(e) && Passes(st, e, path) && path != []
    ensures path[0] in st.scopes
    ensures |Exits(st, e, path)| == |path| <= |Unwind(st.scopes, path[0])|
    ensures Agree(Exits(st, e, path), path, Unwind(st.scopes, path[0]))
    decreases |path|
  {
    ExitDecides(st, path[0], e);
    if |path| > 1 {
      var n := Next(st, ExitStep(path[0]));
      FirstExit(st, e, path, n);
      ExitsUnwind(n, e, path[1..]);
      AgreeOn(Left(path[0], false, false), Exits(n, e, path[1..]), path, Unwind(n.scopes, path[1]));
    }
  }

  /** Each exit is the one that the tree tells. */
  ghost predicate Agree(left: seq<Left>, path: seq<ScopeId>, unwound: seq<(ScopeId, bool)>) {
    && |left| == |path| <= |unwound|
    && forall i :: 0 <= i < |path| ==>
         left[i] == Left(path[i], unwound[i].1, unwound[i].1) && unwound[i].0 == path[i]
  }

  lemma AgreeOn(first: Left, left: seq<Left>, path: seq<ScopeId>, unwound: seq<(ScopeId, bool)>)
    requires path != [] && Agree(left, path[1..], unwound) && first == Left(path[0], false, false)
    ensures Agree([first] + left, path, [(path[0], false)] + unwound)
  {
  }

  lemma CaughtLast(left: seq<Left>, path: seq<ScopeId>, unwound: seq<(ScopeId, bool)>,
                   passed: seq<ScopeId>, c: ScopeId)
    requires Agree(left, path, unwound) && c !in passed
    requires |unwound| == |passed| + 1 && unwound[|passed|] == (c, true)
    requires forall i :: 0 <= i < |passed| ==> unwound[i] == (passed[i], false)
    ensures forall i :: 0 <= i < |path| ==>
              && left[i].s == path[i]
              && (left[i].swallowed <==> path[i] == c) && (left[i].caught <==> path[i] == c)
              && (path[i] == c ==> i == |path| - 1)
  {
  }

  /** Unique catcher, in a run: when a scope cancellation leaves the scopes of a task one by one,
      starting in a scope that is effectively cancelled, it is swallowed exactly when the
      catcher is left, and the catcher alone ends with `cancelled_caught` set. */
  lemma OneScopeCatches(st: State, e: Exc, path: seq<ScopeId>)
    requires CT.Reachable(st) && FromScope(e) && Passes(st, e, path) && path != []
    requires path[0] in st.scopes && EffectivelyCancelled(st.scopes, path[0])
    ensures Catcher(st.scopes, path[0]).Some?
    ensures var c := Catcher(st.scopes, path[0]).value;
            var left := Exits(st, e, path);
            && |left| == |path|
            && forall i :: 0 <= i < |path| ==>
                 && left[i].s == path[i]
                 && (left[i].swallowed <==> path[i] == c) && (left[i].caught <==> path[i] == c)
                 && (path[i] == c ==> i == |path| - 1)
  {
    CT.ReachableOk(st);
    UniqueCatcher(st.scopes, path[0]);
    ExitsUnwind(st, e, path);
    PassedIsWithout(st.scopes, path[0], Catcher(st.scopes, path[0]).value);
    CaughtLast(Exits(st, e, path), path, Unwind(st.scopes, path[0]),
               Passed(st.scopes, path[0], Catcher(st.scopes, path[0]).value),
               Catcher(st.scopes, path[0]).value);
  }

  /** The catcher is not among the scopes that are passed on the way to it. */
  lemma {:induction false} PassedIsWithout(m: Scopes, s: ScopeId, c: ScopeId)
    requires s in m
    ensures c !in Passed(m, s, c)
    decreases m[s].order
  {
    if s != c && Up(m, s).Some? {
      PassedIsWithout(m, Up(m, s).value, c);
    }
  }

  // ----- who may leave -----

  /** `__exit__` succeeds exactly for the innermost scope that the running task is in: a scope
      that is not active, that another task entered, or that is not the innermost one is refused,
      each with its own error. */
  lemma OnlyInnermostIsLeft(st: State, s: ScopeId, exc: Option<Exc>)
    requires CT.Reachable(st) && st.current.Some? && s in st.scopes
    ensures st.current.value in st.places
    ensures var t := st.current.value;
            var stack := Stack(st.scopes, st.places[t].scope, t);
            var r := CancelScopes.ExitOutcome(st, s, exc);
            && (r.Ok? <==> stack != [] && stack[0] == s)
            && (r == CancelScopes.RuntimeError(CancelScopes.NotActive) <==> !st.scopes[s].active)
            && (r == CancelScopes.RuntimeError(CancelScopes.WrongTask) <==>
                  st.scopes[s].active && s !in stack)
            && (r == CancelScopes.RuntimeError(CancelScopes.NotCurrentScope) <==>
                  s in stack && stack[0] != s)
            && (r.Ok? ==> r.value == CancelScopes.ExitSwallows(st, s, exc))
  {
    var t := st.current.value;
    CT.ReachableOk(st);
    CT.StackIsHosted(st, t, s);
    TopOfStack(st.scopes, st.places[t].scope, t);
  }

  lemma TopOfStack(m: Scopes, x: Option<ScopeId>, t: TaskId)
    ensures var stack := Stack(m, x, t);
            && (stack != [] ==> x == Some(stack[0]))
            && (x.Some? && x.value in m && m[x.value].host == Some(t) ==> stack != [] && stack[0] == x.value)
  {
  }
}
