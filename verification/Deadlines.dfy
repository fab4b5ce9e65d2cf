/** `current_effective_deadline` as a value, and what it means. */
module Deadlines {
  import opened Wrappers
  import opened ScopeTree

  /** A float that is used as a point in time. */
  datatype Deadline = MinusInfinity | At(time: int) | Infinity

  predicate NotAfter(a: Deadline, b: Deadline) {
    a.MinusInfinity? || b.Infinity? || (a.At? && b.At? && a.time <= b.time)
  }

  function Earlier(a: Deadline, b: Deadline): (r: Deadline)
    ensures NotAfter(r, a) && NotAfter(r, b) && (r == a || r == b)
  {
    if NotAfter(a, b) then a else b
  }

  /** What the walk from `s` outwards computes, starting with `sofar`. */
  function EffectiveFrom(m: Scopes, d: map<ScopeId, Deadline>, s: Option<ScopeId>, sofar: Deadline): Deadline
    decreases if s.Some? && s.value in m then m[s.value].order + 1 else 0
  {
    if s.None? || s.value !in m || s.value !in d then sofar
    else
      var next := Earlier(sofar, d[s.value]);
      if m[s.value].cancelCalled then MinusInfinity
      else if m[s.value].shield then next
      else EffectiveFrom(m, d, Up(m, s.value), next)
  }

  /** The scopes that can cut `s` short: from `s` outwards up to the first shield. */
  function Visible(m: Scopes, s: Option<ScopeId>): (r: seq<ScopeId>)
    ensures forall i :: 0 <= i < |r| ==> r[i] in m
    decreases if s.Some? && s.value in m then m[s.value].order + 1 else 0
  {
    if s.None? || s.value !in m then []
    else if m[s.value].shield then [s.value]
    else [s.value] + Visible(m, Up(m, s.value))
  }

  /** Minus infinity exactly when the task is effectively cancelled, otherwise the earliest
      deadline up to the first shield. */
  lemma {:induction false} EffectiveDeadlineMeans(
    m: Scopes, d: map<ScopeId, Deadline>, s: Option<ScopeId>, sofar: Deadline)
    requires d.Keys == m.Keys && (s.Some? ==> s.value in m)
    requires sofar != MinusInfinity && forall x :: x in d ==> d[x] != MinusInfinity
    ensures var e := EffectiveFrom(m, d, s, sofar);
            && (e == MinusInfinity <==> IsCancelled(m, s))
            && (!IsCancelled(m, s) ==>
                  && NotAfter(e, sofar)
                  && (forall i :: 0 <= i < |Visible(m, s)| ==> NotAfter(e, d[Visible(m, s)[i]]))
                  && (e == sofar || exists i :: 0 <= i < |Visible(m, s)| && e == d[Visible(m, s)[i]]))
    decreases if s.Some? then m[s.value].order + 1 else 0
  {
    if s.Some? && !m[s.value].cancelCalled {
      var next := Earlier(sofar, d[s.value]);
      var seen := Visible(m, s);
      assert seen[0] == s.value;
      if !m[s.value].shield {
        var up := Up(m, s.value);
        EffectiveDeadlineMeans(m, d, up, next);
        var rest := Visible(m, up);
        assert seen == [s.value] + rest;
        assert forall i :: 0 <= i < |rest| ==> seen[i + 1] == rest[i];
        assert IsCancelled(m, s) == IsCancelled(m, up);
      }
    }
  }
}
