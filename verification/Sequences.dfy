/** Queues of distinct entries. */
module Sequences {
  ghost predicate NoRepeat(ops: seq<nat>) {
    forall i, j :: 0 <= i < j < |ops| ==> ops[i] != ops[j]
  }

  ghost predicate Rising(s: seq<nat>) {
    forall i, j :: 0 <= i < j < |s| ==> s[i] < s[j]
  }

  lemma RisingAppend(s: seq<nat>, x: nat)
    requires Rising(s) && forall a :: a in s ==> a < x
    ensures Rising(s + [x]) && forall a :: a in s + [x] ==> a <= x
  {
    assert forall i :: 0 <= i < |s| ==> s[i] in s;
  }

  function Without(ops: seq<nat>, op: nat): (r: seq<nat>)
    ensures op !in r
    ensures forall x :: x in r ==> x in ops
  {
    if ops == [] then [] else if ops[0] == op then Without(ops[1..], op) else [ops[0]] + Without(ops[1..], op)
  }

  lemma {:induction false} WithoutAbsent(ops: seq<nat>, op: nat)
    ensures op !in ops ==> Without(ops, op) == ops
  {
    if ops != [] {
      WithoutAbsent(ops[1..], op);
    }
  }

  lemma {:induction false} WithoutKeepsOrder(ops: seq<nat>, op: nat)
    requires NoRepeat(ops)
    ensures NoRepeat(Without(ops, op))
    ensures op !in ops ==> Without(ops, op) == ops
    ensures forall x :: x in ops && x != op ==> x in Without(ops, op)
    ensures |Without(ops, op)| <= |ops|
  {
    if ops != [] {
      WithoutKeepsOrder(ops[1..], op);
      assert ops == [ops[0]] + ops[1..];
      var rest := Without(ops[1..], op);
      if ops[0] == op {
        assert op !in ops[1..];
      } else {
        assert ops[0] !in rest;
      }
    }
  }

  /** What `Without` keeps, and in which order. */
  lemma {:induction false} WithoutKeepsPair(ops: seq<nat>, op: nat, i: nat, j: nat) returns (a: nat, b: nat)
    requires i < j < |Without(ops, op)|
    ensures a < b < |ops| && ops[a] == Without(ops, op)[i] && ops[b] == Without(ops, op)[j]
  {
    if ops[0] == op {
      a, b := WithoutKeepsPair(ops[1..], op, i, j);
      a, b := a + 1, b + 1;
    } else if i == 0 {
      assert Without(ops[1..], op)[j - 1] in ops[1..];
      b :| 0 <= b < |ops| - 1 && ops[1..][b] == Without(ops[1..], op)[j - 1];
      a, b := 0, b + 1;
    } else {
      a, b := WithoutKeepsPair(ops[1..], op, i - 1, j - 1);
      a, b := a + 1, b + 1;
    }
  }

  lemma {:induction false} WithoutKeepsOthers(ops: seq<nat>, op: nat)
    ensures forall x :: x in Without(ops, op) <==> x in ops && x != op
  {
    if ops != [] {
      WithoutKeepsOthers(ops[1..], op);
      assert forall x :: x in ops <==> x == ops[0] || x in ops[1..];
    }
  }

  lemma RisingWithout(ops: seq<nat>, op: nat)
    requires Rising(ops)
    ensures Rising(Without(ops, op)) && forall x :: x in Without(ops, op) <==> x in ops && x != op
  {
    WithoutKeepsOthers(ops, op);
    var r := Without(ops, op);
    forall i, j | 0 <= i < j < |r|
      ensures r[i] < r[j]
    {
      var a, b := WithoutKeepsPair(ops, op, i, j);
    }
  }
}
