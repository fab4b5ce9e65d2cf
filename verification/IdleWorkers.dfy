/**
 The deque of idle workers: each with the time since when it is idle, the youngest last. Time is
 a nondecreasing integer.
 */
module IdleWorkers {

  type Worker = nat

  datatype Idle = Idle(worker: Worker, since: int)

  const MAX_IDLE_TIME := 300

  predicate Young(e: Idle, now: int) {
    now - e.since < MAX_IDLE_TIME
  }

  /** The pruning loop: it drops from the old end until it meets a young entry. */
  function Prune(idle: seq<Idle>, now: int): seq<Idle> {
    if idle == [] || Young(idle[0], now) then idle else Prune(idle[1..], now)
  }

  /** The entries that are young, in order. */
  function Youngest(idle: seq<Idle>, now: int): seq<Idle> {
    if idle == [] then []
    else (if Young(idle[0], now) then [idle[0]] else []) + Youngest(idle[1..], now)
  }

  ghost predicate Sorted(idle: seq<Idle>) {
    forall i, j :: 0 <= i < j < |idle| ==> idle[i].since <= idle[j].since
  }

  ghost predicate Distinct(idle: seq<Idle>) {
    forall i, j :: 0 <= i < j < |idle| ==> idle[i].worker != idle[j].worker
  }

  function Names(idle: seq<Idle>): set<Worker> {
    set e | e in idle :: e.worker
  }

  lemma {:induction false} AllYoung(idle: seq<Idle>, now: int)
    requires forall i :: 0 <= i < |idle| ==> Young(idle[i], now)
    ensures Youngest(idle, now) == idle
  {
    if idle != [] {
      AllYoung(idle[1..], now);
      assert idle == [idle[0]] + idle[1..];
    }
  }

  /** Pruning keeps, in order, the workers idle for less than 300 seconds and no others. */
  lemma {:induction false} PruneKeeps(idle: seq<Idle>, now: int)
    requires Sorted(idle)
    ensures forall e :: e in Prune(idle, now) <==> e in idle && now < e.since + 300
    ensures |Prune(idle, now)| <= |idle| && Prune(idle, now) == idle[|idle| - |Prune(idle, now)|..]
  {
    if idle != [] {
      if Young(idle[0], now) {
        assert forall i :: 0 <= i < |idle| ==> idle[0].since <= idle[i].since;
      } else {
        PruneKeeps(idle[1..], now);
      }
    }
  }

  /** On a sorted deque, stopping at the first young entry drops exactly the expired ones. */
  lemma {:induction false} PruneIsExact(idle: seq<Idle>, now: int)
    requires Sorted(idle)
    ensures Prune(idle, now) == Youngest(idle, now)
  {
    if idle == [] {
    } else if Young(idle[0], now) {
      AllYoung(idle, now);
    } else {
      PruneIsExact(idle[1..], now);
    }
  }

  /** What is pruned is a prefix. */
  lemma {:induction false} PruneIsSuffix(idle: seq<Idle>, now: int) returns (k: nat)
    ensures k <= |idle| && Prune(idle, now) == idle[k..]
    ensures forall i :: 0 <= i < k ==> !Young(idle[i], now)
  {
    if idle == [] || Young(idle[0], now) {
      k := 0;
    } else {
      var j := PruneIsSuffix(idle[1..], now);
      k := j + 1;
      assert idle[1..][j..] == idle[k..];
      forall i | 0 <= i < k
        ensures !Young(idle[i], now)
      {
        assert i > 0 ==> idle[i] == idle[1..][i - 1];
      }
    }
  }
}
