/** The pool of worker processes, over all interleavings of concurrent calls. */
module PoolState {
  import opened Wrappers
  import opened IdleWorkers

  /** `busy` are the processes that calls have reserved, `known` all that ever started. */
  datatype State = State(workers: set<Worker>, idle: seq<Idle>, busy: set<Worker>, known: set<Worker>, clock: int)

  const NEW := State({}, [], {}, {}, 0)

  /** The loop that pops from the young end until it meets a process in `alive`: that process,
      what is left of the deque, and the dead ones it met. */
  function Pick(idle: seq<Idle>, alive: set<Worker>): (r: (Option<Worker>, seq<Idle>, set<Worker>))
    decreases |idle|
  {
    if idle == [] then (None, [], {})
    else
      var last := idle[|idle| - 1];
      var rest := idle[..|idle| - 1];
      if last.worker in alive then (Some(last.worker), rest, {})
      else
        var (p, left, dead) := Pick(rest, alive);
        (p, left, dead + {last.worker})
  }

  /** `run_sync` looks for a process to reuse. */
  function Reserve(st: State, alive: set<Worker>, now: int): (State, Option<Worker>) {
    var (p, rest, dead) := Pick(st.idle, alive);
    if p.None? then (st.(idle := [], workers := st.workers - dead, clock := now), None)
    else
      var kept := Prune(rest, now);
      (st.(idle := kept,
           workers := st.workers - dead - (Names(rest) - Names(kept)),
           busy := st.busy + {p.value}, clock := now),
       p)
  }

  /** A new process has answered its first command. */
  function Started(st: State, p: Worker): State {
    st.(workers := st.workers + {p}, busy := st.busy + {p}, known := st.known + {p})
  }

  /** A command failed or was cancelled: the process is killed. */
  function Discard(st: State, p: Worker): State {
    st.(workers := st.workers - {p})
  }

  /** The call ends: a process that is still a worker becomes idle. */
  function Finish(st: State, p: Worker, now: int): State {
    st.(idle := if p in st.workers then st.idle + [Idle(p, now)] else st.idle,
        busy := st.busy - {p}, clock := now)
  }

  datatype Step =
    | DoReserve(alive: set<Worker>, now: int)
    | DoStarted(p: Worker)
    | DoDiscard(p: Worker)
    | DoFinish(p: Worker, now: int)

  predicate Enabled(st: State, step: Step) {
    match step
    case DoReserve(alive, now) => now >= st.clock
    case DoStarted(p) => p !in st.known
    case DoDiscard(p) => p in st.busy
    case DoFinish(p, now) => p in st.busy && now >= st.clock
  }

  function Next(st: State, step: Step): State
    requires Enabled(st, step)
  {
    match step
    case DoReserve(alive, now) => Reserve(st, alive, now).0
    case DoStarted(p) => Started(st, p)
    case DoDiscard(p) => Discard(st, p)
    case DoFinish(p, now) => Finish(st, p, now)
  }

  predicate Runs(st: State, steps: seq<Step>)
    decreases |steps|
  {
    steps == [] || (Enabled(st, steps[0]) && Runs(Next(st, steps[0]), steps[1..]))
  }

  function After(st: State, steps: seq<Step>): State
    requires Runs(st, steps)
    decreases |steps|
  {
    if steps == [] then st else After(Next(st, steps[0]), steps[1..])
  }

  predicate IdleAt(st: State, e: Idle) {
    e.since <= st.clock && e.worker in st.workers && e.worker !in st.busy
  }

  /** Idle processes are listed once, in the order in which they became idle, and are workers
      that no call uses; every worker that no call uses is listed. */
  ghost predicate Ok(st: State) {
    && Distinct(st.idle) && Sorted(st.idle)
    && (forall e {:trigger IdleAt(st, e)} :: e in st.idle ==> IdleAt(st, e))
    && st.workers <= st.known && st.busy <= st.known
    && st.workers <= st.busy + Names(st.idle)
  }

  /** The most recently idle process that is alive is reused; those behind it are dead. */
  lemma {:induction false} PickIsMostRecent(idle: seq<Idle>, alive: set<Worker>) returns (k: nat)
    ensures k <= |idle|
    ensures var (p, rest, dead) := Pick(idle, alive);
            && (k == 0 ==> p == None && rest == [])
            && (k > 0 ==> p == Some(idle[k - 1].worker) && p.value in alive && rest == idle[..k - 1])
            && (forall j :: k <= j < |idle| ==> idle[j].worker !in alive)
            && dead == Names(idle[k..])
    decreases |idle|
  {
    if idle == [] {
      k := 0;
    } else {
      var last := idle[|idle| - 1];
      var rest := idle[..|idle| - 1];
      if last.worker in alive {
        k := |idle|;
        assert idle[k..] == [];
      } else {
        k := PickIsMostRecent(rest, alive);
        assert idle[k..] == rest[k..] + [last];
        assert k > 0 ==> rest[..k - 1] == idle[..k - 1];
        assert forall e :: e in idle[k..] <==> e in rest[k..] || e == last;
      }
    }
  }

  /** What a call finds: the most recently idle process that is alive, if there is one; then
      of those idle for longer exactly the expired ones are killed, and all workers that are
      gone from the pool are the dead ones it met and the killed ones. */
  lemma ReserveMeans(st: State, alive: set<Worker>, now: int) returns (k: nat)
    requires Ok(st)
    ensures var (n, p) := Reserve(st, alive, now);
            && k <= |st.idle|
            && (forall j :: k <= j < |st.idle| ==> st.idle[j].worker !in alive)
            && (p == None <==> k == 0)
            && (p == None ==> n.idle == [] && n.workers == st.workers - Names(st.idle))
            && (p.Some? ==>
                  && p.value == st.idle[k - 1].worker && p.value in alive && p.value in n.workers
                  && n.idle == Youngest(st.idle[..k - 1], now)
                  && forall w :: w in n.workers <==>
                       w in st.workers && w !in Names(st.idle[k..])
                       && forall i :: 0 <= i < k - 1 && st.idle[i].worker == w ==> Young(st.idle[i], now))
  {
    k := PickIsMostRecent(st.idle, alive);
    if k == 0 {
      assert st.idle[0..] == st.idle;
    } else {
      var rest := st.idle[..k - 1];
      PruneIsExact(rest, now);
      var d := PruneIsSuffix(rest, now);
      KilledAreExpired(rest, d, now);
      var p := st.idle[k - 1].worker;
      assert st.idle[k - 1] in st.idle && IdleAt(st, st.idle[k - 1]);
      NotAmong(st.idle, k - 1);
      var n := Reserve(st, alive, now).0;
      forall w
        ensures w in n.workers <==>
                  w in st.workers && w !in Names(st.idle[k..])
                  && forall i :: 0 <= i < k - 1 && st.idle[i].worker == w ==> Young(st.idle[i], now)
      {
        assert forall i :: 0 <= i < k - 1 ==> rest[i] == st.idle[i];
      }
    }
  }

  /** Of distinct workers, the names that pruning removes are those of the expired entries. */
  lemma KilledAreExpired(rest: seq<Idle>, d: nat, now: int)
    requires Distinct(rest) && Sorted(rest) && d <= |rest| && Prune(rest, now) == rest[d..]
    requires forall i :: 0 <= i < d ==> !Young(rest[i], now)
    ensures forall w :: w in Names(rest) - Names(rest[d..]) <==>
              exists i :: 0 <= i < |rest| && rest[i].worker == w && !Young(rest[i], now)
  {
    PruneIsYoung(rest, now);
    forall w
      ensures w in Names(rest) - Names(rest[d..]) <==>
                exists i :: 0 <= i < |rest| && rest[i].worker == w && !Young(rest[i], now)
    {
      if w in Names(rest) {
        var e :| e in rest && e.worker == w;
        var i :| 0 <= i < |rest| && rest[i] == e;
        if i < d {
          forall f | f in rest[d..]
            ensures f.worker != w
          {
            var j :| 0 <= j < |rest[d..]| && rest[d..][j] == f;
            assert rest[d + j] == f;
          }
        } else {
          assert rest[d..][i - d] == e;
          assert e in rest[d..];
          assert forall j :: 0 <= j < |rest| && rest[j].worker == w ==> j == i;
        }
      }
    }
  }

  lemma {:induction false} PruneIsYoung(idle: seq<Idle>, now: int)
    requires Sorted(idle)
    ensures forall e :: e in Prune(idle, now) ==> Young(e, now)
  {
    if idle != [] && !Young(idle[0], now) {
      PruneIsYoung(idle[1..], now);
    }
  }

  lemma NotAmong(idle: seq<Idle>, k: nat)
    requires Distinct(idle) && k < |idle|
    ensures idle[k].worker !in Names(idle[..k]) && idle[k].worker !in Names(idle[k + 1..])
  {
    forall e | e in idle[..k] || e in idle[k + 1..]
      ensures e.worker != idle[k].worker
    {
      if e in idle[..k] {
        var i :| 0 <= i < k && idle[i] == e;
      } else {
        var i :| 0 <= i < |idle| - k - 1 && idle[k + 1..][i] == e;
        assert idle[k + 1 + i] == e;
      }
    }
  }

  lemma SliceKeepsOrder(idle: seq<Idle>, d: nat, k: nat)
    requires Distinct(idle) && Sorted(idle) && d <= k <= |idle|
    ensures Distinct(idle[d..k]) && Sorted(idle[d..k])
  {
  }

  /** A young entry below the picked one stays a worker that no call uses. */
  lemma KeptIsIdle(st: State, n: State, now: int, k: nat, i: nat)
    requires Ok(st) && now >= st.clock && i + 1 < k <= |st.idle| && Young(st.idle[i], now)
    requires && n.busy == st.busy + {st.idle[k - 1].worker} && n.clock == now
             && forall w :: w in n.workers <==>
                  w in st.workers && w !in Names(st.idle[k..])
                  && forall j :: 0 <= j < k - 1 && st.idle[j].worker == w ==> Young(st.idle[j], now)
    ensures IdleAt(n, st.idle[i])
  {
    var e := st.idle[i];
    assert e in st.idle && IdleAt(st, e);
    NotIn(st.idle, i, k);
    assert forall j :: 0 <= j < k - 1 && st.idle[j].worker == e.worker ==> j == i;
  }

  /** What is left of the deque is a stretch of young entries below the picked one. */
  lemma KeptIsStretch(idle: seq<Idle>, k: nat, now: int) returns (d: nat)
    requires Distinct(idle) && Sorted(idle) && 0 < k <= |idle|
    ensures d < k && Youngest(idle[..k - 1], now) == idle[d..k - 1]
    ensures Distinct(idle[d..k - 1]) && Sorted(idle[d..k - 1])
    ensures forall i :: d <= i < k - 1 ==> Young(idle[i], now)
    ensures forall i :: 0 <= i < d ==> !Young(idle[i], now)
  {
    var rest := idle[..k - 1];
    SliceKeepsOrder(idle, 0, k - 1);
    d := PruneIsSuffix(rest, now);
    PruneIsExact(rest, now);
    PruneIsYoung(rest, now);
    assert rest[d..] == idle[d..k - 1];
    SliceKeepsOrder(idle, d, k - 1);
    forall i | d <= i < k - 1
      ensures Young(idle[i], now)
    {
      assert idle[i] == rest[d..][i - d];
    }
  }

  lemma ReserveKeeps(st: State, alive: set<Worker>, now: int)
    requires Ok(st) && now >= st.clock
    ensures Ok(Reserve(st, alive, now).0)
  {
    var (n, p) := Reserve(st, alive, now);
    var k := ReserveMeans(st, alive, now);
    if p.Some? {
      PickedKeeps(st, n, now, k);
    }
  }

  lemma PickedKeeps(st: State, n: State, now: int, k: nat)
    requires Ok(st) && now >= st.clock && 0 < k <= |st.idle|
    requires && n.busy == st.busy + {st.idle[k - 1].worker} && n.clock == now && n.known == st.known
             && n.idle == Youngest(st.idle[..k - 1], now)
             && forall w :: w in n.workers <==>
                  w in st.workers && w !in Names(st.idle[k..])
                  && forall j :: 0 <= j < k - 1 && st.idle[j].worker == w ==> Young(st.idle[j], now)
    ensures Ok(n)
  {
    var d := KeptIsStretch(st.idle, k, now);
    assert st.idle[k - 1] in st.idle && IdleAt(st, st.idle[k - 1]);
    forall i | 0 <= i < |n.idle|
      ensures IdleAt(n, n.idle[i])
    {
      KeptIsIdle(st, n, now, k, d + i);
    }
    forall w | w in n.workers
      ensures w in n.busy + Names(n.idle)
    {
      KeptIsAccountedFor(st, n, now, k, d, w);
    }
  }

  /** A worker that is left is the picked one, was used before, or stays idle. */
  lemma KeptIsAccountedFor(st: State, n: State, now: int, k: nat, d: nat, w: Worker)
    requires Ok(st) && d < k <= |st.idle| && w in st.workers
    requires n.busy == st.busy + {st.idle[k - 1].worker} && n.idle == st.idle[d..k - 1]
    requires forall i :: 0 <= i < d ==> !Young(st.idle[i], now)
    requires w !in Names(st.idle[k..])
    requires forall i :: 0 <= i < k - 1 && st.idle[i].worker == w ==> Young(st.idle[i], now)
    ensures w in n.busy + Names(n.idle)
  {
    if w !in st.busy {
      var e :| e in st.idle && e.worker == w;
      var i :| 0 <= i < |st.idle| && st.idle[i] == e;
      AmongBehind(st.idle, k);
      if i < k - 1 {
        assert n.idle[i - d] == e;
        assert e in n.idle;
      }
    }
  }

  lemma AmongBehind(idle: seq<Idle>, k: nat)
    requires k <= |idle|
    ensures forall i :: k <= i < |idle| ==> idle[i].worker in Names(idle[k..])
  {
    forall i | k <= i < |idle|
      ensures idle[i].worker in Names(idle[k..])
    {
      assert idle[k..][i - k] == idle[i];
      assert idle[i] in idle[k..];
    }
  }

  lemma NotIn(idle: seq<Idle>, i: nat, k: nat)
    requires Distinct(idle) && i < k <= |idle|
    ensures idle[i].worker !in Names(idle[k..])
  {
    forall e | e in idle[k..]
      ensures e.worker != idle[i].worker
    {
      var j :| 0 <= j < |idle| - k && idle[k..][j] == e;
      assert idle[k + j] == e;
    }
  }

  lemma FinishKeeps(st: State, p: Worker, now: int)
    requires Ok(st) && p in st.busy && now >= st.clock
    ensures Ok(Finish(st, p, now))
  {
    var n := Finish(st, p, now);
    assert forall i :: 0 <= i < |st.idle| ==> st.idle[i] in st.idle && IdleAt(st, st.idle[i]);
    forall e | e in n.idle
      ensures IdleAt(n, e)
    {
      assert e in st.idle || e == Idle(p, now);
      assert e in st.idle ==> IdleAt(st, e);
    }
  }

  lemma StepKeeps(st: State, step: Step)
    requires Ok(st) && Enabled(st, step)
    ensures Ok(Next(st, step))
  {
    match step
    case DoReserve(alive, now) => ReserveKeeps(st, alive, now);
    case DoStarted(p) =>
      assert forall e :: e in st.idle ==> IdleAt(st, e);
    case DoDiscard(p) =>
      assert forall e :: e in st.idle ==> IdleAt(st, e);
    case DoFinish(p, now) =>
      FinishKeeps(st, p, now);
  }

  lemma {:induction false} RunKeeps(st: State, steps: seq<Step>)
    requires Ok(st) && Runs(st, steps)
    ensures Ok(After(st, steps))
    decreases |steps|
  {
    if steps != [] {
      StepKeeps(st, steps[0]);
      RunKeeps(Next(st, steps[0]), steps[1..]);
    }
  }

  /** Over every interleaving of calls the deque is duplicate-free and sorted, and idle
      processes are workers that no call uses. */
  lemma PoolStaysInOrder(steps: seq<Step>)
    requires Runs(NEW, steps)
    ensures Ok(After(NEW, steps))
  {
    RunKeeps(NEW, steps);
  }

  /** No worker is lost: over every interleaving it is idle or used by a call, and not both. */
  lemma WorkersAreAccountedFor(steps: seq<Step>, w: Worker)
    requires Runs(NEW, steps)
    ensures var st := After(NEW, steps);
            w in st.workers ==> (w in Names(st.idle) <==> w !in st.busy)
  {
    RunKeeps(NEW, steps);
    var st := After(NEW, steps);
    assert forall e :: e in st.idle ==> IdleAt(st, e);
  }

  /** When a call ends with its process still a worker, that is the youngest idle process, stamped
      now, and the next call that finds it alive reuses it. Another process is not put back. */
  lemma FinishMeans(st: State, p: Worker, now: int)
    requires Ok(st) && p in st.busy && now >= st.clock
    ensures var n := Finish(st, p, now);
            && p !in n.busy && n.busy == st.busy - {p} && n.workers == st.workers
            && (p in st.workers ==> n.idle == st.idle + [Idle(p, now)])
            && (p !in st.workers ==> n.idle == st.idle)
    ensures forall alive, later :: p in st.workers && p in alive ==>
              Reserve(Finish(st, p, now), alive, later).1 == Some(p)
  {
  }

  /** A call gets a process that no other call uses, and uses it from then on. */
  lemma ReservedIsFree(st: State, alive: set<Worker>, now: int)
    requires Ok(st) && now >= st.clock
    ensures var (n, p) := Reserve(st, alive, now);
            && (p.Some? ==> p.value in st.workers && p.value !in st.busy && n.busy == st.busy + {p.value})
            && (p.None? ==> n.busy == st.busy)
            && n.known == st.known
  {
    var k := PickIsMostRecent(st.idle, alive);
    if k > 0 {
      assert st.idle[k - 1] in st.idle && IdleAt(st, st.idle[k - 1]);
    }
  }

  /** A new process is a worker that its call uses; one whose command failed is no worker, and
      no process that has left the workers ever comes back. */
  lemma GoneForGood(st: State, step: Step, w: Worker)
    requires Ok(st) && Enabled(st, step)
    ensures step.DoStarted? ==> step.p in Next(st, step).workers && step.p in Next(st, step).busy
    ensures step.DoDiscard? ==> step.p !in Next(st, step).workers && step.p in Next(st, step).known
    ensures w in st.known && w !in st.workers ==> w in Next(st, step).known && w !in Next(st, step).workers
    ensures w in st.workers && !step.DoReserve? && step != DoDiscard(w) ==> w in Next(st, step).workers
  {
    if step.DoReserve? {
      ReservedIsFree(st, step.alive, step.now);
    }
  }

  lemma IdleAreWorkers(st: State)
    requires Ok(st)
    ensures Names(st.idle) <= st.workers
  {
    assert forall e :: e in st.idle ==> IdleAt(st, e);
  }

  /** Popping from `idle`, after the processes in `dead`, ends as popping from `all` does. */
  ghost predicate PicksAlike(all: seq<Idle>, idle: seq<Idle>, alive: set<Worker>, dead: set<Worker>) {
    var (p, rest, found) := Pick(all, alive);
    var (q, left, more) := Pick(idle, alive);
    p == q && rest == left && found == more + dead
  }
}
