/** The pool of worker processes as `run_sync` changes it. Every method does what `PoolState`
 says. */
module ProcessPools {
  import opened Wrappers
  import opened IdleWorkers
  import opened PoolState

  class ProcessPool {
    var workers: set<Worker>
    var idleWorkers: seq<Idle>
    ghost var busy: set<Worker>
    ghost var known: set<Worker>
    ghost var clock: int

    ghost function View(): State
      reads this
    {
      State(workers, idleWorkers, busy, known, clock)
    }

    constructor ()
      ensures View() == NEW && Ok(View())
    {
      workers, idleWorkers, busy, known, clock := {}, [], {}, {}, 0;
    }

    /** `workers.remove(process)`, which raises if there is no such worker. */
    method Remove(p: Worker)
      requires p in workers
      modifies this`workers
      ensures workers == old(workers) - {p}
    {
      workers := workers - {p};
    }

    /** Drops the workers that have been idle for too long, from the old end. */
    method PruneIdle(now: int)
      requires Distinct(idleWorkers) && Names(idleWorkers) <= workers
      modifies this`workers, this`idleWorkers
      ensures idleWorkers == Prune(old(idleWorkers), now)
      ensures workers == old(workers) - (Names(old(idleWorkers)) - Names(idleWorkers))
    {
      ghost var rest := idleWorkers;
      ghost var all := workers;
      while idleWorkers != []
        invariant Prune(idleWorkers, now) == Prune(rest, now)
        invariant Distinct(idleWorkers) && Names(idleWorkers) <= workers && Names(idleWorkers) <= Names(rest)
        invariant workers == all - (Names(rest) - Names(idleWorkers))
        decreases |idleWorkers|
      {
        if now - idleWorkers[0].since < MAX_IDLE_TIME {
          break;
        }
        var killed := idleWorkers[0].worker;
        ghost var before := idleWorkers;
        assert before[0] in before;
        NotAmong(before, 0);
        idleWorkers := idleWorkers[1..];
        assert forall e :: e in before <==> e == before[0] || e in idleWorkers;
        assert Names(before) == Names(idleWorkers) + {killed};
        Remove(killed);
      }
    }

    /** Looks for a process to reuse. */
    method Reserve(alive: set<Worker>, now: int) returns (p: Option<Worker>)
      requires Ok(View()) && now >= clock
      modifies this
      ensures Ok(View()) && (View(), p) == PoolState.Reserve(old(View()), alive, now)
    {
      ReserveKeeps(View(), alive, now);
      ghost var st := View();
      ghost var dead: set<Worker> := {};
      IdleAreWorkers(st);
      while idleWorkers != []
        invariant PicksAlike(st.idle, idleWorkers, alive, dead)
        invariant Distinct(idleWorkers) && Names(idleWorkers) <= workers
        invariant workers == st.workers - dead && busy == st.busy && known == st.known
        decreases |idleWorkers|
      {
        var last := idleWorkers[|idleWorkers| - 1];
        ghost var before := idleWorkers;
        assert last in before;
        NotAmong(before, |before| - 1);
        idleWorkers := idleWorkers[..|idleWorkers| - 1];
        assert forall e :: e in idleWorkers ==> e in before;
        if last.worker in alive {
          PruneIdle(now);
          busy, clock := busy + {last.worker}, now;
          return Some(last.worker);
        }
        Remove(last.worker);
        dead := dead + {last.worker};
      }
      clock := now;
      p := None;
    }

    method Start(p: Worker)
      requires Ok(View()) && p !in known
      modifies this`workers, this`busy, this`known
      ensures Ok(View()) && View() == Started(old(View()), p)
    {
      StepKeeps(View(), DoStarted(p));
      workers := workers + {p};
      busy, known := busy + {p}, known + {p};
    }

    /** `workers.discard(process)` when a command fails. */
    method Discard(p: Worker)
      requires Ok(View()) && p in busy
      modifies this`workers
      ensures Ok(View()) && View() == PoolState.Discard(old(View()), p)
    {
      StepKeeps(View(), DoDiscard(p));
      workers := workers - {p};
    }

    /** The `finally` block of `run_sync`. */
    method Finish(p: Worker, now: int)
      requires Ok(View()) && p in busy && now >= clock
      modifies this`idleWorkers, this`busy, this`clock
      ensures Ok(View()) && View() == PoolState.Finish(old(View()), p, now)
    {
      FinishKeeps(View(), p, now);
      if p in workers {
        idleWorkers := idleWorkers + [Idle(p, now)];
      }
      busy, clock := busy - {p}, now;
    }
  }
}
