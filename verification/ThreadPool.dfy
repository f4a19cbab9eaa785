/** The objects of the scheduler. Each method is one critical section; it does to its object what
    the transition system says it does. */
module ThreadPools {
  import opened Schedulers
  import opened SchedulerLaws

  class ThreadPoolScheduler<X> {
    var todo: seq<Job<X>>
    var activeCount: int
    var threadsShouldJoin: bool
    var threads: seq<Phase<X>>  // where each of the threads is

    ghost var accepted: seq<Job<X>>

    function View(): Pool<X>
      reads this
    {
      Pool(todo, activeCount, threadsShouldJoin, threads)
    }

    constructor (threadCount: nat)
      requires threadCount > 0
      ensures View() == Initial<X>(threadCount, 0).pool && accepted == []
      ensures PoolInvariant(View())
    {
      todo, activeCount, threadsShouldJoin, threads := [], threadCount, false, Entered(threadCount);
      accepted := [];
      new;
      InitialTotals<X>(threadCount, Active);
    }

    /** Queues a job and wakes a single thread for it; `pick` is the waiting thread, if any, that
        the condition variable chooses. */
    method Schedule(job: Job<X>, pick: nat)
      requires Picks(threads, pick)
      modifies this
      ensures View() == Push(old(View()), job, pick) && accepted == old(accepted) + [job]
    {
      todo := todo + [job];
      accepted := accepted + [job];
      if pick < |threads| && threads[pick].Waiting? {
        threads := threads[pick := Notified];
      }
    }

    predicate IdleCondition()
      reads this
      ensures IdleCondition() <==> Idle(View())
    {
      |todo| == 0 && activeCount == 0
    }

    /** What a thread does between taking the lock and waiting, returning, or running a job. Neither
        does the unsigned count underflow, nor does the check for the destructor fail. */
    method LookForWork(t: nat)
      requires PoolInvariant(View()) && t < |threads| && (threads[t].Entering? || threads[t].Notified?)
      modifies this
      ensures var before := old(View());
              View() == Look(if before.threads[t].Entering? then before.(activeCount := before.activeCount - 1) else before, t)
      ensures PoolInvariant(View()) && activeCount >= 0 && accepted == old(accepted)
    {
      TotalHas(threads, Active, t);
      if threads[t].Entering? {
        assert activeCount > 0;
        activeCount := activeCount - 1;
      }
      LookKeeps(View(), t);
      if todo == [] {
        threads := threads[t := if threadsShouldJoin then Exited else Waiting];
        return;
      }
      assert !threadsShouldJoin;
      threads := threads[t := Running(todo[0])];
      todo := todo[1..];
      activeCount := activeCount + 1;
    }

    /** The destructor's critical section; the pool must be idle. All waiting threads are woken. */
    method Destroy()
      requires PoolInvariant(View()) && !threadsShouldJoin && IdleCondition()
      modifies this
      ensures View() == old(View()).(shouldJoin := true, threads := SignalAll(old(threads)))
      ensures accepted == old(accepted)
    {
      threadsShouldJoin := true;
      for t := 0 to |threads|
        invariant |threads| == |old(threads)| && todo == old(todo) && activeCount == old(activeCount)
        invariant threadsShouldJoin && accepted == old(accepted)
        invariant forall u :: 0 <= u < |threads| ==>
                    threads[u] == if u < t && old(threads)[u].Waiting? then Notified else old(threads)[u]
      {
        if threads[t].Waiting? {
          threads := threads[t := Notified];
        }
      }
    }
  }

  class WorkerImpl<X> {
    const scheduler: ThreadPoolScheduler<X>
    const id: nat  // tells the workers of a scheduler apart

    var running: bool
    var steps: seq<X>

    ghost var scheduled: seq<X>
    ghost var finished: seq<X>

    ghost function View(): Worker<X>
      reads this
    {
      Worker(running, steps, scheduled, finished)
    }

    constructor (scheduler: ThreadPoolScheduler<X>, id: nat)
      ensures View() == Worker(false, [], [], []) && this.scheduler == scheduler && this.id == id
    {
      this.scheduler, this.id := scheduler, id;
      running, steps, scheduled, finished := false, [], [], [];
    }

    /** This worker and its pool as part of the whole system. */
    ghost predicate PartOf(s: System<X>)
      reads this, scheduler
    {
      id < |s.workers| && s.workers[id] == View() && s.pool == scheduler.View() && s.accepted == scheduler.accepted
    }

    /** The rest of the system is not touched. */
    ghost predicate Leads(s: System<X>, next: System<X>)
      requires id < |s.workers|
      reads this, scheduler
    {
      PartOf(next) && next == s.(workers := s.workers[id := View()], pool := scheduler.View(), accepted := scheduler.accepted)
    }

    method Schedule(task: X, pick: nat, ghost s: System<X>)
      requires PartOf(s) && Picks(s.pool.threads, pick)
      modifies this, scheduler
      ensures Leads(s, Scheduled(s, OnWorker(id), task, pick))
    {
      steps := steps + [task];
      scheduled := scheduled + [task];
      MaybeRunNext(pick, s.(workers := s.workers[id := View()]));
    }

    method MaybeRunNext(pick: nat, ghost s: System<X>)
      requires PartOf(s) && Picks(s.pool.threads, pick)
      modifies this, scheduler
      ensures Leads(s, RunNext(s, id, pick))
    {
      if running || |steps| == 0 {
        return;
      }
      var task := steps[0];
      steps := steps[1..];
      running := true;
      scheduler.Schedule(Wrapped(id, task), pick);
    }

    /** The end of the wrapper that runs a task, executed by thread `t` when the task has returned. */
    method AfterTask(t: nat, pick: nat, ghost s: System<X>)
      requires PartOf(s) && t < |s.pool.threads| && s.pool.threads[t].Returning?
      requires s.pool.threads[t].job.Wrapped? && s.pool.threads[t].job.worker == id
      requires Picks(s.pool.threads, pick)
      modifies this, scheduler
      ensures var over := s.(completed := s.completed + [s.pool.threads[t].job]);
              Leads(over, Returned(s, t, pick))
    {
      ghost var over := s.(completed := s.completed + [s.pool.threads[t].job]);
      scheduler.threads := scheduler.threads[t := Entering];  // the thread goes on to its next job
      running := false;
      assert SomeoneWaits(scheduler.threads) ==> SomeoneWaits(s.pool.threads);
      MaybeRunNext(pick, over.(workers := s.workers[id := View()], pool := scheduler.View()));
    }
  }
}
