/** The thread pool and its serial workers as a transition system. A step is one critical section
    or the end of one task, so that every interleaving of any number of threads is a run. */
module Schedulers {
  /** What the pool queues: a task scheduled on the pool itself, or the wrapper in which a worker
      runs one of its tasks. */
  datatype Job<X> = Plain(task: X) | Wrapped(worker: nat, task: X)

  /** Where a pool thread is. Before it takes the lock to look for work it is Entering. Waiting on
      the condition variable it does not hold the lock; Notified, it has not retaken it yet.
      Returning, it has finished a worker's task but not yet taken that worker's lock. */
  datatype Phase<X> = Entering | Waiting | Notified | Running(job: Job<X>) | Returning(job: Job<X>) | Exited

  datatype Pool<X> = Pool(todo: seq<Job<X>>, activeCount: int, shouldJoin: bool, threads: seq<Phase<X>>)

  /** A worker, with the tasks ever scheduled on it and those of them that have finished. */
  datatype Worker<X> = Worker(running: bool, steps: seq<X>, scheduled: seq<X>, finished: seq<X>)

  /** The scheduler, with the jobs ever pushed and those of them that are over. */
  datatype System<X> = System(pool: Pool<X>, workers: seq<Worker<X>>,
                                  accepted: seq<Job<X>>, completed: seq<Job<X>>)

  // ----- the critical sections -----

  /** Signalling wakes one waiting thread, whichever the condition variable picks. */
  function Signal<X>(threads: seq<Phase<X>>, pick: nat): seq<Phase<X>> {
    if pick < |threads| && threads[pick].Waiting? then threads[pick := Notified] else threads
  }

  predicate Picks<X>(threads: seq<Phase<X>>, pick: nat) {
    (exists t :: 0 <= t < |threads| && threads[t].Waiting?) ==> pick < |threads| && threads[pick].Waiting?
  }

  function SignalAll<X>(threads: seq<Phase<X>>): (woken: seq<Phase<X>>)
    ensures |woken| == |threads|
    ensures forall t :: 0 <= t < |threads| ==> woken[t] == if threads[t].Waiting? then Notified else threads[t]
  {
    seq(|threads|, t requires 0 <= t < |threads| => if threads[t].Waiting? then Notified else threads[t])
  }

  /** The pool's Schedule. */
  function Push<X>(pool: Pool<X>, job: Job<X>, pick: nat): Pool<X> {
    pool.(todo := pool.todo + [job], threads := Signal(pool.threads, pick))
  }

  /** A thread that has the lock takes a job, exits or waits. */
  function Look<X>(pool: Pool<X>, t: nat): Pool<X>
    requires t < |pool.threads|
  {
    if pool.todo == [] then pool.(threads := pool.threads[t := if pool.shouldJoin then Exited else Waiting])
    else pool.(threads := pool.threads[t := Running(pool.todo[0])],
               todo := pool.todo[1..],
               activeCount := pool.activeCount + 1)
  }

  predicate Idle<X>(pool: Pool<X>) {
    pool.todo == [] && pool.activeCount == 0
  }

  /** The worker's MaybeRunNext. */
  function RunNext<X>(s: System<X>, w: nat, pick: nat): System<X>
    requires w < |s.workers|
  {
    var worker := s.workers[w];
    if worker.running || worker.steps == [] then s else
      var job := Wrapped(w, worker.steps[0]);
      s.(workers := s.workers[w := worker.(running := true, steps := worker.steps[1..])],
         pool := Push(s.pool, job, pick),
         accepted := s.accepted + [job])
  }

  // ----- the steps -----

  datatype Caller = Outside | Inside(thread: nat)
  datatype Target = OnPool | OnWorker(worker: nat)

  datatype Action<X> =
    | Schedule(caller: Caller, target: Target, task: X, pick: nat)
    | Enter(thread: nat)              // retakes the lock after its start or after a job
    | Wake(thread: nat)               // retakes the lock after it was notified
    | Spurious(thread: nat)           // stops waiting without a notification
    | Finish(thread: nat)             // the task returns
    | Return(thread: nat, pick: nat)  // the end of the worker's wrapper
    | Destroy                         // the destructor's critical section; aborts unless idle

  ghost predicate Enabled<X>(s: System<X>, action: Action<X>) {
    var threads := s.pool.threads;
    match action
    case Schedule(caller, target, _, pick) =>
      && (if caller.Outside? then !s.pool.shouldJoin else caller.thread < |threads| && threads[caller.thread].Running?)
      && (target.OnWorker? ==> target.worker < |s.workers|)
      && Picks(threads, pick)
    case Enter(t) => t < |threads| && threads[t].Entering?
    case Wake(t) => t < |threads| && threads[t].Notified?
    case Spurious(t) => t < |threads| && threads[t].Waiting?
    case Finish(t) => t < |threads| && threads[t].Running? && JobIsKnown(s, threads[t].job)
    case Return(t, pick) => t < |threads| && threads[t].Returning? && JobIsKnown(s, threads[t].job) && Picks(threads, pick)
    case Destroy => !s.pool.shouldJoin && Idle(s.pool)
  }

  predicate JobIsKnown<X>(s: System<X>, job: Job<X>) {
    job.Wrapped? ==> job.worker < |s.workers|
  }

  function Scheduled<X>(s: System<X>, target: Target, task: X, pick: nat): System<X>
    requires target.OnWorker? ==> target.worker < |s.workers|
  {
    match target
    case OnPool => s.(pool := Push(s.pool, Plain(task), pick), accepted := s.accepted + [Plain(task)])
    case OnWorker(w) =>
      var worker := s.workers[w];
      var longer := worker.(steps := worker.steps + [task], scheduled := worker.scheduled + [task]);
      RunNext(s.(workers := s.workers[w := longer]), w, pick)
  }

  function Finished<X>(s: System<X>, t: nat): System<X>
    requires t < |s.pool.threads| && s.pool.threads[t].Running? && JobIsKnown(s, s.pool.threads[t].job)
  {
    var job := s.pool.threads[t].job;
    if job.Plain? then
      s.(pool := s.pool.(threads := s.pool.threads[t := Entering]), completed := s.completed + [job])
    else
      var worker := s.workers[job.worker];
      s.(pool := s.pool.(threads := s.pool.threads[t := Returning(job)]),
         workers := s.workers[job.worker := worker.(finished := worker.finished + [job.task])])
  }

  function Returned<X>(s: System<X>, t: nat, pick: nat): System<X>
    requires t < |s.pool.threads| && s.pool.threads[t].Returning? && JobIsKnown(s, s.pool.threads[t].job)
  {
    var job := s.pool.threads[t].job;
    var over := s.(pool := s.pool.(threads := s.pool.threads[t := Entering]), completed := s.completed + [job]);
    if job.Plain? then over
    else RunNext(over.(workers := s.workers[job.worker := s.workers[job.worker].(running := false)]), job.worker, pick)
  }

  ghost function After<X>(s: System<X>, action: Action<X>): System<X>
    requires Enabled(s, action)
  {
    match action
    case Schedule(_, target, task, pick) => Scheduled(s, target, task, pick)
    case Enter(t) => s.(pool := Look(s.pool.(activeCount := s.pool.activeCount - 1), t))
    case Wake(t) => s.(pool := Look(s.pool, t))
    case Spurious(t) => s.(pool := s.pool.(threads := s.pool.threads[t := Notified]))
    case Finish(t) => Finished(s, t)
    case Return(t, pick) => Returned(s, t, pick)
    case Destroy => s.(pool := s.pool.(shouldJoin := true, threads := SignalAll(s.pool.threads)))
  }

  function Entered<X>(n: nat): (threads: seq<Phase<X>>)
    ensures |threads| == n && forall t :: 0 <= t < n ==> threads[t] == Entering
  {
    seq(n, t => Entering)
  }

  /** A pool of `threads` threads that have yet to start, and any number of workers. */
  function Initial<X>(threads: nat, workers: nat): System<X> {
    System(Pool([], threads, false, Entered(threads)), seq(workers, w => Worker(false, [], [], [])), [], [])
  }

  /** `actions` lead from `s` to `end`. */
  ghost predicate Runs<X>(s: System<X>, actions: seq<Action<X>>, end: System<X>)
    decreases |actions|
  {
    if actions == [] then s == end
    else Enabled(s, actions[0]) && Runs(After(s, actions[0]), actions[1..], end)
  }
}
