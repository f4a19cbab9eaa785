/** What the scheduler promises its clients, for every run of any number of threads and workers. */
module SchedulerGuarantees {
  import opened Schedulers
  import opened SchedulerLaws

  ghost predicate Reachable<X(!new)>(s: System<X>) {
    exists threads: nat, workers: nat, actions: seq<Action<X>> ::
      0 < threads && Runs(Initial(threads, workers), actions, s)
  }

  lemma ReachableKeeps<X(!new)>(s: System<X>)
    requires Reachable(s)
    ensures Invariant(s)
  {
    var threads: nat, workers: nat, actions: seq<Action<X>> :|
      0 < threads && Runs(Initial(threads, workers), actions, s);
    InitialInvariant<X>(threads, workers);
    RunsKeep(Initial(threads, workers), actions, s);
  }

  // ----- who can do what -----

  /** What a thread does next: nothing but an exit stops it for good. */
  predicate Continues<X>(s: System<X>, t: nat, action: Action<X>)
    requires t < |s.pool.threads|
  {
    match s.pool.threads[t]
    case Entering => action == Enter(t)
    case Waiting => action == Spurious(t)
    case Notified => action == Wake(t)
    case Running(_) => action == Finish(t)
    case Returning(_) => action.Return? && action.thread == t
    case Exited => false
  }

  /** At any time any thread may be the next to do something, any waiting thread may be the one that is
      woken, and someone outside may schedule any task anywhere unless the pool is being destroyed. */
  lemma AnyoneMayBeNext<X(!new)>(s: System<X>, t: nat, target: Target, task: X, pick: nat)
    requires Reachable(s) && t < |s.pool.threads|
    ensures !s.pool.threads[t].Exited? ==> exists action :: Continues(s, t, action) && Enabled(s, action)
    ensures s.pool.threads[t].Waiting? ==> Picks(s.pool.threads, t)
    ensures (target.OnWorker? ==> target.worker < |s.workers|) && Picks(s.pool.threads, pick) ==>
              && (!s.pool.shouldJoin ==> Enabled(s, Schedule(Outside, target, task, pick)))
              && (s.pool.threads[t].Running? ==> Enabled(s, Schedule(Inside(t), target, task, pick)))
    ensures Idle(s.pool) && !s.pool.shouldJoin ==> Enabled(s, Destroy)
  {
    ReachableKeeps(s);
    match s.pool.threads[t] {
      case Entering => assert Continues(s, t, Enter(t));
      case Waiting => assert Continues(s, t, Spurious(t));
      case Notified => assert Continues(s, t, Wake(t));
      case Running(_) =>
        assert Fits(s, s.pool.threads[t]);
        assert Continues(s, t, Finish(t));
      case Returning(_) =>
        assert Fits(s, s.pool.threads[t]);
        var awake: nat := 0;
        if SomeoneWaits(s.pool.threads) {
          awake :| awake < |s.pool.threads| && s.pool.threads[awake].Waiting?;
        }
        assert Continues(s, t, Return(t, awake)) && Enabled(s, Return(t, awake));
      case Exited =>
    }
  }

  // ----- workers are serial -----

  /** A thread is executing a task of the worker. */
  predicate InBody<X>(s: System<X>, t: nat, w: nat) {
    t < |s.pool.threads| && s.pool.threads[t].Running? && s.pool.threads[t].job.Wrapped? && s.pool.threads[t].job.worker == w
  }

  /** The job is a wrapper of the worker that is queued or run by some thread. */
  predicate Wraps<X(==)>(s: System<X>, job: Job<X>, w: nat) {
    job.Wrapped? && job.worker == w && Load(s.pool, job) > 0
  }

  /** A worker's tasks run one at a time, in the order they were scheduled, and none is lost:
      those that finished, then at most one in flight, then those still to be taken. */
  lemma WorkersAreSerial<X(!new)>(s: System<X>, w: nat)
    requires Reachable(s) && w < |s.workers|
    ensures var worker := s.workers[w];
            && |worker.finished| <= |worker.scheduled| - |worker.steps|
            && var inFlight := worker.scheduled[|worker.finished|..|worker.scheduled| - |worker.steps|];
            && worker.scheduled == worker.finished + inFlight + worker.steps && |inFlight| <= 1
            && (forall t: nat :: InBody(s, t, w) ==> inFlight == [s.pool.threads[t].job.task])
            && (forall t: nat, u: nat :: InBody(s, t, w) && InBody(s, u, w) ==> t == u)
            && (worker.steps != [] ==> worker.running)
            && (forall job: Job<X> :: job.Wrapped? && job.worker == w ==>
                  Load(s.pool, job) <= if worker.running then 1 else 0)
            && (forall one: Job<X>, other: Job<X> ::
                  Wraps(s, one, w) && Wraps(s, other, w) ==> one == other)
  {
    ReachableKeeps(s);
    forall t: nat | InBody(s, t, w)
      ensures IsWrapper(s, s.pool.threads[t].job) && Fits(s, s.pool.threads[t])
    {
      BorneIsLive(s, t);
    }
    forall t: nat, u: nat | InBody(s, t, w) && InBody(s, u, w)
      ensures t == u
    {
      SoleBearer(s, t);
    }
  }

  // ----- idle means done -----

  /** When the idle condition holds, every task ever scheduled on the pool or on a worker has
      finished exactly once. */
  lemma IdleMeansDone<X(!new)>(s: System<X>)
    requires Reachable(s) && Idle(s.pool)
    ensures multiset(s.accepted) == multiset(s.completed)
    ensures forall w :: 0 <= w < |s.workers| ==> s.workers[w].finished == s.workers[w].scheduled
  {
    ReachableKeeps(s);
    forall job: Job<X>
      ensures Load(s.pool, job) == 0
    {
      if Total(s.pool.threads, Bearing(job)) > 0 {
        var t := TotalFinds(s.pool.threads, Bearing(job));
        TotalHas(s.pool.threads, Active, t);
      }
    }
    forall w | 0 <= w < |s.workers|
      ensures s.workers[w].finished == s.workers[w].scheduled
    {
      var worker := s.workers[w];
      if worker.running {
        assert IsWrapper(s, Wrapped(w, worker.scheduled[Taken(worker) - 1]));
      }
    }
  }

  predicate FromOutside<X>(action: Action<X>) {
    action.Schedule? && action.caller.Outside?
  }

  /** The pool stays idle until something outside schedules a task. */
  lemma {:induction false} IdleStays<X(!new)>(s: System<X>, actions: seq<Action<X>>, end: System<X>)
    requires Invariant(s) && Idle(s.pool) && Runs(s, actions, end)
    requires forall k :: 0 <= k < |actions| ==> !FromOutside(actions[k])
    ensures Idle(end.pool) && end.workers == s.workers && end.accepted == s.accepted && end.completed == s.completed
    decreases |actions|
  {
    if actions != [] {
      assert !FromOutside(actions[0]);
      IdleStep(s, actions[0]);
      StepKeeps(s, actions[0]);
      IdleStays(After(s, actions[0]), actions[1..], end);
    }
  }

  lemma IdleStep<X(!new)>(s: System<X>, action: Action<X>)
    requires PoolInvariant(s.pool) && Idle(s.pool) && Enabled(s, action) && !FromOutside(action)
    ensures var after := After(s, action);
            Idle(after.pool) && after.workers == s.workers && after.accepted == s.accepted && after.completed == s.completed
  {
    NoneIsActive(s.pool);
    assert action.Wake? || action.Spurious? || action.Destroy?;
  }

  lemma NoneIsActive<X>(pool: Pool<X>)
    requires PoolInvariant(pool) && Idle(pool)
    ensures forall t :: 0 <= t < |pool.threads| ==> Active(pool.threads[t]) == 0
  {
    forall t | 0 <= t < |pool.threads|
      ensures Active(pool.threads[t]) == 0
    {
      TotalHas(pool.threads, Active, t);
    }
  }

  // ----- no lost wakeup -----

  /** A step by which a thread of the pool gets on with the work. */
  predicate Works<X>(action: Action<X>) {
    action.Enter? || action.Wake? || action.Finish? || action.Return?
  }

  /** Unless the pool is idle some thread can get on with the work; queued jobs never coexist with
      threads that are all asleep. */
  lemma SomeoneCanWork<X(!new)>(s: System<X>) returns (action: Action<X>)
    requires Invariant(s) && !Idle(s.pool)
    ensures Works(action) && Enabled(s, action)
  {
    var threads := s.pool.threads;
    if s.pool.activeCount > 0 {
      var t := TotalFinds(threads, Active);
      action := ActiveCanWork(s, t);
    } else if SomeoneWaits(threads) {
      var t := TotalFinds(threads, Awoken);
      action := Wake(t);
    } else {
      TotalHas(threads, Active, 0);
      action := Wake(0);
    }
  }

  lemma ActiveCanWork<X(!new)>(s: System<X>, t: nat) returns (action: Action<X>)
    requires Invariant(s) && t < |s.pool.threads| && Active(s.pool.threads[t]) == 1
    ensures Works(action) && Enabled(s, action)
  {
    var threads := s.pool.threads;
    assert Fits(s, threads[t]);
    if threads[t].Entering? {
      action := Enter(t);
    } else if threads[t].Running? {
      action := Finish(t);
    } else {
      var pick: nat := 0;
      if SomeoneWaits(threads) {
        pick :| 0 <= pick < |threads| && threads[pick].Waiting?;
      }
      action := Return(t, pick);
    }
  }

  /** How far a thread is from waiting. */
  function Effort<X>(phase: Phase<X>): nat {
    match phase
    case Entering => 3
    case Notified => 1
    case Running(_) => 5
    case Returning(_) => 4
    case _ => 0
  }

  function Backlog<X>(workers: seq<Worker<X>>): nat {
    if workers == [] then 0 else Backlog(workers[..|workers| - 1]) + |workers[|workers| - 1].steps|
  }

  lemma {:induction false} BacklogUpdate<X>(workers: seq<Worker<X>>, w: nat, worker: Worker<X>)
    requires w < |workers|
    ensures Backlog(workers[w := worker]) + |workers[w].steps| == Backlog(workers) + |worker.steps|
  {
    var last := |workers| - 1;
    if w < last {
      BacklogUpdate(workers[..last], w, worker);
      assert workers[w := worker][..last] == workers[..last][w := worker];
    } else {
      assert workers[w := worker][..last] == workers[..last];
    }
  }

  /** The work that is left, weighted so that every step of it leaves less. */
  function Left<X>(s: System<X>): nat {
    10 * |s.pool.todo| + 12 * Backlog(s.workers) + Total(s.pool.threads, Effort)
  }

  lemma WorkGetsDone<X(!new)>(s: System<X>, action: Action<X>)
    requires Invariant(s) && Enabled(s, action) && Works(action)
    ensures Left(After(s, action)) < Left(s)
  {
    var t := action.thread;
    match action {
      case Return(_, pick) => ReturnGetsDone(s, t, pick);
      case Finish(_) => FinishGetsDone(s, t);
      case Enter(_) => LookGetsDone(s.pool.(activeCount := s.pool.activeCount - 1), t);
      case Wake(_) => LookGetsDone(s.pool, t);
    }
  }

  lemma LookGetsDone<X>(pool: Pool<X>, t: nat)
    requires t < |pool.threads| && (pool.threads[t].Entering? || pool.threads[t].Notified?)
    ensures var after := Look(pool, t);
            10 * |after.todo| + Total(after.threads, Effort) < 10 * |pool.todo| + Total(pool.threads, Effort)
  {
    TotalUpdate(pool.threads, Effort, t, Look(pool, t).threads[t]);
  }

  lemma FinishGetsDone<X>(s: System<X>, t: nat)
    requires t < |s.pool.threads| && s.pool.threads[t].Running? && JobIsKnown(s, s.pool.threads[t].job)
    ensures Left(Finished(s, t)) < Left(s)
  {
    var job, after := s.pool.threads[t].job, Finished(s, t);
    TotalUpdate(s.pool.threads, Effort, t, after.pool.threads[t]);
    if job.Wrapped? {
      BacklogUpdate(s.workers, job.worker, after.workers[job.worker]);
    }
  }

  lemma ReturnGetsDone<X(!new)>(s: System<X>, t: nat, pick: nat)
    requires t < |s.pool.threads| && s.pool.threads[t].Returning? && JobIsKnown(s, s.pool.threads[t].job)
    ensures Left(Returned(s, t, pick)) < Left(s)
  {
    var job, threads := s.pool.threads[t].job, s.pool.threads[t := Entering];
    TotalUpdate(s.pool.threads, Effort, t, Entering);
    if pick < |threads| && threads[pick].Waiting? {
      TotalUpdate(threads, Effort, pick, Notified);
    }
    if job.Wrapped? {
      var over := s.workers[job.worker].(running := false);
      BacklogUpdate(s.workers, job.worker, over);
      var steps := if over.steps == [] then [] else over.steps[1..];
      BacklogUpdate(s.workers[job.worker := over], job.worker, over.(running := true, steps := steps));
    }
  }

  /** With nothing new scheduled, the threads get on for at most so many steps, and they can get on
      until the pool is idle: waiting until idle is never in vain. */
  lemma {:induction false} WorkEnds<X(!new)>(s: System<X>, actions: seq<Action<X>>, end: System<X>)
    requires Invariant(s) && Runs(s, actions, end)
    requires forall k :: 0 <= k < |actions| ==> Works(actions[k])
    ensures |actions| + Left(end) <= Left(s)
    ensures Idle(end.pool) || exists action :: Works(action) && Enabled(end, action)
    decreases |actions|
  {
    if actions != [] {
      assert Works(actions[0]);
      WorkGetsDone(s, actions[0]);
      StepKeeps(s, actions[0]);
      WorkEnds(After(s, actions[0]), actions[1..], end);
    } else if !Idle(end.pool) {
      var action := SomeoneCanWork(end);
    }
  }

  // ----- checks that never fail, and the destructor -----

  /** The active count is what a thread that takes the lock needs it to be, and no thread finds work
      once the pool is being destroyed. */
  lemma ChecksNeverFail<X(!new)>(s: System<X>, t: nat)
    requires Reachable(s) && t < |s.pool.threads|
    ensures s.pool.activeCount == Total(s.pool.threads, Active) <= |s.pool.threads|
    ensures s.pool.threads[t].Entering? ==> s.pool.activeCount > 0
    ensures s.pool.todo != [] ==> !s.pool.shouldJoin
  {
    ReachableKeeps(s);
    TotalHas(s.pool.threads, Active, t);
    ActiveAtMost(s.pool.threads);
  }

  lemma {:induction false} ActiveAtMost<X>(threads: seq<Phase<X>>)
    ensures Total(threads, Active) <= |threads|
  {
    if threads != [] {
      ActiveAtMost(threads[..|threads| - 1]);
    }
  }

  /** Once the pool is being destroyed no thread sleeps: each has exited or is about to. */
  lemma ThreadsCanBeJoined<X(!new)>(s: System<X>, t: nat)
    requires Reachable(s) && s.pool.shouldJoin && t < |s.pool.threads|
    ensures s.pool.threads[t].Exited? || (Enabled(s, Wake(t)) && After(s, Wake(t)).pool.threads[t].Exited?)
  {
    ReachableKeeps(s);
    NoneIsActive(s.pool);
  }
}
