/** What every run of the scheduler keeps. */
module SchedulerLaws {
  import opened Schedulers

  // ----- counting threads -----

  function Total<X>(threads: seq<Phase<X>>, weight: Phase<X> -> nat): nat {
    if threads == [] then 0 else Total(threads[..|threads| - 1], weight) + weight(threads[|threads| - 1])
  }

  /** Counted in the active count: starting, or busy with a job. */
  function Active<X>(phase: Phase<X>): nat {
    if phase.Entering? || phase.Running? || phase.Returning? then 1 else 0
  }

  function Awoken<X>(phase: Phase<X>): nat {
    if phase.Notified? then 1 else 0
  }

  lemma {:induction false} TotalUpdate<X>(threads: seq<Phase<X>>, weight: Phase<X> -> nat, t: nat, phase: Phase<X>)
    requires t < |threads|
    ensures Total(threads[t := phase], weight) + weight(threads[t]) == Total(threads, weight) + weight(phase)
  {
    var last := |threads| - 1;
    if t < last {
      TotalUpdate(threads[..last], weight, t, phase);
      assert threads[t := phase][..last] == threads[..last][t := phase];
    } else {
      assert threads[t := phase][..last] == threads[..last];
    }
  }

  lemma {:induction false} TotalHas<X>(threads: seq<Phase<X>>, weight: Phase<X> -> nat, t: nat)
    requires t < |threads|
    ensures Total(threads, weight) >= weight(threads[t])
  {
    if t < |threads| - 1 {
      TotalHas(threads[..|threads| - 1], weight, t);
    }
  }

  lemma {:induction false} TotalFinds<X>(threads: seq<Phase<X>>, weight: Phase<X> -> nat) returns (t: nat)
    requires Total(threads, weight) > 0
    ensures t < |threads| && weight(threads[t]) > 0
  {
    t := |threads| - 1;
    if weight(threads[t]) == 0 {
      t := TotalFinds(threads[..t], weight);
    }
  }

  // ----- counting jobs -----

  function Bears<X(==)>(phase: Phase<X>, job: Job<X>): nat {
    if (phase.Running? || phase.Returning?) && phase.job == job then 1 else 0
  }

  function Bearing<X(==)>(job: Job<X>): Phase<X> -> nat {
    (phase: Phase<X>) => Bears(phase, job)
  }

  /** How often a job is queued or some thread is busy with it. */
  function Load<X(==)>(pool: Pool<X>, job: Job<X>): nat {
    multiset(pool.todo)[job] + Total(pool.threads, Bearing(job))
  }

  /** Two threads busy with the same job count it twice. */
  lemma {:induction false} BornTwice<X>(threads: seq<Phase<X>>, t: nat, u: nat, job: Job<X>)
    requires t < u < |threads| && Bears(threads[t], job) == Bears(threads[u], job) == 1
    ensures Total(threads, Bearing(job)) >= 2
  {
    if u < |threads| - 1 {
      BornTwice(threads[..|threads| - 1], t, u, job);
    } else {
      TotalHas(threads[..u], Bearing(job), t);
    }
  }

  // ----- the pool -----

  ghost predicate SomeoneWaits<X>(threads: seq<Phase<X>>) {
    exists t :: 0 <= t < |threads| && threads[t].Waiting?
  }

  /** The active count is the number of threads starting or busy; no wakeup is lost: while a thread
      waits un-notified, each queued job has its own notified thread. */
  ghost predicate PoolInvariant<X>(pool: Pool<X>) {
    && 0 < |pool.threads|
    && pool.activeCount == Total(pool.threads, Active)
    && (SomeoneWaits(pool.threads) ==> |pool.todo| <= Total(pool.threads, Awoken))
    && (if pool.shouldJoin then Idle(pool) && !SomeoneWaits(pool.threads)
        else forall t :: 0 <= t < |pool.threads| ==> !pool.threads[t].Exited?)
  }

  lemma SignalKeeps<X>(threads: seq<Phase<X>>, pick: nat)
    requires Picks(threads, pick)
    ensures var woken := Signal(threads, pick);
            && |woken| == |threads| && Total(woken, Active) == Total(threads, Active)
            && (SomeoneWaits(woken) ==> SomeoneWaits(threads) && Total(woken, Awoken) == Total(threads, Awoken) + 1)
            && (forall t :: 0 <= t < |threads| ==> woken[t] == threads[t] || (threads[t].Waiting? && woken[t].Notified?))
  {
    if pick < |threads| && threads[pick].Waiting? {
      TotalUpdate(threads, Active, pick, Notified);
      TotalUpdate(threads, Awoken, pick, Notified);
    }
  }

  lemma PushKeeps<X>(pool: Pool<X>, job: Job<X>, pick: nat)
    requires PoolInvariant(pool) && !pool.shouldJoin && Picks(pool.threads, pick)
    ensures PoolInvariant(Push(pool, job, pick))
  {
    SignalKeeps(pool.threads, pick);
  }

  lemma PushLoads<X>(pool: Pool<X>, job: Job<X>, pick: nat, other: Job<X>)
    ensures Load(Push(pool, job, pick), other) == Load(pool, other) + if job == other then 1 else 0
  {
    if pick < |pool.threads| && pool.threads[pick].Waiting? {
      TotalUpdate(pool.threads, Bearing(other), pick, Notified);
    }
  }

  /** A thread that is not counted as active looks for work. */
  lemma LookKeeps<X>(pool: Pool<X>, t: nat)
    requires t < |pool.threads|
    requires pool.threads[t].Entering? || pool.threads[t].Notified?
    requires pool.activeCount == Total(pool.threads, Active) - Active(pool.threads[t])
    requires SomeoneWaits(pool.threads) ==> |pool.todo| <= Total(pool.threads, Awoken)
    requires if pool.shouldJoin then Idle(pool) && !SomeoneWaits(pool.threads)
             else forall t :: 0 <= t < |pool.threads| ==> !pool.threads[t].Exited?
    ensures PoolInvariant(Look(pool, t))
  {
    var phase := Look(pool, t).threads[t];
    TotalUpdate(pool.threads, Active, t, phase);
    TotalUpdate(pool.threads, Awoken, t, phase);
    if pool.todo != [] && SomeoneWaits(Look(pool, t).threads) {
      assert SomeoneWaits(pool.threads);
    }
  }

  lemma LookLoads<X>(pool: Pool<X>, t: nat, job: Job<X>)
    requires t < |pool.threads| && Bears(pool.threads[t], job) == 0
    ensures Load(Look(pool, t), job) == Load(pool, job)
  {
    TotalUpdate(pool.threads, Bearing(job), t, Look(pool, t).threads[t]);
    if pool.todo != [] {
      assert pool.todo == [pool.todo[0]] + pool.todo[1..];
    }
  }

  lemma {:induction false} SignalAllTotals<X>(threads: seq<Phase<X>>, weight: Phase<X> -> nat)
    requires weight(Waiting) == weight(Notified)
    ensures Total(SignalAll(threads), weight) == Total(threads, weight)
  {
    if threads != [] {
      var before := threads[..|threads| - 1];
      SignalAllTotals(before, weight);
      assert SignalAll(threads)[..|threads| - 1] == SignalAll(before);
    }
  }

  // ----- the workers -----

  /** How many of a worker's tasks it has taken off its steps. */
  function Taken<X>(worker: Worker<X>): int {
    |worker.scheduled| - |worker.steps|
  }

  /** The tasks leave in the order they came, and at most the last one taken is unfinished. */
  predicate InOrder<X(==)>(worker: Worker<X>) {
    && 0 <= Taken(worker) && worker.steps == worker.scheduled[Taken(worker)..]
    && |worker.finished| <= Taken(worker) && worker.finished == worker.scheduled[..|worker.finished|]
    && (if worker.running then 0 < Taken(worker) <= |worker.finished| + 1 else |worker.finished| == Taken(worker))
  }

  /** The wrapper of the task a worker took last. */
  predicate IsWrapper<X(==)>(s: System<X>, job: Job<X>) {
    job.Wrapped? && job.worker < |s.workers| &&
    var worker := s.workers[job.worker];
    worker.running && 0 < Taken(worker) <= |worker.scheduled| && job.task == worker.scheduled[Taken(worker) - 1]
  }

  /** The task of a wrapper is unfinished until the wrapper returns. */
  predicate Unfinished<X>(s: System<X>, job: Job<X>) {
    job.Wrapped? ==> job.worker < |s.workers| && |s.workers[job.worker].finished| == Taken(s.workers[job.worker]) - 1
  }

  predicate Fits<X>(s: System<X>, phase: Phase<X>) {
    && (phase.Running? ==> Unfinished(s, phase.job))
    && (phase.Returning? ==>
          && phase.job.Wrapped? && phase.job.worker < |s.workers|
          && |s.workers[phase.job.worker].finished| == Taken(s.workers[phase.job.worker]))
  }

  ghost predicate AllInOrder<X>(s: System<X>) {
    forall w :: 0 <= w < |s.workers| ==> InOrder(s.workers[w])
  }

  /** A worker with steps to run is running; `busy`, whose lock is held, need not be. */
  ghost predicate NoneStalls<X>(s: System<X>, busy: int) {
    forall w :: 0 <= w < |s.workers| && w != busy && s.workers[w].steps != [] ==> s.workers[w].running
  }

  /** For each running worker there is exactly one wrapper, queued or run by one thread; there are
      no other wrappers. */
  ghost predicate OneWrapperEach<X(!new)>(s: System<X>) {
    forall job: Job<X> :: job.Wrapped? ==> Load(s.pool, job) == if IsWrapper(s, job) then 1 else 0
  }

  ghost predicate AllFit<X>(s: System<X>) {
    && (forall k :: 0 <= k < |s.pool.todo| ==> Unfinished(s, s.pool.todo[k]))
    && (forall t :: 0 <= t < |s.pool.threads| ==> Fits(s, s.pool.threads[t]))
  }

  ghost predicate WorkersInvariant<X(!new)>(s: System<X>, busy: int) {
    AllInOrder(s) && NoneStalls(s, busy) && OneWrapperEach(s) && AllFit(s)
  }

  ghost predicate Accounted<X(!new)>(s: System<X>) {
    forall job: Job<X> :: multiset(s.accepted)[job] == multiset(s.completed)[job] + Load(s.pool, job)
  }

  ghost predicate Invariant<X(!new)>(s: System<X>) {
    PoolInvariant(s.pool) && WorkersInvariant(s, -1) && Accounted(s)
  }

  // ----- a worker takes its next step -----

  lemma RunNextFits<X(!new)>(s: System<X>, w: nat, pick: nat)
    requires w < |s.workers| && !s.workers[w].running && s.workers[w].steps != []
    requires AllInOrder(s) && AllFit(s) && OneWrapperEach(s)
    ensures AllFit(RunNext(s, w, pick))
  {
    var next := RunNext(s, w, pick);
    forall k | 0 <= k < |next.pool.todo|
      ensures Unfinished(next, next.pool.todo[k])
    {
      if k < |s.pool.todo| && s.pool.todo[k].Wrapped? {
        QueuedIsLive(s, s.pool.todo[k]);
      }
    }
    forall t | 0 <= t < |next.pool.threads|
      ensures Fits(next, next.pool.threads[t])
    {
      var phase := s.pool.threads[t];
      if (phase.Running? || phase.Returning?) && phase.job.Wrapped? {
        BorneIsLive(s, t);
      }
    }
  }

  lemma QueuedIsLive<X(!new)>(s: System<X>, job: Job<X>)
    requires OneWrapperEach(s) && job in s.pool.todo && job.Wrapped?
    ensures IsWrapper(s, job)
  {
    assert multiset(s.pool.todo)[job] > 0;
  }

  lemma BorneIsLive<X(!new)>(s: System<X>, t: nat)
    requires OneWrapperEach(s) && t < |s.pool.threads|
    requires var phase := s.pool.threads[t]; (phase.Running? || phase.Returning?) && phase.job.Wrapped?
    ensures IsWrapper(s, s.pool.threads[t].job) && s.pool.threads[t].job !in s.pool.todo
  {
    var job := s.pool.threads[t].job;
    TotalHas(s.pool.threads, Bearing(job), t);
    assert job in s.pool.todo ==> multiset(s.pool.todo)[job] > 0;
  }

  lemma RunNextWraps<X(!new)>(s: System<X>, w: nat, pick: nat)
    requires w < |s.workers| && !s.workers[w].running && s.workers[w].steps != []
    requires AllInOrder(s) && OneWrapperEach(s)
    ensures OneWrapperEach(RunNext(s, w, pick))
  {
    var next, job := RunNext(s, w, pick), Wrapped(w, s.workers[w].steps[0]);
    forall other: Job<X> | other.Wrapped?
      ensures Load(next.pool, other) == if IsWrapper(next, other) then 1 else 0
    {
      PushLoads(s.pool, job, pick, other);
    }
  }

  lemma RunNextAccounts<X(!new)>(s: System<X>, w: nat, pick: nat)
    requires w < |s.workers| && !s.workers[w].running && s.workers[w].steps != []
    requires Accounted(s)
    ensures Accounted(RunNext(s, w, pick))
  {
    PushAccounts(s, Wrapped(w, s.workers[w].steps[0]), pick);
  }

  lemma PushAccounts<X(!new)>(s: System<X>, job: Job<X>, pick: nat)
    requires Accounted(s)
    ensures Accounted(s.(pool := Push(s.pool, job, pick), accepted := s.accepted + [job]))
  {
    forall other: Job<X>
      ensures Load(Push(s.pool, job, pick), other) == Load(s.pool, other) + if job == other then 1 else 0
    {
      PushLoads(s.pool, job, pick, other);
    }
  }

  /** The worker's MaybeRunNext restores its part of the invariant. */
  lemma RunNextKeeps<X(!new)>(s: System<X>, w: nat, pick: nat)
    requires PoolInvariant(s.pool) && WorkersInvariant(s, w) && Accounted(s)
    requires w < |s.workers| && !s.pool.shouldJoin && Picks(s.pool.threads, pick)
    ensures Invariant(RunNext(s, w, pick))
  {
    var worker := s.workers[w];
    if !worker.running && worker.steps != [] {
      PushKeeps(s.pool, Wrapped(w, worker.steps[0]), pick);
      RunNextFits(s, w, pick);
      RunNextWraps(s, w, pick);
      RunNextAccounts(s, w, pick);
    }
  }

  // ----- the steps -----

  lemma ScheduleOnPoolKeeps<X(!new)>(s: System<X>, task: X, pick: nat)
    requires Invariant(s) && !s.pool.shouldJoin && Picks(s.pool.threads, pick)
    ensures Invariant(Scheduled(s, OnPool, task, pick))
  {
    PushKeeps(s.pool, Plain(task), pick);
    PushAccounts(s, Plain(task), pick);
    PushPlainKeeps(s, task, pick);
  }

  lemma PushPlainKeeps<X(!new)>(s: System<X>, task: X, pick: nat)
    requires WorkersInvariant(s, -1)
    ensures WorkersInvariant(Scheduled(s, OnPool, task, pick), -1)
  {
    var next := Scheduled(s, OnPool, task, pick);
    forall job: Job<X> | job.Wrapped?
      ensures Load(next.pool, job) == if IsWrapper(next, job) then 1 else 0
    {
      PushLoads(s.pool, Plain(task), pick, job);
    }
  }

  lemma ScheduleOnWorkerKeeps<X(!new)>(s: System<X>, w: nat, task: X, pick: nat)
    requires Invariant(s) && !s.pool.shouldJoin && Picks(s.pool.threads, pick) && w < |s.workers|
    ensures Invariant(Scheduled(s, OnWorker(w), task, pick))
  {
    var worker := s.workers[w];
    var longer := worker.(steps := worker.steps + [task], scheduled := worker.scheduled + [task]);
    var queued := s.(workers := s.workers[w := longer]);
    QueueKeeps(s, w, task);
    RunNextKeeps(queued, w, pick);
  }

  lemma QueueKeeps<X(!new)>(s: System<X>, w: nat, task: X)
    requires Invariant(s) && w < |s.workers|
    ensures var worker := s.workers[w];
            var longer := worker.(steps := worker.steps + [task], scheduled := worker.scheduled + [task]);
            var queued := s.(workers := s.workers[w := longer]);
            WorkersInvariant(queued, w) && Accounted(queued)
  {
    var worker := s.workers[w];
    var longer := worker.(steps := worker.steps + [task], scheduled := worker.scheduled + [task]);
    var queued := s.(workers := s.workers[w := longer]);
    QueueInOrder(worker, task);
    QueueWraps(s, w, longer);
    assert AllFit(queued);
  }

  /** Which wrapper a worker has depends on the tasks it has taken. */
  lemma QueueWraps<X(!new)>(s: System<X>, w: nat, longer: Worker<X>)
    requires OneWrapperEach(s) && w < |s.workers|
    requires var worker := s.workers[w];
             && longer.running == worker.running && Taken(longer) == Taken(worker)
             && worker.scheduled <= longer.scheduled && |worker.steps| <= |longer.steps|
    ensures OneWrapperEach(s.(workers := s.workers[w := longer]))
  {
    var queued := s.(workers := s.workers[w := longer]);
    assert forall job: Job<X> :: IsWrapper(queued, job) == IsWrapper(s, job);
  }

  lemma QueueInOrder<X>(worker: Worker<X>, task: X)
    requires InOrder(worker)
    ensures InOrder(worker.(steps := worker.steps + [task], scheduled := worker.scheduled + [task]))
  {
    var longer := worker.(steps := worker.steps + [task], scheduled := worker.scheduled + [task]);
    assert longer.scheduled[Taken(longer)..] == longer.steps;
    assert longer.scheduled[..|worker.finished|] == worker.finished;
  }

  /** A step of the pool alone, in which no job appears or disappears. */
  ghost predicate MovesJobs<X(!new)>(before: Pool<X>, after: Pool<X>) {
    && |after.threads| == |before.threads|
    && (forall job: Job<X> :: Load(after, job) == Load(before, job))
    && (forall k :: 0 <= k < |after.todo| ==> after.todo[k] in before.todo)
    && (forall t :: 0 <= t < |after.threads| ==>
          var phase := after.threads[t];
          || phase == before.threads[t]
          || (!phase.Running? && !phase.Returning?)
          || (phase.Running? && phase.job in before.todo))
  }

  lemma MovingKeeps<X(!new)>(s: System<X>, after: Pool<X>)
    requires WorkersInvariant(s, -1) && Accounted(s) && MovesJobs(s.pool, after)
    ensures WorkersInvariant(s.(pool := after), -1) && Accounted(s.(pool := after))
  {
    var next := s.(pool := after);
    assert forall job: Job<X> :: IsWrapper(next, job) == IsWrapper(s, job);
  }

  lemma LookMoves<X(!new)>(pool: Pool<X>, t: nat)
    requires t < |pool.threads| && !pool.threads[t].Running? && !pool.threads[t].Returning?
    ensures MovesJobs(pool, Look(pool, t))
  {
    forall job: Job<X>
      ensures Load(Look(pool, t), job) == Load(pool, job)
    {
      LookLoads(pool, t, job);
    }
  }

  lemma SpuriousKeeps<X(!new)>(pool: Pool<X>, t: nat)
    requires PoolInvariant(pool) && t < |pool.threads| && pool.threads[t].Waiting?
    ensures var after := pool.(threads := pool.threads[t := Notified]);
            PoolInvariant(after) && MovesJobs(pool, after)
  {
    TotalUpdate(pool.threads, Active, t, Notified);
    TotalUpdate(pool.threads, Awoken, t, Notified);
    var after := pool.(threads := pool.threads[t := Notified]);
    assert SomeoneWaits(after.threads) ==> SomeoneWaits(pool.threads);
    forall job: Job<X>
      ensures Load(after, job) == Load(pool, job)
    {
      TotalUpdate(pool.threads, Bearing(job), t, Notified);
    }
  }

  lemma DestroyKeeps<X(!new)>(pool: Pool<X>)
    requires PoolInvariant(pool) && Idle(pool)
    ensures var after := pool.(shouldJoin := true, threads := SignalAll(pool.threads));
            PoolInvariant(after) && MovesJobs(pool, after)
  {
    SignalAllTotals(pool.threads, Active);
    forall job: Job<X>
      ensures Total(SignalAll(pool.threads), Bearing(job)) == Total(pool.threads, Bearing(job))
    {
      SignalAllTotals(pool.threads, Bearing(job));
    }
  }

  /** A thread is done with its job. */
  lemma DropKeeps<X(!new)>(s: System<X>, t: nat)
    requires PoolInvariant(s.pool) && Accounted(s) && t < |s.pool.threads|
    requires s.pool.threads[t].Running? || s.pool.threads[t].Returning?
    ensures var threads := s.pool.threads[t := Entering];
            var job := s.pool.threads[t].job;
            var after := s.(pool := s.pool.(threads := threads), completed := s.completed + [job]);
            && PoolInvariant(after.pool) && Accounted(after) && !after.pool.shouldJoin
            && (forall other: Job<X> :: Load(after.pool, other) == Load(s.pool, other) - if other == job then 1 else 0)
  {
    var threads, job := s.pool.threads[t := Entering], s.pool.threads[t].job;
    TotalUpdate(s.pool.threads, Active, t, Entering);
    TotalUpdate(s.pool.threads, Awoken, t, Entering);
    TotalHas(s.pool.threads, Active, t);
    assert SomeoneWaits(threads) ==> SomeoneWaits(s.pool.threads);
    forall other: Job<X>
      ensures Total(threads, Bearing(other)) == Total(s.pool.threads, Bearing(other)) - if other == job then 1 else 0
    {
      TotalUpdate(s.pool.threads, Bearing(other), t, Entering);
    }
  }

  /** While a thread bears a worker's wrapper, no other wrapper of that worker exists. */
  lemma SoleBearer<X(!new)>(s: System<X>, t: nat)
    requires OneWrapperEach(s) && t < |s.pool.threads|
    requires var phase := s.pool.threads[t]; (phase.Running? || phase.Returning?) && phase.job.Wrapped?
    ensures var job := s.pool.threads[t].job;
            && IsWrapper(s, job)
            && (forall k :: 0 <= k < |s.pool.todo| ==> s.pool.todo[k].Plain? || s.pool.todo[k].worker != job.worker)
            && (forall u :: 0 <= u < |s.pool.threads| && u != t ==>
                  var phase := s.pool.threads[u];
                  phase.Running? || phase.Returning? ==> phase.job.Plain? || phase.job.worker != job.worker)
  {
    var job := s.pool.threads[t].job;
    BorneIsLive(s, t);
    forall k | 0 <= k < |s.pool.todo| && s.pool.todo[k].Wrapped?
      ensures s.pool.todo[k].worker != job.worker
    {
      QueuedIsLive(s, s.pool.todo[k]);
    }
    forall u | 0 <= u < |s.pool.threads| && u != t && (s.pool.threads[u].Running? || s.pool.threads[u].Returning?)
      ensures s.pool.threads[u].job.Plain? || s.pool.threads[u].job.worker != job.worker
    {
      if s.pool.threads[u].job.Wrapped? && s.pool.threads[u].job.worker == job.worker {
        BorneIsLive(s, u);
        BornTwice(s.pool.threads, if t < u then t else u, if t < u then u else t, job);
      }
    }
  }

  lemma FinishPlainKeeps<X(!new)>(s: System<X>, t: nat)
    requires Invariant(s) && t < |s.pool.threads| && s.pool.threads[t].Running? && s.pool.threads[t].job.Plain?
    ensures Invariant(Finished(s, t))
  {
    DropKeeps(s, t);
    var next := Finished(s, t);
    assert forall job: Job<X> :: IsWrapper(next, job) == IsWrapper(s, job);
  }

  lemma FinishWrappedKeeps<X(!new)>(s: System<X>, t: nat)
    requires Invariant(s) && t < |s.pool.threads| && s.pool.threads[t].Running? && s.pool.threads[t].job.Wrapped?
    ensures JobIsKnown(s, s.pool.threads[t].job) && Invariant(Finished(s, t))
  {
    SoleBearer(s, t);
    BearingOn(s.pool, t);
    FinishFits(s, t);
    var next := Finished(s, t);
    assert forall other: Job<X> :: IsWrapper(next, other) == IsWrapper(s, other);
  }

  lemma FinishFits<X(!new)>(s: System<X>, t: nat)
    requires WorkersInvariant(s, -1) && t < |s.pool.threads| && s.pool.threads[t].Running? && s.pool.threads[t].job.Wrapped?
    ensures JobIsKnown(s, s.pool.threads[t].job) && AllInOrder(Finished(s, t)) && AllFit(Finished(s, t))
  {
    SoleBearer(s, t);
    var job := s.pool.threads[t].job;
    var worker := s.workers[job.worker];
    assert Fits(s, s.pool.threads[t]);
    assert worker.scheduled[..|worker.finished| + 1] == worker.finished + [job.task];
  }

  /** A thread goes on bearing its job. */
  lemma BearingOn<X(!new)>(pool: Pool<X>, t: nat)
    requires PoolInvariant(pool) && t < |pool.threads| && pool.threads[t].Running?
    ensures var after := pool.(threads := pool.threads[t := Returning(pool.threads[t].job)]);
            PoolInvariant(after) && forall job: Job<X> :: Load(after, job) == Load(pool, job)
  {
    var phase := Returning(pool.threads[t].job);
    var threads := pool.threads[t := phase];
    TotalUpdate(pool.threads, Active, t, phase);
    TotalUpdate(pool.threads, Awoken, t, phase);
    TotalHas(pool.threads, Active, t);
    assert SomeoneWaits(threads) ==> SomeoneWaits(pool.threads);
    forall job: Job<X>
      ensures Total(threads, Bearing(job)) == Total(pool.threads, Bearing(job))
    {
      TotalUpdate(pool.threads, Bearing(job), t, phase);
    }
  }

  lemma ReturnKeeps<X(!new)>(s: System<X>, t: nat, pick: nat)
    requires Invariant(s) && t < |s.pool.threads| && s.pool.threads[t].Returning? && Picks(s.pool.threads, pick)
    ensures JobIsKnown(s, s.pool.threads[t].job) && Invariant(Returned(s, t, pick))
  {
    assert Fits(s, s.pool.threads[t]);
    SoleBearer(s, t);
    DropKeeps(s, t);
    var job := s.pool.threads[t].job;
    var over := s.(pool := s.pool.(threads := s.pool.threads[t := Entering]), completed := s.completed + [job],
                   workers := s.workers[job.worker := s.workers[job.worker].(running := false)]);
    ReleaseKeeps(s, t, over);
    assert Picks(over.pool.threads, pick) by {
      if SomeoneWaits(over.pool.threads) {
        assert SomeoneWaits(s.pool.threads);
      }
    }
    RunNextKeeps(over, job.worker, pick);
  }

  /** The worker no longer runs, and its wrapper is gone. */
  lemma ReleaseKeeps<X(!new)>(s: System<X>, t: nat, over: System<X>)
    requires WorkersInvariant(s, -1) && t < |s.pool.threads| && s.pool.threads[t].Returning?
    requires s.pool.threads[t].job.Wrapped? && IsWrapper(s, s.pool.threads[t].job)
    requires var job := s.pool.threads[t].job;
             && over.pool == s.pool.(threads := s.pool.threads[t := Entering])
             && over.workers == s.workers[job.worker := s.workers[job.worker].(running := false)]
             && (forall other: Job<X> :: Load(over.pool, other) == Load(s.pool, other) - if other == job then 1 else 0)
    ensures WorkersInvariant(over, s.pool.threads[t].job.worker)
  {
    SoleBearer(s, t);
    assert Fits(s, s.pool.threads[t]);
    assert AllInOrder(over);
    assert AllFit(over);
    assert OneWrapperEach(over) by {
      forall other: Job<X> | other.Wrapped?
        ensures Load(over.pool, other) == if IsWrapper(over, other) then 1 else 0
      {
      }
    }
  }

  /** Threads that run a task, or return from one, keep the pool from being destroyed. */
  lemma BusyIsNotJoining<X>(pool: Pool<X>, t: nat)
    requires PoolInvariant(pool) && t < |pool.threads| && Active(pool.threads[t]) == 1
    ensures !pool.shouldJoin && pool.activeCount > 0
  {
    TotalHas(pool.threads, Active, t);
  }

  /** Every step keeps the invariant. */
  lemma StepKeeps<X(!new)>(s: System<X>, action: Action<X>)
    requires Invariant(s) && Enabled(s, action)
    ensures Invariant(After(s, action))
  {
    match action {
      case Schedule(caller, target, task, pick) => {
        if caller.Inside? {
          BusyIsNotJoining(s.pool, caller.thread);
        }
        if target.OnPool? {
          ScheduleOnPoolKeeps(s, task, pick);
        } else {
          ScheduleOnWorkerKeeps(s, target.worker, task, pick);
        }
      }
      case Enter(t) => {
        BusyIsNotJoining(s.pool, t);
        LookKeeps(s.pool.(activeCount := s.pool.activeCount - 1), t);
        LookMoves(s.pool.(activeCount := s.pool.activeCount - 1), t);
        MovingKeeps(s, Look(s.pool.(activeCount := s.pool.activeCount - 1), t));
      }
      case Wake(t) => {
        LookKeeps(s.pool, t);
        LookMoves(s.pool, t);
        MovingKeeps(s, Look(s.pool, t));
      }
      case Spurious(t) => {
        SpuriousKeeps(s.pool, t);
        MovingKeeps(s, s.pool.(threads := s.pool.threads[t := Notified]));
      }
      case Finish(t) => {
        if s.pool.threads[t].job.Plain? {
          FinishPlainKeeps(s, t);
        } else {
          FinishWrappedKeeps(s, t);
        }
      }
      case Return(t, pick) => {
        ReturnKeeps(s, t, pick);
      }
      case Destroy => {
        DestroyKeeps(s.pool);
        MovingKeeps(s, s.pool.(shouldJoin := true, threads := SignalAll(s.pool.threads)));
      }
    }
  }

  lemma {:induction false} RunsKeep<X(!new)>(s: System<X>, actions: seq<Action<X>>, end: System<X>)
    requires Invariant(s) && Runs(s, actions, end)
    ensures Invariant(end)
    decreases |actions|
  {
    if actions != [] {
      StepKeeps(s, actions[0]);
      RunsKeep(After(s, actions[0]), actions[1..], end);
    }
  }

  lemma {:induction false} InitialTotals<X>(n: nat, weight: Phase<X> -> nat)
    ensures weight(Entering) == 1 ==> Total(Entered<X>(n), weight) == n
    ensures weight(Entering) == 0 ==> Total(Entered<X>(n), weight) == 0
  {
    if n > 0 {
      InitialTotals<X>(n - 1, weight);
      assert Entered<X>(n)[..n - 1] == Entered<X>(n - 1);
    }
  }

  lemma InitialInvariant<X(!new)>(threads: nat, workers: nat)
    requires 0 < threads
    ensures Invariant(Initial<X>(threads, workers))
  {
    var s := Initial<X>(threads, workers);
    InitialTotals<X>(threads, Active);
    assert PoolInvariant(s.pool);
    forall job: Job<X>
      ensures Load(s.pool, job) == 0 && !IsWrapper(s, job)
    {
      InitialTotals<X>(threads, Bearing(job));
    }
    assert Accounted(s);
  }
}
