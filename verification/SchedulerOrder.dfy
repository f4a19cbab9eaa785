/** The order in which jobs are taken: what is scheduled first is taken first. */
module SchedulerOrder {
  import opened Schedulers
  import opened SchedulerLaws

  // ----- what happens in a run -----

  /** The job that a thread has taken in this step, if any. */
  ghost function TakenIn<X>(s: System<X>, action: Action<X>): seq<Job<X>>
    requires Enabled(s, action)
  {
    if (action.Enter? || action.Wake?) && After(s, action).pool.threads[action.thread].Running?
    then [After(s, action).pool.threads[action.thread].job] else []
  }

  /** The jobs that the threads take in a run, in the order in which they take them. */
  ghost function TakenOn<X>(s: System<X>, actions: seq<Action<X>>): seq<Job<X>>
    decreases |actions|
  {
    if actions == [] || !Enabled(s, actions[0]) then [] else
      TakenIn(s, actions[0]) + TakenOn(After(s, actions[0]), actions[1..])
  }

  /** The tasks that are scheduled on the target in a run, in the order in which they are scheduled. */
  function TasksFor<X>(actions: seq<Action<X>>, target: Target): seq<X> {
    if actions == [] then [] else
      (if actions[0].Schedule? && actions[0].target == target then [actions[0].task] else []) + TasksFor(actions[1..], target)
  }

  /** The tasks among the jobs that are not wrapped by a worker. */
  function Plains<X>(jobs: seq<Job<X>>): seq<X> {
    if jobs == [] then [] else (if jobs[0].Plain? then [jobs[0].task] else []) + Plains(jobs[1..])
  }

  lemma {:induction false} PlainsOfBoth<X>(first: seq<Job<X>>, second: seq<Job<X>>)
    ensures Plains(first + second) == Plains(first) + Plains(second)
  {
    if first == [] {
      assert first + second == second;
    } else {
      var job, rest := first[0], first[1..];
      PlainsOfBoth(rest, second);
      PlainsCons(job, rest + second);
      assert first == [job] + rest;
      Regroup(job, rest, second);
      Grouping(if job.Plain? then [job.task] else [], Plains(rest), Plains(second));
    }
  }

  lemma Regroup<X>(job: X, rest: seq<X>, second: seq<X>)
    ensures ([job] + rest) + second == [job] + (rest + second)
  {
  }

  lemma Grouping<X>(one: seq<X>, two: seq<X>, three: seq<X>)
    ensures (one + two) + three == one + (two + three)
  {
  }

  lemma PlainsCons<X>(job: Job<X>, jobs: seq<Job<X>>)
    ensures Plains([job] + jobs) == (if job.Plain? then [job.task] else []) + Plains(jobs)
  {
    assert ([job] + jobs)[1..] == jobs;
  }

  // ----- first in, first out -----

  /** The jobs that are accepted between the two states. */
  ghost function Accepted<X>(s: System<X>, end: System<X>): seq<Job<X>>
    requires |s.accepted| <= |end.accepted|
  {
    end.accepted[|s.accepted|..]
  }

  /** Whatever was accepted stays so, in its place. */
  ghost predicate Extends<X>(s: System<X>, end: System<X>) {
    |s.accepted| <= |end.accepted| && end.accepted[..|s.accepted|] == s.accepted
  }

  /** In a step at most one job is accepted, at the end of the queue, and at most one taken, from its
      front. */
  lemma StepInOrder<X>(s: System<X>, action: Action<X>)
    requires Enabled(s, action)
    ensures var after := After(s, action);
            && Extends(s, after)
            && TakenIn(s, action) + after.pool.todo == s.pool.todo + Accepted(s, after)
            && Plains(Accepted(s, after)) == TasksFor([action], OnPool)
  {
  }

  lemma ExtendsOn<X>(s: System<X>, mid: System<X>, end: System<X>)
    requires Extends(s, mid) && Extends(mid, end)
    ensures Extends(s, end) && Accepted(s, end) == Accepted(s, mid) + Accepted(mid, end)
  {
    assert end.accepted[..|s.accepted|] == end.accepted[..|mid.accepted|][..|s.accepted|];
    assert mid.accepted == s.accepted + Accepted(s, mid);
    assert end.accepted == mid.accepted + Accepted(mid, end);
  }

  lemma InOrderOn<X>(first: seq<X>, taken: seq<X>, todo: seq<X>, mid: seq<X>, before: seq<X>, more: seq<X>, later: seq<X>)
    requires first + mid == before + more && taken + todo == mid + later
    ensures (first + taken) + todo == before + (more + later)
  {
    assert (first + taken) + todo == first + (taken + todo);
    assert first + (mid + later) == (first + mid) + later;
    assert (before + more) + later == before + (more + later);
  }

  /** The jobs taken in a run, in the order in which they are taken, and then those still queued are
      the jobs in the order in which they were accepted. */
  lemma {:induction false} FirstInFirstOut<X>(s: System<X>, actions: seq<Action<X>>, end: System<X>)
    requires Runs(s, actions, end)
    ensures Extends(s, end) && TakenOn(s, actions) + end.pool.todo == s.pool.todo + Accepted(s, end)
    decreases |actions|
  {
    if actions != [] {
      var next := After(s, actions[0]);
      StepInOrder(s, actions[0]);
      FirstInFirstOut(next, actions[1..], end);
      ExtendsOn(s, next, end);
      InOrderOn(TakenIn(s, actions[0]), TakenOn(next, actions[1..]), end.pool.todo, next.pool.todo,
                s.pool.todo, Accepted(s, next), Accepted(next, end));
    }
  }

  lemma {:induction false} AcceptedAsScheduled<X>(s: System<X>, actions: seq<Action<X>>, end: System<X>)
    requires Runs(s, actions, end)
    ensures Extends(s, end) && Plains(Accepted(s, end)) == TasksFor(actions, OnPool)
    decreases |actions|
  {
    if actions != [] {
      var next := After(s, actions[0]);
      StepInOrder(s, actions[0]);
      AcceptedAsScheduled(next, actions[1..], end);
      ExtendsOn(s, next, end);
      PlainsOfBoth(Accepted(s, next), Accepted(next, end));
      TasksForFirst(actions, OnPool);
    }
  }

  lemma TasksForFirst<X>(actions: seq<Action<X>>, target: Target)
    requires actions != []
    ensures TasksFor(actions, target) == TasksFor([actions[0]], target) + TasksFor(actions[1..], target)
  {
    assert [actions[0]][1..] == [];
  }

  /** Of a pool on which nothing has happened before: the tasks scheduled on it are taken in the order
      in which they are scheduled, none twice and none left out. */
  lemma TakenAsScheduled<X>(threads: nat, workers: nat, actions: seq<Action<X>>, end: System<X>)
    requires Runs(Initial(threads, workers), actions, end)
    ensures TakenOn(Initial(threads, workers), actions) + end.pool.todo == end.accepted
    ensures Plains(TakenOn(Initial(threads, workers), actions)) + Plains(end.pool.todo) == TasksFor(actions, OnPool)
  {
    var start, taken := Initial<X>(threads, workers), TakenOn(Initial<X>(threads, workers), actions);
    FirstInFirstOut(start, actions, end);
    AcceptedAsScheduled(start, actions, end);
    assert Accepted(start, end) == end.accepted;
    PlainsOfBoth(taken, end.pool.todo);
  }

  // ----- the tasks of a worker -----

  lemma StepSchedules<X>(s: System<X>, action: Action<X>, w: nat)
    requires Enabled(s, action) && w < |s.workers|
    ensures |After(s, action).workers| == |s.workers|
    ensures After(s, action).workers[w].scheduled == s.workers[w].scheduled + TasksFor([action], OnWorker(w))
  {
  }

  /** A worker's tasks are those scheduled on it, in the order in which they are scheduled. */
  lemma {:induction false} ScheduledInOrder<X>(s: System<X>, actions: seq<Action<X>>, end: System<X>, w: nat)
    requires Runs(s, actions, end) && w < |s.workers|
    ensures |end.workers| == |s.workers|
    ensures end.workers[w].scheduled == s.workers[w].scheduled + TasksFor(actions, OnWorker(w))
    decreases |actions|
  {
    if actions != [] {
      StepSchedules(s, actions[0], w);
      ScheduledInOrder(After(s, actions[0]), actions[1..], end, w);
      TasksForFirst(actions, OnWorker(w));
    }
  }

  // ----- a pool of one thread -----

  /** The job that the thread is busy with. */
  function InHand<X>(phase: Phase<X>): seq<Job<X>> {
    if phase.Running? || phase.Returning? then [phase.job] else []
  }

  ghost predicate InSequence<X>(s: System<X>) {
    |s.pool.threads| == 1 && s.completed + InHand(s.pool.threads[0]) + s.pool.todo == s.accepted
  }

  lemma OneThreadStep<X>(s: System<X>, action: Action<X>)
    requires InSequence(s) && Enabled(s, action)
    ensures InSequence(After(s, action))
  {
  }

  lemma {:induction false} OneThreadRuns<X>(s: System<X>, actions: seq<Action<X>>, end: System<X>)
    requires InSequence(s) && Runs(s, actions, end)
    ensures InSequence(end)
    decreases |actions|
  {
    if actions != [] {
      OneThreadStep(s, actions[0]);
      OneThreadRuns(After(s, actions[0]), actions[1..], end);
    }
  }

  /** A single thread completes the jobs in the order in which they were accepted. */
  lemma OneThreadInOrder<X>(workers: nat, actions: seq<Action<X>>, end: System<X>)
    requires Runs(Initial(1, workers), actions, end)
    ensures end.completed <= end.accepted
    ensures Plains(end.completed) <= TasksFor(actions, OnPool)
  {
    var start := Initial<X>(1, workers);
    OneThreadRuns(start, actions, end);
    AcceptedAsScheduled(start, actions, end);
    assert Accepted(start, end) == end.accepted;
    var rest := InHand(end.pool.threads[0]) + end.pool.todo;
    assert end.accepted == end.completed + rest;
    PlainsOfBoth(end.completed, rest);
  }

  // ----- wakeups -----

  function Asleep<X>(phase: Phase<X>): nat {
    if phase.Waiting? then 1 else 0
  }

  /** Scheduling on the pool wakes one waiting thread if there is any, and leaves the others as they are. */
  lemma ScheduleWakesOne<X>(s: System<X>, caller: Caller, task: X, pick: nat)
    requires Enabled(s, Schedule(caller, OnPool, task, pick))
    ensures var threads := After(s, Schedule(caller, OnPool, task, pick)).pool.threads;
            && |threads| == |s.pool.threads|
            && Total(threads, Asleep) == Total(s.pool.threads, Asleep) - (if SomeoneWaits(s.pool.threads) then 1 else 0)
            && forall t :: 0 <= t < |threads| ==>
                 threads[t] == s.pool.threads[t] || (s.pool.threads[t].Waiting? && threads[t].Notified?)
  {
    if SomeoneWaits(s.pool.threads) {
      TotalUpdate(s.pool.threads, Asleep, pick, Notified);
    }
  }
}
