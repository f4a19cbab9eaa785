/** The failing runs between two serial workers are runs of a program on a thread pool: two threads
    are enough, each of them in the service of one of the two workers. */
module AsyncLifting {
  import opened RequestBalances
  import opened Events
  import opened Generators
  import opened S = Schedulers
  import opened SchedulerLaws
  import opened SchedulerGuarantees
  import opened SerialWorkers
  import opened A = Asyncs
  import opened AsyncLaws
  import opened AsyncOnPool
  import opened AsyncGuarantees
  import opened AsyncExactly

  // ----- two workers, two threads -----

  /** Where the thread of a worker is when there is nothing to do but the worker's tasks. */
  function Place<X>(w: nat, queue: seq<X>): Phase<X> {
    if queue == [] then Waiting else Running(Wrapped(w, queue[0]))
  }

  /** Thread `t` serves worker `t`: it executes the head of its queue, or waits. */
  ghost predicate Paired<X(!new)>(s: System<X>) {
    && Invariant(s) && |s.workers| == 2 && |s.pool.threads| == 2
    && s.pool.todo == [] && !s.pool.shouldJoin
    && (forall w :: 0 <= w < 2 ==> s.pool.threads[w] == Place(w, View(s, w).queue))
  }

  /** Such a worker is running exactly if it has tasks, and has taken the first of them. */
  lemma PairedRuns<X(!new)>(s: System<X>, w: nat)
    requires Paired(s) && w < 2
    ensures s.workers[w].running <==> View(s, w).queue != []
    ensures View(s, w).queue != [] ==> s.workers[w].steps == View(s, w).queue[1..]
    ensures View(s, w).queue == [] ==> s.workers[w].steps == []
    ensures View(s, w).busy == (View(s, w).queue != [])
  {
    var worker := s.workers[w];
    assert s.pool.threads[w] == Place(w, View(s, w).queue);
    if View(s, w).queue != [] {
      assert InBody(s, w, w);
      BorneIsLive(s, w);
      assert Fits(s, s.pool.threads[w]);
    } else {
      assert s.pool.threads[1 - w] == Place(1 - w, View(s, 1 - w).queue);
      if worker.running {
        var job := Wrapped(w, worker.scheduled[Taken(worker) - 1]);
        assert IsWrapper(s, job) && Load(s.pool, job) == 1;
        var t := TotalFinds(s.pool.threads, Bearing(job));
      }
    }
  }

  /** What is queued, where the thread of worker `w` is, and where the other thread is. */
  predicate At<X(==)>(s: System<X>, w: nat, todo: seq<Job<X>>, own: Phase<X>, other: Phase<X>)
    requires w < 2
  {
    && |s.workers| == 2 && |s.pool.threads| == 2 && !s.pool.shouldJoin && s.pool.todo == todo
    && s.pool.threads[w] == own && s.pool.threads[1 - w] == other
  }

  /** A task scheduled on a worker without tasks wakes the worker's thread, which executes it. */
  lemma PairedWakes<X(!new)>(s: System<X>, w: nat, task: X)
    requires Paired(s) && w < 2 && View(s, w).queue == []
    ensures Picks(s.pool.threads, w)
    ensures At(Scheduled(s, OnWorker(w), task, w), w, [Wrapped(w, task)], Notified, Place(1 - w, View(s, 1 - w).queue))
  {
    PairedRuns(s, w);
    assert s.pool.threads[w].Waiting?;
    assert s.pool.threads[1 - w] == Place(1 - w, View(s, 1 - w).queue);
  }

  /** A task scheduled on a worker with tasks is queued. */
  lemma PairedQueues<X(!new)>(s: System<X>, w: nat, task: X, pick: nat)
    requires Paired(s) && w < 2 && View(s, w).queue != [] && Picks(s.pool.threads, pick)
    ensures Paired(Scheduled(s, OnWorker(w), task, pick))
  {
    PairedRuns(s, w);
    var next := Scheduled(s, OnWorker(w), task, pick);
    ScheduleOnWorkerKeeps(s, w, task, pick);
    assert next.pool == s.pool;
    assert View(next, w).queue == View(s, w).queue + [task];
  }

  lemma PairedFinishes<X(!new)>(s: System<X>, w: nat)
    requires Paired(s) && w < 2 && View(s, w).queue != []
    ensures s.pool.threads[w] == Running(Wrapped(w, View(s, w).queue[0]))
    ensures s.workers[w].steps == View(s, w).queue[1..]
    ensures Picks(s.pool.threads[w := Returning(Wrapped(w, View(s, w).queue[0]))], 1 - w)
  {
    PairedRuns(s, w);
    assert s.pool.threads[1 - w] == Place(1 - w, View(s, 1 - w).queue);
  }

  lemma FinishesTo<X(!new)>(s: System<X>, w: nat)
    requires Paired(s) && w < 2 && View(s, w).queue != [] && S.Enabled(s, Finish(w))
    ensures var over := S.After(s, Finish(w));
            && over.pool.threads == s.pool.threads[w := Returning(Wrapped(w, View(s, w).queue[0]))]
            && over.pool.todo == [] && !over.pool.shouldJoin && |over.workers| == 2
            && over.workers[w].steps == View(s, w).queue[1..]
  {
    PairedFinishes(s, w);
  }

  /** The wrapper of the first of the tasks that are left to worker `w`. */
  function NextOf<X>(w: nat, left: seq<X>): seq<Job<X>> {
    if left == [] then [] else [Wrapped(w, left[0])]
  }

  /** A thread that waits is woken if a task is left. */
  function Woken<X>(left: seq<X>, other: Phase<X>): Phase<X> {
    if left != [] && other.Waiting? then Notified else other
  }

  /** A thread that has finished the task of a worker goes back to look for work; the worker's next
      task is queued, and the other thread is woken for it if it waits. */
  lemma ReturnsTo<X>(over: System<X>, w: nat, task: X, left: seq<X>, other: Phase<X>)
    requires w < 2 && At(over, w, [], Returning(Wrapped(w, task)), other) && left == over.workers[w].steps
    requires S.Enabled(over, Return(w, 1 - w))
    ensures At(S.After(over, Return(w, 1 - w)), w, NextOf(w, left), Entering, Woken(left, other))
  {
  }

  // ----- the program -----

  lemma OccursNext<T(!new)>(script: Script<T>, demands: Demands<T>, g: Program<T>, step: ProgramStep<T>, next: Program<T>)
    requires Occurs(script, demands, g) && Wellformed(g) && CanStep(g, demands, step) && next == Stepped(g, demands, step)
    ensures Occurs(script, demands, next)
  {
    RunsFrom(g, demands, step, [], next);
    assert [step] + [] == [step];
    OccursLater(script, demands, g, [step], next);
  }

  /** A program with two threads and the two workers 0, to produce on, and 1, to consume on. */
  ghost predicate Small<T(!new)>(g: Program<T>) {
    && Tracked(g) && g.p == 0 && g.c == 1
    && |g.system.workers| == 2 && |g.system.pool.threads| == 2 && !g.system.pool.shouldJoin
  }

  ghost function Queue<T(!new)>(g: Program<T>, w: nat): seq<Task<T>>
    requires Small(g) && w < 2
  {
    View(g.system, w).queue
  }

  function QueueOf<T>(s: State<T>, w: nat): seq<Task<T>> {
    if w == 0 then s.produce.queue else s.consume.queue
  }

  lemma QueueIs<T(!new)>(g: Program<T>, s: State<T>, w: nat)
    requires Small(g) && s == Abstract(g) && w < 2
    ensures Queue(g, w) == QueueOf(s, w)
  {
  }

  lemma OtherWay<X>(s: System<X>, w: nat, todo: seq<Job<X>>, own: Phase<X>, other: Phase<X>)
    requires w < 2
    ensures At(s, w, todo, own, other) == At(s, 1 - w, todo, other, own)
  {
  }

  ghost predicate Stands<T(!new)>(g: Program<T>, w: nat, todo: seq<Job<Task<T>>>,
                                  own: Phase<Task<T>>, other: Phase<Task<T>>)
    requires w < 2
  {
    Small(g) && At(g.system, w, todo, own, other)
  }

  lemma InPlace<T(!new)>(g: Program<T>, w: nat, own: seq<Task<T>>, others: seq<Task<T>>)
    requires w < 2 && Stands(g, w, [], Place(w, own), Place(1 - w, others))
    requires Queue(g, w) == own && Queue(g, 1 - w) == others
    ensures Paired(g.system)
  {
    assert g.system.pool.threads[w] == Place(w, Queue(g, w));
    assert g.system.pool.threads[1 - w] == Place(1 - w, Queue(g, 1 - w));
  }

  function Begin(w: nat): Step {
    if w == 0 then BeginProduce else BeginConsume
  }

  function End(w: nat): Step {
    if w == 0 then EndProduce else EndConsume
  }

  /** A step of the pool's is a step between the serial workers, or none. */
  lemma PoolMoves<T(!new)>(script: Script<T>, demands: Demands<T>, g: Program<T>, action: Action<Task<T>>, seen: Seen)
    returns (h: Program<T>)
    requires Occurs(script, demands, g) && Small(g) && CanStep(g, demands, PoolStep(action))
    requires seen == SeenAs(g, demands, PoolStep(action))
    ensures Occurs(script, demands, h) && Tracked(h) && h.p == g.p && h.c == g.c && h.system == S.After(g.system, action)
    ensures Leads(Abstract(g), demands, seen, Abstract(h))
  {
    h := Stepped(g, demands, PoolStep(action));
    PoolStepRefines(g, demands, action);
    OccursNext(script, demands, g, PoolStep(action), h);
  }

  /** The worker begins the first of the tasks that are left to it. */
  ghost predicate Follows<T>(s: State<T>, demands: Demands<T>, w: nat, left: seq<Task<T>>, t: State<T>)
    requires w < 2
  {
    if left == [] then t == s else A.Enabled(s, demands, Begin(w)) && t == A.After(s, demands, Begin(w))
  }

  /** A thread that looks for work takes the queued task, or waits. */
  lemma TakesTo<X>(s: System<X>, w: nat, action: Action<X>, left: seq<X>, other: Phase<X>)
    requires w < 2
    requires || (action == Enter(w) && At(s, w, NextOf(w, left), Entering, other))
             || (action == Wake(w) && At(s, w, NextOf(w, left), Notified, other))
    ensures At(S.After(s, action), w, [], Place(w, left), other)
  {
  }

  lemma TakeSeen<T(!new)>(g: Program<T>, demands: Demands<T>, w: nat, action: Action<Task<T>>, left: seq<Task<T>>)
    requires Small(g) && w < 2 && !g.stream.failed && S.Enabled(g.system, action)
    requires (action == Enter(w) || action == Wake(w)) && g.system.pool.todo == NextOf(w, left)
    ensures CanStep(g, demands, PoolStep(action))
    ensures SeenAs(g, demands, PoolStep(action)) == if left == [] then Unseen else AsStep(Begin(w))
  {
  }

  lemma TakesTask<T(!new)>(script: Script<T>, demands: Demands<T>, g: Program<T>, w: nat, action: Action<Task<T>>,
                           left: seq<Task<T>>, other: Phase<Task<T>>) returns (h: Program<T>)
    requires w < 2 && Occurs(script, demands, g) && !g.stream.failed
    requires || (action == Enter(w) && Stands(g, w, NextOf(w, left), Entering, other))
             || (action == Wake(w) && Stands(g, w, NextOf(w, left), Notified, other))
    ensures Occurs(script, demands, h) && Stands(h, w, [], Place(w, left), other)
    ensures Follows(Abstract(g), demands, w, left, Abstract(h))
  {
    TakesTo(g.system, w, action, left, other);
    TakeSeen(g, demands, w, action, left);
    h := PoolMoves(script, demands, g, action, if left == [] then Unseen else AsStep(Begin(w)));
  }

  // ----- steps between serial workers, on the pool -----

  /** The state in which every task that can start has started. */
  function Eager<T>(s: State<T>): State<T> {
    var p := CanMove(s.produce, Start);
    var c := CanMove(s.consume, Start);
    var begun := if p then Begun(s.stream, true, s.produce.queue[0]) else s.stream;
    State(s.produce.(busy := s.produce.queue != []), s.consume.(busy := s.consume.queue != []),
          if c then Begun(begun, false, s.consume.queue[0]) else begun)
  }

  lemma EagerBegins<T>(s: State<T>, demands: Demands<T>, step: Step)
    requires A.Enabled(s, demands, step) && (step.BeginProduce? || step.BeginConsume?)
    ensures Eager(A.After(s, demands, step)) == Eager(s)
  {
  }

  ghost predicate Commutes<T>(s: State<T>, demands: Demands<T>, step: Step)
    requires A.Enabled(s, demands, step)
  {
    A.Enabled(Eager(s), demands, step) && Eager(A.After(s, demands, step)) == Eager(A.After(Eager(s), demands, step))
  }

  /** A task may start as soon as it can: what happens otherwise is the same before and after. */
  lemma EagerCommutes<T>(s: State<T>, demands: Demands<T>, step: Step)
    requires A.Enabled(s, demands, step) && !step.BeginProduce? && !step.BeginConsume?
    requires s.produce.busy ==> s.produce.queue != []
    requires s.consume.busy ==> s.consume.queue != []
    ensures Commutes(s, demands, step)
  {
    match step {
      case Submit =>
      case ScheduleOther(_, _) =>
      case Produce => EagerProduces(s, demands);
      case EndProduce => EagerStops(s, demands, step);
      case Consume => EagerConsumes(s, demands);
      case EndConsume => EagerStops(s, demands, step);
    }
  }

  /** The producer does the same wherever the consumer is. */
  lemma ProducesAside<T>(stream: Stream<T>, task: Task<T>, at: ConsumerAt)
    requires ProducerGetsOn(stream, task)
    ensures Aside(stream, task, at)
  {
    match stream.producerAt {
      case Entry => EntersAside(stream, task, at);
      case Generating => GeneratesAside(stream, task, at);
      case Deleting =>
    }
  }

  predicate Aside<T(==)>(stream: Stream<T>, task: Task<T>, at: ConsumerAt)
    requires ProducerGetsOn(stream, task)
  {
    && ProducerGetsOn(stream.(consumerAt := at), task)
    && Producing(stream.(consumerAt := at), task).0 == Producing(stream, task).0.(consumerAt := at)
    && Producing(stream.(consumerAt := at), task).1 == Producing(stream, task).1
  }

  lemma EntersAside<T>(stream: Stream<T>, task: Task<T>, at: ConsumerAt)
    requires ProducerGetsOn(stream, task) && stream.producerAt.Entry?
    ensures Aside(stream, task, at)
  {
  }

  lemma GeneratesAside<T>(stream: Stream<T>, task: Task<T>, at: ConsumerAt)
    requires stream.producerAt.Generating?
    ensures Aside(stream, task, at)
  {
  }

  lemma EagerProduces<T>(s: State<T>, demands: Demands<T>)
    requires A.Enabled(s, demands, Produce) && (s.consume.busy ==> s.consume.queue != [])
    ensures Commutes(s, demands, Produce)
  {
    var task := s.produce.queue[0];
    var (stream, move) := Producing(s.stream, task);
    if s.consume.queue != [] {
      ProducesAside(s.stream, task, Begun(s.stream, false, s.consume.queue[0]).consumerAt);
    }
    assert A.After(s, demands, Produce) == s.(stream := stream, consume := Moved(s.consume, move));
  }

  lemma EagerConsumes<T>(s: State<T>, demands: Demands<T>)
    requires A.Enabled(s, demands, Consume) && (s.produce.busy ==> s.produce.queue != [])
    ensures Commutes(s, demands, Consume)
  {
  }

  lemma EagerStops<T>(s: State<T>, demands: Demands<T>, step: Step)
    requires A.Enabled(s, demands, step) && (step.EndProduce? || step.EndConsume?)
    requires s.produce.busy ==> s.produce.queue != []
    requires s.consume.busy ==> s.consume.queue != []
    ensures Commutes(s, demands, step)
  {
  }

  /** The program is where the state between two serial workers is, once all that can start has. */
  ghost predicate Lifts<T(!new)>(script: Script<T>, demands: Demands<T>, g: Program<T>, s: State<T>) {
    Occurs(script, demands, g) && Small(g) && Paired(g.system) && Abstract(g) == Eager(s)
  }

  // ----- a task is scheduled -----

  /** The thread that notices a new task: the worker's own if it waits, or the other's. */
  ghost function Listening<T(!new)>(g: Program<T>, w: nat): nat
    requires Small(g) && w < 2
  {
    if Queue(g, w) == [] then w else 1 - w
  }

  lemma ListeningPicks<T(!new)>(g: Program<T>, w: nat)
    requires Small(g) && Paired(g.system) && w < 2
    ensures Picks(g.system.pool.threads, Listening(g, w))
  {
    assert g.system.pool.threads[w] == Place(w, Queue(g, w));
    assert g.system.pool.threads[1 - w] == Place(1 - w, Queue(g, 1 - w));
  }

  /** The worker's thread has been notified of the task. */
  lemma CallsThread<T(!new)>(g: Program<T>, h: Program<T>, w: nat, task: Task<T>)
    requires Small(g) && Paired(g.system) && w < 2 && Tracked(h) && h.p == g.p && h.c == g.c && Queue(g, w) == []
    requires h.system == Scheduled(g.system, OnWorker(w), task, w)
    ensures Stands(h, w, [Wrapped(w, task)], Notified, Place(1 - w, Queue(g, 1 - w)))
  {
    PairedWakes(g.system, w, task);
  }

  lemma WakesUp<T(!new)>(script: Script<T>, demands: Demands<T>, g: Program<T>, w: nat, task: Task<T>, others: seq<Task<T>>)
    returns (h: Program<T>)
    requires w < 2 && Occurs(script, demands, g) && !g.stream.failed
    requires Stands(g, w, [Wrapped(w, task)], Notified, Place(1 - w, others))
    requires Queue(g, w) == [task] && Queue(g, 1 - w) == others
    ensures Occurs(script, demands, h) && Small(h) && Paired(h.system)
    ensures A.Enabled(Abstract(g), demands, Begin(w)) && Abstract(h) == A.After(Abstract(g), demands, Begin(w))
  {
    h := TakesTask(script, demands, g, w, Wake(w), [task], Place(1 - w, others));
    QueueIs(g, Abstract(g), w);
    QueueIs(g, Abstract(g), 1 - w);
    BeginKeepsQueues(Abstract(g), demands, w);
    QueueIs(h, Abstract(h), w);
    QueueIs(h, Abstract(h), 1 - w);
    InPlace(h, w, [task], others);
  }

  lemma BeginKeepsQueues<T>(s: State<T>, demands: Demands<T>, w: nat)
    requires w < 2 && A.Enabled(s, demands, Begin(w))
    ensures forall v: nat :: v < 2 ==> QueueOf(A.After(s, demands, Begin(w)), v) == QueueOf(s, v)
  {
  }

  lemma PairedIsEager<T(!new)>(g: Program<T>)
    requires Small(g) && Paired(g.system)
    ensures Abstract(g) == Eager(Abstract(g))
  {
    PairedRuns(g.system, 0);
    PairedRuns(g.system, 1);
  }

  /** The only task that can start has started, and now everything is in its place. */
  lemma BegunIsEager<T(!new)>(s: State<T>, demands: Demands<T>, w: nat, g: Program<T>)
    requires w < 2 && A.Enabled(s, demands, Begin(w)) && Small(g) && Paired(g.system)
    requires Abstract(g) == A.After(s, demands, Begin(w))
    ensures Abstract(g) == Eager(s)
  {
    PairedIsEager(g);
    EagerBegins(s, demands, Begin(w));
  }

  /** Once a task was scheduled on a worker, it starts unless the worker is busy. */
  lemma Responds<T(!new)>(script: Script<T>, demands: Demands<T>, g: Program<T>, h: Program<T>, w: nat, task: Task<T>)
    returns (next: Program<T>)
    requires Small(g) && Paired(g.system) && w < 2 && Tracked(h) && h.p == g.p && h.c == g.c
    requires h.system == Scheduled(g.system, OnWorker(w), task, Listening(g, w))
    requires QueueOf(Abstract(h), w) == Queue(g, w) + [task] && QueueOf(Abstract(h), 1 - w) == Queue(g, 1 - w)
    requires Occurs(script, demands, h) && !h.stream.failed
    ensures Lifts(script, demands, next, Abstract(h))
  {
    if Queue(g, w) == [] {
      CallsThread(g, h, w, task);
      QueueIs(h, Abstract(h), w);
      QueueIs(h, Abstract(h), 1 - w);
      next := WakesUp(script, demands, h, w, task, Queue(g, 1 - w));
      BegunIsEager(Abstract(h), demands, w, next);
    } else {
      next := h;
      ListeningPicks(g, w);
      PairedQueues(g.system, w, task, Listening(g, w));
      PairedIsEager(h);
    }
  }

  // ----- each step -----

  /** The program takes one step, in which a task is scheduled on worker `w` or nothing is. */
  ghost predicate Moves<T(!new)>(script: Script<T>, demands: Demands<T>, g: Program<T>, step: Step, w: nat,
                                 move: Move<Task<T>>, h: Program<T>)
    requires Small(g) && w < 2 && A.Enabled(Abstract(g), demands, step)
  {
    && Occurs(script, demands, h) && Tracked(h) && h.p == g.p && h.c == g.c
    && h.system == Scheduling(g.system, w, w, move, Listening(g, w))
    && Abstract(h) == A.After(Abstract(g), demands, step)
    && (move.Nothing? || (move.Enqueue? && !h.stream.failed))
    && (move.Enqueue? ==>
          QueueOf(Abstract(h), w) == Queue(g, w) + [move.task] && QueueOf(Abstract(h), 1 - w) == Queue(g, 1 - w))
  }

  lemma MovesLift<T(!new)>(script: Script<T>, demands: Demands<T>, g: Program<T>, step: Step, w: nat,
                           move: Move<Task<T>>, h: Program<T>) returns (next: Program<T>)
    requires Small(g) && Paired(g.system) && w < 2 && A.Enabled(Abstract(g), demands, step)
    requires Moves(script, demands, g, step, w, move, h)
    ensures Lifts(script, demands, next, A.After(Abstract(g), demands, step))
  {
    if move.Enqueue? {
      next := Responds(script, demands, g, h, w, move.task);
    } else {
      next := h;
      PairedIsEager(h);
    }
  }

  /** Someone outside schedules a task on worker `w`. */
  lemma LiftsSchedule<T(!new)>(script: Script<T>, demands: Demands<T>, g: Program<T>, w: nat, step: Step)
    returns (next: Program<T>)
    requires Occurs(script, demands, g) && Small(g) && Paired(g.system) && w < 2
    requires A.Enabled(Abstract(g), demands, step)
    requires (step == Submit && w == 0) || (step.ScheduleOther? && step.onProducer == (w == 0))
    ensures Lifts(script, demands, next, A.After(Abstract(g), demands, step))
  {
    var task := if step == Submit then Subscribe else Other(step.id);
    var h := SchedulesOn(script, demands, g, w, step, task);
    next := MovesLift(script, demands, g, step, w, Enqueue(task), h);
  }

  lemma SchedulesOn<T(!new)>(script: Script<T>, demands: Demands<T>, g: Program<T>, w: nat, step: Step, task: Task<T>)
    returns (h: Program<T>)
    requires Occurs(script, demands, g) && Small(g) && Paired(g.system) && w < 2
    requires A.Enabled(Abstract(g), demands, step)
    requires || (step == Submit && w == 0 && task == Subscribe)
             || (step.ScheduleOther? && step.onProducer == (w == 0) && task == Other(step.id))
    ensures Moves(script, demands, g, step, w, Enqueue(task), h)
  {
    var action := S.Schedule(Outside, OnWorker(w), task, Listening(g, w));
    ListeningPicks(g, w);
    assert CanStep(g, demands, PoolStep(action));
    h := Stepped(g, demands, PoolStep(action));
    PoolStepRefines(g, demands, action);
    OccursNext(script, demands, g, PoolStep(action), h);
  }

  /** The thread of a worker with tasks executes the first of them. */
  lemma Serves<T(!new)>(g: Program<T>, w: nat)
    requires Small(g) && Paired(g.system) && w < 2 && Queue(g, w) != []
    ensures InBody(g.system, w, w) && !InBody(g.system, w, 1 - w)
    ensures g.system.pool.threads[w].job.task == Queue(g, w)[0]
  {
    PairedFinishes(g.system, w);
  }

  lemma LiftsProduce<T(!new)>(script: Script<T>, demands: Demands<T>, g: Program<T>) returns (next: Program<T>)
    requires Occurs(script, demands, g) && Small(g) && Paired(g.system) && A.Enabled(Abstract(g), demands, Produce)
    ensures Lifts(script, demands, next, A.After(Abstract(g), demands, Produce))
  {
    var h := ProducesOn(script, demands, g);
    next := MovesLift(script, demands, g, Produce, 1, Producing(g.stream, Queue(g, 0)[0]).1, h);
  }

  lemma ProducingMoves<T>(stream: Stream<T>, task: Task<T>)
    requires ProducerGetsOn(stream, task)
    ensures Producing(stream, task).0.failed == stream.failed
    ensures Producing(stream, task).1.Nothing? || Producing(stream, task).1.Enqueue?
  {
  }

  lemma ProducesOn<T(!new)>(script: Script<T>, demands: Demands<T>, g: Program<T>) returns (h: Program<T>)
    requires Occurs(script, demands, g) && Small(g) && Paired(g.system) && A.Enabled(Abstract(g), demands, Produce)
    ensures Moves(script, demands, g, Produce, 1, Producing(g.stream, Queue(g, 0)[0]).1, h)
  {
    Serves(g, 0);
    ListeningPicks(g, 1);
    var step: ProgramStep<T> := BodyStep(0, Listening(g, 1));
    h := Stepped(g, demands, step);
    var (stream, move) := Producing(g.stream, Queue(g, 0)[0]);
    ProducingMoves(g.stream, Queue(g, 0)[0]);
    assert h == g.(system := Scheduling(g.system, 0, 1, move, Listening(g, 1)), stream := stream);
    ProduceRefines(g, demands, 0, Listening(g, 1));
    OccursNext(script, demands, g, step, h);
  }

  lemma LiftsConsume<T(!new)>(script: Script<T>, demands: Demands<T>, g: Program<T>) returns (next: Program<T>)
    requires Occurs(script, demands, g) && Small(g) && Paired(g.system) && A.Enabled(Abstract(g), demands, Consume)
    ensures Lifts(script, demands, next, A.After(Abstract(g), demands, Consume))
  {
    var h := ConsumesOn(script, demands, g);
    next := MovesLift(script, demands, g, Consume, 0, Consuming(g.stream, demands, Queue(g, 1)[0]).1, h);
  }

  lemma ConsumingMoves<T>(stream: Stream<T>, demands: Demands<T>, task: Task<T>)
    requires ConsumerGetsOn(stream, demands, task)
    ensures var (next, move) := Consuming(stream, demands, task);
            move.Nothing? || (move.Enqueue? && next.failed == stream.failed)
  {
  }

  lemma ConsumesOn<T(!new)>(script: Script<T>, demands: Demands<T>, g: Program<T>) returns (h: Program<T>)
    requires Occurs(script, demands, g) && Small(g) && Paired(g.system) && A.Enabled(Abstract(g), demands, Consume)
    ensures Moves(script, demands, g, Consume, 0, Consuming(g.stream, demands, Queue(g, 1)[0]).1, h)
  {
    Serves(g, 1);
    ListeningPicks(g, 0);
    var step: ProgramStep<T> := BodyStep(1, Listening(g, 0));
    h := Stepped(g, demands, step);
    var (stream, move) := Consuming(g.stream, demands, Queue(g, 1)[0]);
    ConsumingMoves(g.stream, demands, Queue(g, 1)[0]);
    assert h == g.(system := Scheduling(g.system, 1, 0, move, Listening(g, 0)), stream := stream);
    ConsumeRefines(g, demands, 1, Listening(g, 0));
    OccursNext(script, demands, g, step, h);
  }

  // ----- the end of a task -----

  lemma FinishSeen<T(!new)>(g: Program<T>, demands: Demands<T>, w: nat)
    requires Small(g) && Paired(g.system) && w < 2 && A.Enabled(Abstract(g), demands, End(w))
    ensures CanStep(g, demands, PoolStep(Finish(w)))
    ensures SeenAs(g, demands, PoolStep(Finish(w))) == AsStep(End(w))
  {
    Serves(g, w);
    PairedFinishes(g.system, w);
  }

  lemma FinishesTask<T(!new)>(script: Script<T>, demands: Demands<T>, g: Program<T>, w: nat, task: Task<T>,
                              left: seq<Task<T>>, other: Phase<Task<T>>) returns (h: Program<T>)
    requires Occurs(script, demands, g) && Small(g) && Paired(g.system) && w < 2
    requires A.Enabled(Abstract(g), demands, End(w))
    requires Queue(g, w) == [task] + left && other == Place(1 - w, Queue(g, 1 - w))
    ensures Occurs(script, demands, h) && Stands(h, w, [], Returning(Wrapped(w, task)), other)
    ensures h.system.workers[w].steps == left && Abstract(h) == A.After(Abstract(g), demands, End(w))
  {
    assert Queue(g, w)[1..] == left;
    FinishSeen(g, demands, w);
    FinishesTo(g.system, w);
    h := PoolMoves(script, demands, g, Finish(w), AsStep(End(w)));
    assert g.system.pool.threads[1 - w] == Place(1 - w, Queue(g, 1 - w));
  }

  lemma ReturnSeen<T(!new)>(g: Program<T>, demands: Demands<T>, w: nat)
    requires Small(g) && w < 2 && !g.stream.failed
    requires g.system.pool.threads[w].Returning? && g.system.pool.threads[w].job.Wrapped?
    requires g.system.pool.threads[w].job.worker == w
    ensures CanStep(g, demands, PoolStep(Return(w, 1 - w)))
    ensures SeenAs(g, demands, PoolStep(Return(w, 1 - w))) == Unseen
  {
  }

  lemma ReturnsTask<T(!new)>(script: Script<T>, demands: Demands<T>, g: Program<T>, w: nat, task: Task<T>,
                             left: seq<Task<T>>, other: Phase<Task<T>>) returns (h: Program<T>)
    requires w < 2 && Occurs(script, demands, g) && !g.stream.failed
    requires Stands(g, w, [], Returning(Wrapped(w, task)), other) && left == g.system.workers[w].steps
    ensures Occurs(script, demands, h) && Stands(h, w, NextOf(w, left), Entering, Woken(left, other))
    ensures Abstract(h) == Abstract(g)
  {
    ReturnSeen(g, demands, w);
    h := PoolMoves(script, demands, g, Return(w, 1 - w), Unseen);
    ReturnsTo(g.system, w, task, left, other);
  }

  /** The four steps of a thread at the end of a task; of another thread, if it was woken for nothing. */
  lemma EndsTask<T(!new)>(script: Script<T>, demands: Demands<T>, g: Program<T>, w: nat, task: Task<T>,
                          left: seq<Task<T>>, other: Phase<Task<T>>) returns (next: Program<T>)
    requires Occurs(script, demands, g) && Small(g) && Paired(g.system) && w < 2
    requires A.Enabled(Abstract(g), demands, End(w))
    requires Queue(g, w) == [task] + left && other == Place(1 - w, Queue(g, 1 - w))
    ensures Occurs(script, demands, next) && Stands(next, w, [], Place(w, left), other)
    ensures Follows(A.After(Abstract(g), demands, End(w)), demands, w, left, Abstract(next))
  {
    next := FinishesTask(script, demands, g, w, task, left, other);
    next := ReturnsTask(script, demands, next, w, task, left, other);
    next := LooksAgain(script, demands, next, w, left, other);
  }

  lemma EntersAgain<T(!new)>(script: Script<T>, demands: Demands<T>, g: Program<T>, w: nat, left: seq<Task<T>>,
                             other: Phase<Task<T>>) returns (h: Program<T>)
    requires w < 2 && Occurs(script, demands, g) && !g.stream.failed && Stands(g, w, NextOf(w, left), Entering, other)
    ensures Occurs(script, demands, h) && Stands(h, w, [], Place(w, left), other) && !h.stream.failed
    ensures Follows(Abstract(g), demands, w, left, Abstract(h))
  {
    h := TakesTask(script, demands, g, w, Enter(w), left, other);
    FollowsOn(Abstract(g), demands, w, left, Abstract(h));
  }

  lemma FollowsOn<T>(s: State<T>, demands: Demands<T>, w: nat, left: seq<Task<T>>, t: State<T>)
    requires w < 2 && Follows(s, demands, w, left, t)
    ensures t.stream.failed == s.stream.failed
  {
  }

  /** The other thread was woken for nothing. */
  lemma WaitsAgain<T(!new)>(script: Script<T>, demands: Demands<T>, g: Program<T>, w: nat, own: Phase<Task<T>>)
    returns (h: Program<T>)
    requires w < 2 && Occurs(script, demands, g) && !g.stream.failed && Stands(g, w, [], own, Notified)
    ensures Occurs(script, demands, h) && Stands(h, w, [], own, Waiting) && Abstract(h) == Abstract(g)
  {
    var other := 1 - w;
    OtherWay(g.system, w, [], own, Notified);
    h := TakesTask(script, demands, g, other, Wake(other), [], own);
    OtherWay(h.system, w, [], own, Waiting);
  }

  lemma LooksAgain<T(!new)>(script: Script<T>, demands: Demands<T>, g: Program<T>, w: nat, left: seq<Task<T>>,
                            other: Phase<Task<T>>) returns (next: Program<T>)
    requires w < 2 && Occurs(script, demands, g) && !g.stream.failed
    requires Stands(g, w, NextOf(w, left), Entering, Woken(left, other))
    ensures Occurs(script, demands, next) && Stands(next, w, [], Place(w, left), other)
    ensures Follows(Abstract(g), demands, w, left, Abstract(next))
  {
    next := EntersAgain(script, demands, g, w, left, Woken(left, other));
    if left != [] && other.Waiting? {
      next := WaitsAgain(script, demands, next, w, Place(w, left));
    }
  }

  lemma LiftsEnd<T(!new)>(script: Script<T>, demands: Demands<T>, g: Program<T>, w: nat) returns (next: Program<T>)
    requires Occurs(script, demands, g) && Small(g) && Paired(g.system) && w < 2
    requires A.Enabled(Abstract(g), demands, End(w))
    ensures Lifts(script, demands, next, A.After(Abstract(g), demands, End(w)))
  {
    var s, others := Abstract(g), Queue(g, 1 - w);
    var task, left := TasksOf(g, demands, w);
    next := EndsTask(script, demands, g, w, task, left, Place(1 - w, others));
    PairedIsEager(g);
    QueueIs(g, s, 1 - w);
    EndsEager(s, demands, w, left, Abstract(next));
    QueueIs(next, Abstract(next), w);
    QueueIs(next, Abstract(next), 1 - w);
    InPlace(next, w, left, others);
  }

  lemma TasksOf<T(!new)>(g: Program<T>, demands: Demands<T>, w: nat) returns (task: Task<T>, left: seq<Task<T>>)
    requires Small(g) && w < 2 && A.Enabled(Abstract(g), demands, End(w))
    ensures Queue(g, w) == [task] + left && left == QueueOf(Abstract(g), w)[1..]
  {
    QueueIs(g, Abstract(g), w);
    task, left := Queue(g, w)[0], Queue(g, w)[1..];
  }

  /** Ending a task, and beginning the next if there is one, leaves the rest of the queues. */
  lemma EndsEager<T>(s: State<T>, demands: Demands<T>, w: nat, left: seq<Task<T>>, t: State<T>)
    requires w < 2 && s == Eager(s) && A.Enabled(s, demands, End(w))
    requires left == QueueOf(s, w)[1..] && Follows(A.After(s, demands, End(w)), demands, w, left, t)
    ensures QueueOf(t, w) == left && QueueOf(t, 1 - w) == QueueOf(s, 1 - w)
    ensures t == Eager(A.After(s, demands, End(w)))
  {
  }

  // ----- whole runs -----

  lemma LiftsStep<T(!new)>(script: Script<T>, demands: Demands<T>, g: Program<T>, s: State<T>, step: Step)
    returns (next: Program<T>)
    requires Lifts(script, demands, g, s) && A.Enabled(s, demands, step)
    requires s.produce.busy ==> s.produce.queue != []
    requires s.consume.busy ==> s.consume.queue != []
    ensures Lifts(script, demands, next, A.After(s, demands, step))
  {
    match step {
      case BeginProduce =>
        next := g;
        EagerBegins(s, demands, step);
      case BeginConsume =>
        next := g;
        EagerBegins(s, demands, step);
      case _ =>
        EagerCommutes(s, demands, step);
        next := LiftsMove(script, demands, g, step);
    }
  }

  lemma LiftsMove<T(!new)>(script: Script<T>, demands: Demands<T>, g: Program<T>, step: Step) returns (next: Program<T>)
    requires Occurs(script, demands, g) && Small(g) && Paired(g.system) && A.Enabled(Abstract(g), demands, step)
    requires !step.BeginProduce? && !step.BeginConsume?
    ensures Lifts(script, demands, next, A.After(Abstract(g), demands, step))
  {
    match step {
      case Submit => next := LiftsSchedule(script, demands, g, 0, step);
      case ScheduleOther(onProducer, _) => next := LiftsSchedule(script, demands, g, if onProducer then 0 else 1, step);
      case Produce => next := LiftsProduce(script, demands, g);
      case EndProduce => next := LiftsEnd(script, demands, g, 0);
      case Consume => next := LiftsConsume(script, demands, g);
      case EndConsume => next := LiftsEnd(script, demands, g, 1);
    }
  }

  lemma BusyStays<T>(s: State<T>, demands: Demands<T>, step: Step)
    requires A.Enabled(s, demands, step)
    requires s.produce.busy ==> s.produce.queue != []
    requires s.consume.busy ==> s.consume.queue != []
    ensures var t := A.After(s, demands, step);
            (t.produce.busy ==> t.produce.queue != []) && (t.consume.busy ==> t.consume.queue != [])
  {
  }

  lemma {:induction false} LiftsRun<T(!new)>(script: Script<T>, demands: Demands<T>, g: Program<T>, s: State<T>,
                                             steps: seq<Step>, end: State<T>) returns (h: Program<T>)
    requires Lifts(script, demands, g, s) && AsyncRuns(s, demands, steps, end)
    requires s.produce.busy ==> s.produce.queue != []
    requires s.consume.busy ==> s.consume.queue != []
    ensures Lifts(script, demands, h, end)
    decreases |steps|
  {
    h := g;
    if steps != [] {
      BusyStays(s, demands, steps[0]);
      h := LiftsStep(script, demands, g, s, steps[0]);
      h := LiftsRun(script, demands, h, A.After(s, demands, steps[0]), steps[1..], end);
    }
  }

  /** Both threads have started, and wait. */
  lemma BothWait<T(!new)>(script: Script<T>, demands: Demands<T>) returns (g: Program<T>)
    ensures Lifts(script, demands, g, Unstarted(script))
  {
    g := BothEnter(script, demands);
    g := EntersAgain(script, demands, g, 0, [], Entering);
    g := EntersAgain(script, demands, g, 1, [], Waiting);
    QueueIs(g, Unstarted(script), 0);
    QueueIs(g, Unstarted(script), 1);
    InPlace(g, 0, [], []);
  }

  lemma BothEnter<T(!new)>(script: Script<T>, demands: Demands<T>) returns (g: Program<T>)
    ensures Occurs(script, demands, g) && Stands(g, 0, [], Entering, Entering) && Abstract(g) == Unstarted(script)
  {
    g := AsyncGuarantees.Start(script, 2, 2, 0, 1);
    StartInvariant(script, demands, 2, 2, 0, 1);
    InitialView<Task<T>>(2, 2, 0);
    InitialView<Task<T>>(2, 2, 1);
    assert ProgramRuns(g, demands, [], g);
  }

  /** What happens between two serial workers happens on a pool of two threads. */
  lemma OccursToo<T(!new)>(script: Script<T>, demands: Demands<T>, s: State<T>) returns (g: Program<T>)
    requires Reaches(script, demands, s)
    ensures Occurs(script, demands, g) && Small(g) && Abstract(g) == Eager(s)
  {
    var steps :| AsyncRuns(Unstarted(script), demands, steps, s);
    g := BothWait(script, demands);
    g := LiftsRun(script, demands, g, Unstarted(script), steps, s);
  }

  /** Over every pool and every interleaving of its threads, a staleness check can fail exactly if the
      consumer overtakes itself. */
  lemma ChecksFailExactly<T(!new)>(script: Script<T>, demands: Demands<T>)
    requires |script.values| < KMAX
    ensures (exists g :: Occurs(script, demands, g) && g.stream.failed) <==> Overtakes(script, demands)
  {
    SerialChecksFailExactly(script, demands);
    if Overtakes(script, demands) {
      var s :| Reaches(script, demands, s) && s.stream.failed;
      var g := OccursToo(script, demands, s);
    }
    forall g | Occurs(script, demands, g) && g.stream.failed
      ensures Overtakes(script, demands)
    {
      OccursKeeps(script, demands, g);
    }
  }

  /** Requesting twice in a callback, the first time for the end marker, can abort the program. */
  lemma TwiceFails()
    ensures exists g :: Occurs(Script([7], Done), Twice(), g) && g.stream.failed
  {
    TwiceOvertakes();
    ChecksFailExactly(Script([7], Done), Twice());
  }
}
