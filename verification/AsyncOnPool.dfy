/** Asynchronous streams on the workers of a thread pool: the steps of the stream's tasks are taken
    by the pool's threads, among everything else the scheduler does. */
module AsyncOnPool {
  import opened RequestBalances
  import opened Events
  import opened Generators
  import opened S = Schedulers
  import opened SchedulerLaws
  import opened SchedulerGuarantees
  import opened SerialWorkers
  import opened A = Asyncs
  import opened AsyncLaws

  /** The whole program; `p` is the worker to produce on and `c` the one to consume on. */
  datatype Program<T> = Program(system: System<Task<T>>, stream: Stream<T>, p: nat, c: nat)

  /** A step of the scheduler, or of the stream's task that a thread executes. */
  datatype ProgramStep<T> = PoolStep(action: Action<Task<T>>) | BodyStep(thread: nat, pick: nat)

  ghost predicate Wellformed<T>(g: Program<T>) {
    g.p != g.c && g.p < |g.system.workers| && g.c < |g.system.workers|
  }

  /** Apart from the stream itself, anything may be scheduled anywhere at any time. */
  predicate MaySchedule<T>(g: Program<T>, target: Target, task: Task<T>) {
    task.Other? || (task.Subscribe? && target == OnWorker(g.p) && !g.stream.submitted)
  }

  ghost predicate CanStep<T>(g: Program<T>, demands: Demands<T>, step: ProgramStep<T>) {
    && !g.stream.failed
    && match step
       case PoolStep(action) =>
         && S.Enabled(g.system, action)
         && (action.Schedule? ==> MaySchedule(g, action.target, action.task))
         && (action.Finish? && InBody(g.system, action.thread, g.p) ==> g.stream.producerAt.ProducerExit?)
         && (action.Finish? && InBody(g.system, action.thread, g.c) ==> g.stream.consumerAt.ConsumerExit?)
       case BodyStep(t, pick) =>
         && t < |g.system.pool.threads| && Picks(g.system.pool.threads, pick)
         && (|| (InBody(g.system, t, g.p) && ProducerGetsOn(g.stream, g.system.pool.threads[t].job.task))
             || (InBody(g.system, t, g.c) && ConsumerGetsOn(g.stream, demands, g.system.pool.threads[t].job.task)))
  }

  /** What a step of the scheduler is for the stream's program counters. */
  ghost function Turned<T>(g: Program<T>, action: Action<Task<T>>): Stream<T>
    requires S.Enabled(g.system, action)
  {
    if action.Schedule? then (if action.task.Subscribe? then g.stream.(submitted := true) else g.stream)
    else if Observed(g.system, action, g.p).Start? then Begun(g.stream, true, g.system.pool.todo[0].task)
    else if Observed(g.system, action, g.c).Start? then Begun(g.stream, false, g.system.pool.todo[0].task)
    else if Observed(g.system, action, g.p).Stop? then Ended(g.stream, true)
    else if Observed(g.system, action, g.c).Stop? then Ended(g.stream, false)
    else g.stream
  }

  /** What thread `t` schedules on worker `w`. */
  ghost function Scheduling<T>(system: System<Task<T>>, t: nat, w: nat, move: Move<Task<T>>, pick: nat): System<Task<T>>
    requires w < |system.workers|
  {
    if move.Enqueue? then Scheduled(system, OnWorker(w), move.task, pick) else system
  }

  ghost function Stepped<T>(g: Program<T>, demands: Demands<T>, step: ProgramStep<T>): Program<T>
    requires Wellformed(g) && CanStep(g, demands, step)
  {
    match step
    case PoolStep(action) => g.(system := S.After(g.system, action), stream := Turned(g, action))
    case BodyStep(t, pick) =>
      var task := g.system.pool.threads[t].job.task;
      if InBody(g.system, t, g.p) then
        var (stream, move) := Producing(g.stream, task);
        g.(system := Scheduling(g.system, t, g.c, move, pick), stream := stream)
      else
        var (stream, move) := Consuming(g.stream, demands, task);
        g.(system := Scheduling(g.system, t, g.p, move, pick), stream := stream)
  }

  ghost predicate ProgramRuns<T>(g: Program<T>, demands: Demands<T>, steps: seq<ProgramStep<T>>, end: Program<T>)
    decreases |steps|
  {
    if steps == [] then g == end
    else Wellformed(g) && CanStep(g, demands, steps[0]) && ProgramRuns(Stepped(g, demands, steps[0]), demands, steps[1..], end)
  }

  // ----- refinement -----

  ghost predicate Tracked<T(!new)>(g: Program<T>) {
    Wellformed(g) && Invariant(g.system)
  }

  /** The two workers as the stream sees them. */
  ghost function Abstract<T(!new)>(g: Program<T>): State<T>
    requires Tracked(g)
  {
    State(View(g.system, g.p), View(g.system, g.c), g.stream)
  }

  /** What a step of the program is for the stream; most steps of the scheduler are nothing. */
  datatype Seen = Unseen | AsStep(step: Step)

  ghost function SeenAs<T>(g: Program<T>, demands: Demands<T>, step: ProgramStep<T>): Seen
    requires CanStep(g, demands, step)
  {
    match step
    case PoolStep(action) =>
      if action.Schedule? then
        if action.task.Subscribe? then AsStep(Submit)
        else if action.target == OnWorker(g.p) then AsStep(ScheduleOther(true, action.task.id))
        else if action.target == OnWorker(g.c) then AsStep(ScheduleOther(false, action.task.id))
        else Unseen
      else if Observed(g.system, action, g.p).Start? then AsStep(BeginProduce)
      else if Observed(g.system, action, g.c).Start? then AsStep(BeginConsume)
      else if Observed(g.system, action, g.p).Stop? then AsStep(EndProduce)
      else if Observed(g.system, action, g.c).Stop? then AsStep(EndConsume)
      else Unseen
    case BodyStep(t, _) => AsStep(if InBody(g.system, t, g.p) then Produce else Consume)
  }

  /** A step of the program is a step of the stream between its two serial workers, or nothing. */
  ghost predicate Refines<T(!new)>(g: Program<T>, demands: Demands<T>, step: ProgramStep<T>)
    requires Tracked(g) && CanStep(g, demands, step)
  {
    var next := Stepped(g, demands, step);
    Tracked(next) && next.p == g.p && next.c == g.c && Leads(Abstract(g), demands, SeenAs(g, demands, step), Abstract(next))
  }

  ghost predicate Leads<T>(before: State<T>, demands: Demands<T>, seen: Seen, after: State<T>) {
    if seen.Unseen? then after == before
    else A.Enabled(before, demands, seen.step) && after == A.After(before, demands, seen.step)
  }

  lemma PoolStepRefines<T(!new)>(g: Program<T>, demands: Demands<T>, action: Action<Task<T>>)
    requires Tracked(g) && CanStep(g, demands, PoolStep(action))
    ensures Refines(g, demands, PoolStep(action))
  {
    StepKeeps(g.system, action);
    Simulates(g.system, action, g.p);
    Simulates(g.system, action, g.c);
    if action.Schedule? {
      ScheduleLeads(g, demands, action);
    } else {
      if action.Enter? || action.Wake? {
        TakesHead(g, action);
      }
      TurnLeads(g, demands, action);
    }
  }

  /** The state after a step of the scheduler, put together from what it is for each worker. */
  ghost function Viewed<T(!new)>(g: Program<T>, action: Action<Task<T>>): State<T>
    requires Tracked(g) && S.Enabled(g.system, action)
    requires CanMove(View(g.system, g.p), Observed(g.system, action, g.p))
    requires CanMove(View(g.system, g.c), Observed(g.system, action, g.c))
  {
    State(Moved(View(g.system, g.p), Observed(g.system, action, g.p)),
          Moved(View(g.system, g.c), Observed(g.system, action, g.c)),
          Turned(g, action))
  }

  lemma ScheduleLeads<T(!new)>(g: Program<T>, demands: Demands<T>, action: Action<Task<T>>)
    requires Tracked(g) && CanStep(g, demands, PoolStep(action)) && action.Schedule?
    ensures Leads(Abstract(g), demands, SeenAs(g, demands, PoolStep(action)), Viewed(g, action))
  {
  }

  /** A task of one of the two workers starts or returns, or nothing happens to them. */
  lemma TurnLeads<T(!new)>(g: Program<T>, demands: Demands<T>, action: Action<Task<T>>)
    requires Tracked(g) && CanStep(g, demands, PoolStep(action)) && !action.Schedule?
    requires CanMove(View(g.system, g.p), Observed(g.system, action, g.p))
    requires CanMove(View(g.system, g.c), Observed(g.system, action, g.c))
    requires forall w: nat :: w < |g.system.workers| && Observed(g.system, action, w).Start? ==>
               View(g.system, w).queue != [] && View(g.system, w).queue[0] == g.system.pool.todo[0].task
    ensures Leads(Abstract(g), demands, SeenAs(g, demands, PoolStep(action)), Viewed(g, action))
  {
  }

  /** The thread that takes a wrapper takes the head of its worker's queue. */
  lemma TakesHead<T(!new)>(g: Program<T>, action: Action<Task<T>>)
    requires Tracked(g) && S.Enabled(g.system, action) && (action.Enter? || action.Wake?)
    ensures forall w: nat :: w < |g.system.workers| && Takes(g.system, w) ==>
              View(g.system, w).queue != [] && View(g.system, w).queue[0] == g.system.pool.todo[0].task
  {
    if g.system.pool.todo != [] && g.system.pool.todo[0].Wrapped? {
      QueuedIsLive(g.system, g.system.pool.todo[0]);
      assert Unfinished(g.system, g.system.pool.todo[0]);
    }
  }

  lemma ProduceRefines<T(!new)>(g: Program<T>, demands: Demands<T>, t: nat, pick: nat)
    requires Tracked(g) && CanStep(g, demands, BodyStep(t, pick)) && InBody(g.system, t, g.p)
    ensures Refines(g, demands, BodyStep(t, pick))
  {
    ExecutesHead(g.system, t, g.p);
    SchedulingRefines(g.system, t, g.c, g.p, Producing(g.stream, g.system.pool.threads[t].job.task).1, pick);
  }

  lemma ConsumeRefines<T(!new)>(g: Program<T>, demands: Demands<T>, t: nat, pick: nat)
    requires Tracked(g) && CanStep(g, demands, BodyStep(t, pick)) && !InBody(g.system, t, g.p)
    ensures Refines(g, demands, BodyStep(t, pick))
  {
    var task := g.system.pool.threads[t].job.task;
    ExecutesHead(g.system, t, g.c);
    var (stream, move) := Consuming(g.stream, demands, task);
    ConsumeLeads(Abstract(g), demands, task);
    SchedulingRefines(g.system, t, g.p, g.c, move, pick);
    assert Stepped(g, demands, BodyStep(t, pick)) == g.(system := Scheduling(g.system, t, g.p, move, pick), stream := stream);
  }

  lemma ConsumeLeads<T>(state: State<T>, demands: Demands<T>, task: Task<T>)
    requires !state.stream.failed && CanMove(state.consume, Stop) && state.consume.queue[0] == task
    requires ConsumerGetsOn(state.stream, demands, task)
    ensures var (stream, move) := Consuming(state.stream, demands, task);
            && !move.Start? && !move.Stop?
            && Leads(state, demands, AsStep(Consume), State(Moved(state.produce, move), state.consume, stream))
  {
  }

  lemma SchedulingRefines<T(!new)>(system: System<Task<T>>, t: nat, w: nat, other: nat, move: Move<Task<T>>, pick: nat)
    requires Invariant(system) && w < |system.workers| && other < |system.workers| && w != other
    requires t < |system.pool.threads| && system.pool.threads[t].Running? && Picks(system.pool.threads, pick)
    requires !move.Start? && !move.Stop?
    ensures var next := Scheduling(system, t, w, move, pick);
            && Invariant(next) && |next.workers| == |system.workers|
            && View(next, w) == Moved(View(system, w), move) && View(next, other) == View(system, other)
  {
    if move.Enqueue? {
      var action := S.Schedule(Inside(t), OnWorker(w), move.task, pick);
      StepKeeps(system, action);
      Simulates(system, action, w);
      Simulates(system, action, other);
    }
  }
}
