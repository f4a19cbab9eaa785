/** Asynchronous streams come to an end: unless a check has failed or the pool is idle, some thread
    can get on, and there are only so many steps left. */
module AsyncProgress {
  import opened RequestBalances
  import opened Events
  import opened Generators
  import opened S = Schedulers
  import opened SchedulerLaws
  import opened SchedulerGuarantees
  import opened SerialWorkers
  import opened A = Asyncs
  import opened AsyncLaws
  import opened AsyncOnPool
  import opened AsyncGuarantees

  // ----- some thread can get on -----

  /** A step by which a thread gets on with the work, in the scheduler or in a task of the stream. */
  predicate Advances<T>(step: ProgramStep<T>) {
    step.PoolStep? ==> Works(step.action)
  }

  lemma ProducerGoesOn<T>(s: State<T>, script: Script<T>, demands: Demands<T>)
    requires AsyncInvariant(s, script, demands) && s.produce.busy && !s.stream.producerAt.ProducerExit?
    ensures ProducerGetsOn(s.stream, s.produce.queue[0])
  {
    var task := s.produce.queue[0];
    if s.stream.producerAt.Entry? {
      assert ToProduce(s) == [task] + Ours(s.produce.queue[1..]);
      assert ToProduce(s)[0] == task;
    }
  }

  lemma ConsumerGoesOn<T>(s: State<T>, script: Script<T>, demands: Demands<T>)
    requires AsyncInvariant(s, script, demands) && s.consume.busy && !s.stream.consumerAt.ConsumerExit?
    ensures ConsumerGetsOn(s.stream, demands, s.consume.queue[0])
  {
    var task := s.consume.queue[0];
    if !s.stream.consumerAt.Request? {
      assert ToConsume(s) == [task] + Ours(s.consume.queue[1..]);
      assert ToConsume(s)[0] == task;
    }
  }

  /** While the program has neither failed nor become idle, some thread can get on. */
  lemma SomeoneCanAdvance<T(!new)>(script: Script<T>, demands: Demands<T>, g: Program<T>) returns (step: ProgramStep<T>)
    requires ProgramInvariant(g, script, demands) && !g.stream.failed && !Idle(g.system.pool)
    ensures Advances(step) && CanStep(g, demands, step)
  {
    var action := SomeoneCanWork(g.system);
    step := PoolStep(action);
    if action.Finish? && !CanStep(g, demands, step) {
      var t, threads, pick: nat := action.thread, g.system.pool.threads, 0;
      if SomeoneWaits(threads) {
        pick :| 0 <= pick < |threads| && threads[pick].Waiting?;
      }
      step := BodyStep(t, pick);
      if InBody(g.system, t, g.p) && !g.stream.producerAt.ProducerExit? {
        ExecutesHead(g.system, t, g.p);
        ProducerGoesOn(Abstract(g), script, demands);
      } else {
        ExecutesHead(g.system, t, g.c);
        ConsumerGoesOn(Abstract(g), script, demands);
      }
    }
  }

  // ----- how much is left -----

  /** How many requests the consumer makes in the callbacks from number `i` on. */
  function RequestsFrom<T>(demands: Demands<T>, events: seq<Event<T>>, i: nat): nat
    decreases |events| + 1 - i
  {
    if i > |events| then 0 else |Requests(demands, events[..i])| + RequestsFrom(demands, events, i + 1)
  }

  function RequestsLeft<T>(stream: Stream<T>, demands: Demands<T>, events: seq<Event<T>>): int {
    if !stream.greeted then RequestsFrom(demands, events, 0) else
      RequestsFrom(demands, events, |stream.seen| + 1)
      + if stream.consumerAt.Request? then |Requests(demands, stream.seen)| - stream.consumerAt.made else 0
  }

  function Weights<T>(tasks: seq<Task<T>>): nat {
    if tasks == [] then 0 else (if tasks[0].Subscribe? then 4 else 2) + Weights(tasks[1..])
  }

  lemma {:induction false} WeightsOfLonger<T>(tasks: seq<Task<T>>, task: Task<T>)
    ensures Weights(tasks + [task]) == Weights(tasks) + if task.Subscribe? then 4 else 2
  {
    if tasks != [] {
      WeightsOfLonger(tasks[1..], task);
      assert (tasks + [task])[1..] == tasks[1..] + [task];
    }
  }

  /** The steps that are left for the stream's tasks, weighted so that every step leaves less. */
  function StreamLeft<T>(stream: Stream<T>, script: Script<T>, demands: Demands<T>,
      toProduce: seq<Task<T>>, toConsume: seq<Task<T>>): int
  {
    4 * (|script.values| + 1 - Sent(stream.input)) + 4 * RequestsLeft(stream, demands, EventsOf(script))
    + Weights(toProduce) + 3 * |toConsume|
    + (if Quiet(stream.producerAt) then 0 else 1) + (if stream.consumerAt.Call? then 0 else 1)
    + if stream.failed then 0 else 1
  }

  lemma LeftIsNatural<T>(stream: Stream<T>, script: Script<T>, demands: Demands<T>,
      toProduce: seq<Task<T>>, toConsume: seq<Task<T>>)
    requires Core(stream, script, demands, toProduce, toConsume)
    ensures StreamLeft(stream, script, demands, toProduce, toConsume) >= 0
  {
  }

  lemma ProducingLeavesLess<T>(stream: Stream<T>, script: Script<T>, demands: Demands<T>,
      toProduce: seq<Task<T>>, toConsume: seq<Task<T>>, task: Task<T>)
    requires Core(stream, script, demands, toProduce, toConsume) && ProducerGetsOn(stream, task)
    requires stream.producerAt.Entry? ==> toProduce != [] && toProduce[0] == task
    ensures var (next, move) := Producing(stream, task);
            StreamLeft(next, script, demands, if stream.producerAt.Entry? then toProduce[1..] else toProduce,
                       toConsume + if move.Enqueue? then [move.task] else [])
            < StreamLeft(stream, script, demands, toProduce, toConsume)
  {
  }

  lemma ConsumingLeavesLess<T>(stream: Stream<T>, script: Script<T>, demands: Demands<T>,
      toProduce: seq<Task<T>>, toConsume: seq<Task<T>>, task: Task<T>)
    requires Core(stream, script, demands, toProduce, toConsume) && ConsumerGetsOn(stream, demands, task)
    requires stream.consumerAt.Call? ==> toConsume != [] && toConsume[0] == task
    requires !stream.failed
    ensures var (next, move) := Consuming(stream, demands, task);
            StreamLeft(next, script, demands, toProduce + if move.Enqueue? then [move.task] else [],
                       if stream.consumerAt.Call? then toConsume[1..] else toConsume)
            < StreamLeft(stream, script, demands, toProduce, toConsume)
  {
    var (next, move) := Consuming(stream, demands, task);
    if move.Enqueue? {
      WeightsOfLonger(toProduce, move.task);
    } else {
      assert toProduce + [] == toProduce;
    }
    if stream.consumerAt.Call? {
      CallLeaves(stream, script, demands, toConsume);
    }
  }

  /** A callback leaves its requests to be made. */
  lemma CallLeaves<T>(stream: Stream<T>, script: Script<T>, demands: Demands<T>, toConsume: seq<Task<T>>)
    requires InTransit(stream, script, toConsume) && toConsume != []
    requires stream.consumerAt.Call? && ConsumerGetsOn(stream, demands, toConsume[0])
    ensures RequestsLeft(Consuming(stream, demands, toConsume[0]).0, demands, EventsOf(script))
         == RequestsLeft(stream, demands, EventsOf(script))
  {
    CalledInOrder(stream, script, demands, toConsume);
    assert EventsOf(script)[..0] == [];
  }

  // ----- the program -----

  function Measured<T>(s: State<T>, script: Script<T>, demands: Demands<T>): int {
    StreamLeft(s.stream, script, demands, ToProduce(s), ToConsume(s))
  }

  lemma ProduceLeavesLess<T>(s: State<T>, script: Script<T>, demands: Demands<T>)
    requires AsyncInvariant(s, script, demands) && A.Enabled(s, demands, Produce)
    ensures Measured(A.After(s, demands, Produce), script, demands) < Measured(s, script, demands)
  {
    var stream, task := s.stream, s.produce.queue[0];
    if stream.producerAt.Entry? {
      EntryMoves(s, demands);
    } else {
      LoopMoves(s, demands);
    }
    assert ToConsume(s) + [] == ToConsume(s);
    ProducingLeavesLess(stream, script, demands, ToProduce(s), ToConsume(s), task);
  }

  lemma ConsumeLeavesLess<T>(s: State<T>, script: Script<T>, demands: Demands<T>)
    requires AsyncInvariant(s, script, demands) && A.Enabled(s, demands, Consume)
    ensures Measured(A.After(s, demands, Consume), script, demands) < Measured(s, script, demands)
  {
    var stream, task := s.stream, s.consume.queue[0];
    if stream.consumerAt.Request? {
      RequestMoves(s, demands);
    } else {
      CallbackMoves(s, demands);
    }
    assert ToProduce(s) + [] == ToProduce(s);
    ConsumingLeavesLess(stream, script, demands, ToProduce(s), ToConsume(s), task);
  }

  lemma RequestMoves<T>(s: State<T>, demands: Demands<T>)
    requires Bodies(s) && A.Enabled(s, demands, Consume) && s.stream.consumerAt.Request?
    ensures var next, move := A.After(s, demands, Consume), Consuming(s.stream, demands, s.consume.queue[0]).1;
            && ToConsume(next) == ToConsume(s)
            && ToProduce(next) == ToProduce(s) + if move.Enqueue? then [move.task] else []
  {
    PendingOfLonger(s.produce, ProducerDone(s.stream.producerAt), Consuming(s.stream, demands, s.consume.queue[0]).1);
  }

  lemma TurnLeavesAll<T>(s: State<T>, script: Script<T>, demands: Demands<T>, step: Step)
    requires Bodies(s) && A.Enabled(s, demands, step) && IsTurn(AsStep(step))
    ensures Measured(A.After(s, demands, step), script, demands) == Measured(s, script, demands)
  {
    TurnMoves(s, demands, step);
  }

  lemma LeadsLeavesAll<T>(s: State<T>, script: Script<T>, demands: Demands<T>, seen: Seen, after: State<T>)
    requires Bodies(s) && IsTurn(seen) && Leads(s, demands, seen, after)
    ensures Measured(after, script, demands) == Measured(s, script, demands)
  {
    if seen.AsStep? {
      TurnLeavesAll(s, script, demands, seen.step);
    }
  }

  /** All that is left: the steps of the stream, each of which may schedule a task, and the work of
      the threads. */
  ghost function ProgramLeft<T(!new)>(g: Program<T>, script: Script<T>, demands: Demands<T>): nat
    requires ProgramInvariant(g, script, demands)
  {
    LeftIsNatural(g.stream, script, demands, ToProduce(Abstract(g)), ToConsume(Abstract(g)));
    13 * Measured(Abstract(g), script, demands) + Left(g.system)
  }

  lemma SchedulingAdds<X>(s: System<X>, w: nat, task: X, pick: nat)
    requires w < |s.workers|
    ensures Left(Scheduled(s, OnWorker(w), task, pick)) <= Left(s) + 12
  {
    var worker, threads := s.workers[w], s.pool.threads;
    var longer := worker.(steps := worker.steps + [task], scheduled := worker.scheduled + [task]);
    BacklogUpdate(s.workers, w, longer);
    if !longer.running {
      BacklogUpdate(s.workers[w := longer], w, longer.(running := true, steps := longer.steps[1..]));
      if pick < |threads| && threads[pick].Waiting? {
        TotalUpdate(threads, Effort, pick, Notified);
      }
    }
  }

  /** Every step by which a thread gets on leaves less. */
  lemma AdvanceLeavesLess<T(!new)>(g: Program<T>, script: Script<T>, demands: Demands<T>, step: ProgramStep<T>)
    requires |script.values| < KMAX
    requires ProgramInvariant(g, script, demands) && CanStep(g, demands, step) && Advances(step)
    ensures ProgramInvariant(Stepped(g, demands, step), script, demands)
    ensures ProgramLeft(Stepped(g, demands, step), script, demands) < ProgramLeft(g, script, demands)
  {
    ProgramStepKeeps(g, script, demands, step);
    if step.PoolStep? {
      PoolAdvanceLeavesLess(g, script, demands, step.action);
    } else {
      BodyAdvanceLeavesLess(g, script, demands, step.thread, step.pick);
    }
  }

  lemma PoolAdvanceLeavesLess<T(!new)>(g: Program<T>, script: Script<T>, demands: Demands<T>, action: Action<Task<T>>)
    requires ProgramInvariant(g, script, demands) && CanStep(g, demands, PoolStep(action)) && Works(action)
    requires ProgramInvariant(Stepped(g, demands, PoolStep(action)), script, demands)
    ensures ProgramLeft(Stepped(g, demands, PoolStep(action)), script, demands) < ProgramLeft(g, script, demands)
  {
    WorkGetsDone(g.system, action);
    PoolStepRefines(g, demands, action);
    WorkIsATurn(g, demands, action);
    LeadsLeavesAll(Abstract(g), script, demands, SeenAs(g, demands, PoolStep(action)),
                   Abstract(Stepped(g, demands, PoolStep(action))));
  }

  /** What the threads' work in the scheduler is for the stream. */
  predicate IsTurn(seen: Seen) {
    seen.AsStep? ==>
      seen.step.BeginProduce? || seen.step.EndProduce? || seen.step.BeginConsume? || seen.step.EndConsume?
  }

  lemma WorkIsATurn<T>(g: Program<T>, demands: Demands<T>, action: Action<Task<T>>)
    requires CanStep(g, demands, PoolStep(action)) && Works(action)
    ensures IsTurn(SeenAs(g, demands, PoolStep(action)))
  {
  }

  lemma BodyAdvanceLeavesLess<T(!new)>(g: Program<T>, script: Script<T>, demands: Demands<T>, t: nat, pick: nat)
    requires ProgramInvariant(g, script, demands) && CanStep(g, demands, BodyStep(t, pick))
    requires ProgramInvariant(Stepped(g, demands, BodyStep(t, pick)), script, demands)
    ensures ProgramLeft(Stepped(g, demands, BodyStep(t, pick)), script, demands) < ProgramLeft(g, script, demands)
  {
    var task := g.system.pool.threads[t].job.task;
    if InBody(g.system, t, g.p) {
      ProduceRefines(g, demands, t, pick);
      ProduceLeavesLess(Abstract(g), script, demands);
      BodyAdds(g, demands, t, pick, g.c, Producing(g.stream, task).1);
    } else {
      ConsumeRefines(g, demands, t, pick);
      ConsumeLeavesLess(Abstract(g), script, demands);
      BodyAdds(g, demands, t, pick, g.p, Consuming(g.stream, demands, task).1);
    }
  }

  lemma BodyAdds<T>(g: Program<T>, demands: Demands<T>, t: nat, pick: nat, w: nat, move: Move<Task<T>>)
    requires w < |g.system.workers|
    ensures Left(Scheduling(g.system, t, w, move, pick)) <= Left(g.system) + 12
  {
    if move.Enqueue? {
      SchedulingAdds(g.system, w, move.task, pick);
    }
  }

  // ----- the end -----

  ghost predicate AllAdvance<T>(steps: seq<ProgramStep<T>>) {
    forall k :: 0 <= k < |steps| ==> Advances(steps[k])
  }

  /** With nothing scheduled from elsewhere, the threads take at most so many steps, and they can
      take another one until a check has failed or the pool is idle. */
  lemma {:induction false} AdvancesEnd<T(!new)>(g: Program<T>, script: Script<T>, demands: Demands<T>,
                                                steps: seq<ProgramStep<T>>, end: Program<T>)
    requires |script.values| < KMAX
    requires ProgramInvariant(g, script, demands) && ProgramRuns(g, demands, steps, end) && AllAdvance(steps)
    ensures ProgramInvariant(end, script, demands)
    ensures |steps| + ProgramLeft(end, script, demands) <= ProgramLeft(g, script, demands)
    ensures end.stream.failed || Idle(end.system.pool) || exists step :: Advances(step) && CanStep(end, demands, step)
    decreases |steps|
  {
    if steps != [] {
      assert Advances(steps[0]);
      AdvanceLeavesLess(g, script, demands, steps[0]);
      AdvancesEnd(Stepped(g, demands, steps[0]), script, demands, steps[1..], end);
    } else if !end.stream.failed && !Idle(end.system.pool) {
      var step := SomeoneCanAdvance(script, demands, end);
    }
  }

  /** From any time on, if the threads are left to themselves, the pool becomes idle, or a check
      fails, after boundedly many steps. */
  lemma {:induction false} ComesToRest<T(!new)>(g: Program<T>, script: Script<T>, demands: Demands<T>)
    returns (steps: seq<ProgramStep<T>>, end: Program<T>)
    requires |script.values| < KMAX && ProgramInvariant(g, script, demands)
    ensures ProgramRuns(g, demands, steps, end) && AllAdvance(steps) && ProgramInvariant(end, script, demands)
    ensures |steps| <= ProgramLeft(g, script, demands)
    ensures end.stream.failed || Idle(end.system.pool)
    ensures g.stream.submitted ==> end.stream.submitted
    decreases ProgramLeft(g, script, demands)
  {
    steps, end := [], g;
    if !g.stream.failed && !Idle(g.system.pool) {
      var step, next := AdvancesOnce(g, script, demands);
      steps, end := ComesToRest(next, script, demands);
      RunsCompose(g, demands, [step], next, steps, end);
      steps := [step] + steps;
    }
  }

  lemma AdvancesOnce<T(!new)>(g: Program<T>, script: Script<T>, demands: Demands<T>)
    returns (step: ProgramStep<T>, next: Program<T>)
    requires |script.values| < KMAX && ProgramInvariant(g, script, demands)
    requires !g.stream.failed && !Idle(g.system.pool)
    ensures Advances(step) && ProgramRuns(g, demands, [step], next)
    ensures ProgramInvariant(next, script, demands) && ProgramLeft(next, script, demands) < ProgramLeft(g, script, demands)
    ensures g.stream.submitted ==> next.stream.submitted
  {
    step := SomeoneCanAdvance(script, demands, g);
    next := Stepped(g, demands, step);
    AdvanceLeavesLess(g, script, demands, step);
    if g.stream.submitted {
      StaysSubmitted(g, demands, step);
    }
    RunsFrom(g, demands, step, [], next);
    assert [step] + [] == [step];
  }

  lemma StaysSubmitted<T(!new)>(g: Program<T>, demands: Demands<T>, step: ProgramStep<T>)
    requires Wellformed(g) && CanStep(g, demands, step) && g.stream.submitted
    ensures Stepped(g, demands, step).stream.submitted
  {
  }

  /** A consumer that requests one event at a time: from any time after the subscription, with the
      threads left to themselves, it has seen all the events after boundedly many steps. */
  lemma AsyncComesToItsEnd<T(!new)>(script: Script<T>, g: Program<T>)
    returns (steps: seq<ProgramStep<T>>, end: Program<T>)
    requires |script.values| < KMAX && Occurs(script, OneByOne<T>(), g) && g.stream.submitted
    ensures ProgramRuns(g, OneByOne<T>(), steps, end) && AllAdvance(steps)
    ensures ProgramInvariant(g, script, OneByOne<T>()) && |steps| <= ProgramLeft(g, script, OneByOne<T>())
    ensures Idle(end.system.pool) && !end.stream.failed && end.stream.seen == EventsOf(script)
  {
    OccursKeeps(script, OneByOne<T>(), g);
    steps, end := ComesToRest(g, script, OneByOne<T>());
    OccursLater(script, OneByOne<T>(), g, steps, end);
    AsyncEndToEnd(script, end);
  }
}
