/** What an asynchronous stream promises, over every interleaving of the threads of a pool. */
module AsyncGuarantees {
  import opened RequestBalances
  import opened Events
  import opened Generators
  import opened S = Schedulers
  import opened SchedulerLaws
  import opened SchedulerGuarantees
  import opened SerialWorkers
  import opened Asyncs
  import opened AsyncLaws
  import opened AsyncOnPool

  /** A pool of any number of threads and workers on which nothing has happened yet. */
  function Start<T>(script: Script<T>, threads: nat, workers: nat, p: nat, c: nat): Program<T> {
    Program(S.Initial(threads, workers), Unsubscribed(script), p, c)
  }

  /** Some run of the program leads to `g`. */
  ghost predicate Occurs<T(!new)>(script: Script<T>, demands: Demands<T>, g: Program<T>) {
    exists threads: nat, workers: nat, steps: seq<ProgramStep<T>> ::
      && 0 < threads && g.p < workers && g.c < workers && g.p != g.c
      && ProgramRuns(Start(script, threads, workers, g.p, g.c), demands, steps, g)
  }

  ghost predicate ProgramInvariant<T(!new)>(g: Program<T>, script: Script<T>, demands: Demands<T>) {
    Tracked(g) && AsyncInvariant(Abstract(g), script, demands)
  }

  lemma StartInvariant<T(!new)>(script: Script<T>, demands: Demands<T>, threads: nat, workers: nat, p: nat, c: nat)
    requires 0 < threads && p < workers && c < workers && p != c
    ensures ProgramInvariant(Start(script, threads, workers, p, c), script, demands)
  {
    InitialInvariant<Task<T>>(threads, workers);
    InitialView<Task<T>>(threads, workers, p);
    InitialView<Task<T>>(threads, workers, c);
    UnsubscribedInvariant(script, demands);
  }

  lemma InitialView<X(!new)>(threads: nat, workers: nat, w: nat)
    requires w < workers
    ensures var s := S.Initial<X>(threads, workers);
            |s.workers[w].finished| == |s.workers[w].scheduled| == 0 && View(s, w) == Serial([], false)
  {
    assert !Executing(S.Initial<X>(threads, workers), w);
  }

  lemma UnsubscribedInvariant<T>(script: Script<T>, demands: Demands<T>)
    ensures AsyncInvariant(State(Serial([], false), Serial([], false), Unsubscribed(script)), script, demands)
  {
  }

  lemma ProgramStepKeeps<T(!new)>(g: Program<T>, script: Script<T>, demands: Demands<T>, step: ProgramStep<T>)
    requires |script.values| < KMAX
    requires ProgramInvariant(g, script, demands) && CanStep(g, demands, step)
    ensures ProgramInvariant(Stepped(g, demands, step), script, demands)
    ensures Stepped(g, demands, step).p == g.p && Stepped(g, demands, step).c == g.c
  {
    match step {
      case PoolStep(action) => PoolStepRefines(g, demands, action);
      case BodyStep(t, pick) => {
        if InBody(g.system, t, g.p) {
          ProduceRefines(g, demands, t, pick);
        } else {
          ConsumeRefines(g, demands, t, pick);
        }
      }
    }
    if SeenAs(g, demands, step).AsStep? {
      AsyncStepKeeps(Abstract(g), script, demands, SeenAs(g, demands, step).step);
    }
  }

  lemma {:induction false} ProgramRunsKeep<T(!new)>(g: Program<T>, script: Script<T>, demands: Demands<T>,
                                                    steps: seq<ProgramStep<T>>, end: Program<T>)
    requires |script.values| < KMAX
    requires ProgramInvariant(g, script, demands) && ProgramRuns(g, demands, steps, end)
    ensures ProgramInvariant(end, script, demands)
    decreases |steps|
  {
    if steps != [] {
      ProgramStepKeeps(g, script, demands, steps[0]);
      ProgramRunsKeep(Stepped(g, demands, steps[0]), script, demands, steps[1..], end);
    }
  }

  lemma OccursKeeps<T(!new)>(script: Script<T>, demands: Demands<T>, g: Program<T>)
    requires |script.values| < KMAX && Occurs(script, demands, g)
    ensures ProgramInvariant(g, script, demands)
  {
    var threads: nat, workers: nat, steps: seq<ProgramStep<T>> :|
      && 0 < threads && g.p < workers && g.c < workers && g.p != g.c
      && ProgramRuns(Start(script, threads, workers, g.p, g.c), demands, steps, g);
    StartInvariant(script, demands, threads, workers, g.p, g.c);
    ProgramRunsKeep(Start(script, threads, workers, g.p, g.c), script, demands, steps, g);
  }

  lemma RunsFrom<T>(g: Program<T>, demands: Demands<T>, step: ProgramStep<T>, steps: seq<ProgramStep<T>>, end: Program<T>)
    requires Wellformed(g) && CanStep(g, demands, step)
    requires ProgramRuns(Stepped(g, demands, step), demands, steps, end)
    ensures ProgramRuns(g, demands, [step] + steps, end)
  {
    var all := [step] + steps;
    assert all[0] == step && all[1..] == steps;
  }

  lemma Regroup<X>(steps: seq<X>, more: seq<X>)
    requires steps != []
    ensures [steps[0]] + (steps[1..] + more) == steps + more
  {
  }

  lemma {:induction false} RunsCompose<T>(g: Program<T>, demands: Demands<T>, steps: seq<ProgramStep<T>>, mid: Program<T>,
                                          more: seq<ProgramStep<T>>, end: Program<T>)
    requires ProgramRuns(g, demands, steps, mid) && ProgramRuns(mid, demands, more, end)
    ensures ProgramRuns(g, demands, steps + more, end)
    decreases |steps|
  {
    if steps == [] {
      assert steps + more == more;
    } else {
      RunsCompose(Stepped(g, demands, steps[0]), demands, steps[1..], mid, more, end);
      RunsFrom(g, demands, steps[0], steps[1..] + more, end);
      Regroup(steps, more);
    }
  }

  lemma {:induction false} RunsStay<T>(g: Program<T>, demands: Demands<T>, steps: seq<ProgramStep<T>>, end: Program<T>)
    requires ProgramRuns(g, demands, steps, end)
    ensures end.p == g.p && end.c == g.c
    decreases |steps|
  {
    if steps != [] {
      RunsStay(Stepped(g, demands, steps[0]), demands, steps[1..], end);
    }
  }

  /** What a run leads to from a program that occurs occurs as well. */
  lemma OccursLater<T(!new)>(script: Script<T>, demands: Demands<T>, g: Program<T>, steps: seq<ProgramStep<T>>, end: Program<T>)
    requires Occurs(script, demands, g) && ProgramRuns(g, demands, steps, end)
    ensures Occurs(script, demands, end)
  {
    var threads: nat, workers: nat, before: seq<ProgramStep<T>> :|
      && 0 < threads && g.p < workers && g.c < workers && g.p != g.c
      && ProgramRuns(Start(script, threads, workers, g.p, g.c), demands, before, g);
    RunsCompose(Start(script, threads, workers, g.p, g.c), demands, before, g, steps, end);
    RunsStay(g, demands, steps, end);
  }

  /** Whatever the consumer requests, it sees OnSubscribe first, then the events of the input in
      order, each asked for in earlier callbacks, and no two of its tasks ever overlap. */
  lemma AsyncDeliversInOrder<T(!new)>(script: Script<T>, demands: Demands<T>, g: Program<T>)
    requires |script.values| < KMAX && Occurs(script, demands, g)
    ensures g.stream.seen <= EventsOf(script)
    ensures g.stream.seen != [] ==> g.stream.greeted
    ensures AskedFor(script, demands, |g.stream.seen|)
    ensures forall t: nat, u: nat :: InBody(g.system, t, g.c) && InBody(g.system, u, g.c) ==> t == u
  {
    OccursKeeps(script, demands, g);
    SeenInOrder(Abstract(g), script, demands);
    forall t: nat, u: nat | InBody(g.system, t, g.c) && InBody(g.system, u, g.c)
      ensures t == u
    {
      SoleBearer(g.system, t);
    }
  }

  lemma SeenInOrder<T>(s: State<T>, script: Script<T>, demands: Demands<T>)
    requires |script.values| < KMAX && AsyncInvariant(s, script, demands)
    ensures s.stream.seen <= EventsOf(script)
    ensures s.stream.seen != [] ==> s.stream.greeted
    ensures AskedFor(script, demands, |s.stream.seen|)
  {
  }

  /** A staleness check fails only for a consumer that overtakes itself: it has asked for the end
      marker while it has an element to handle or another request to make in the same callback. */
  lemma ChecksHold<T(!new)>(script: Script<T>, demands: Demands<T>, g: Program<T>)
    requires |script.values| < KMAX && Occurs(script, demands, g) && !Overtakes(script, demands)
    ensures !g.stream.failed
  {
    OccursKeeps(script, demands, g);
  }

  /** The consumer that MakeWithFlowControl makes: one request at a time, and none after the end. */
  function OneByOne<T>(): Demands<T> {
    (seen: seq<Event<T>>) => if seen != [] && seen[|seen| - 1].End? then [] else [1]
  }

  lemma {:induction false} OneByOneAsks<T>(script: Script<T>, calls: nat)
    requires calls <= |script.values| + 1
    ensures AskedIn(OneByOne<T>(), EventsOf(script), calls) == calls
  {
    if calls > 0 {
      OneByOneAsks(script, calls - 1);
      assert Requests(OneByOne<T>(), EventsOf(script)[..calls - 1]) == [1];
      assert Sum([1]) == SumTo([1], 0) + 1;
    }
  }

  lemma OneByOneKeepsUp<T>(script: Script<T>)
    ensures !Overtakes(script, OneByOne<T>())
  {
    forall i: nat, j: nat
      ensures !OvertakesAt(script, OneByOne<T>(), i, j)
    {
      if i <= |script.values| + 1 {
        OneByOneAsks(script, i);
        var requests := Requests(OneByOne<T>(), EventsOf(script)[..i]);
        assert requests == if i <= |script.values| then [1] else [];
        assert j == 1 && i <= |script.values| ==> SumTo(requests, 1) == SumTo(requests, 0) + 1;
      }
    }
  }

  /** The consumer has seen all the events, or as many of them as it asked for. */
  ghost predicate Served<T>(seen: seq<Event<T>>, script: Script<T>, demands: Demands<T>) {
    || seen == EventsOf(script)
    || (seen < EventsOf(script) && AskedIn(demands, EventsOf(script), |seen| + 1) == |seen|)
  }

  /** When the pool is idle again, all the consumer asked for has been delivered to it. */
  lemma AsyncSettles<T(!new)>(script: Script<T>, demands: Demands<T>, g: Program<T>)
    requires |script.values| < KMAX && Occurs(script, demands, g)
    requires Idle(g.system.pool) && g.stream.submitted && !g.stream.failed
    ensures g.stream.greeted && Served(g.stream.seen, script, demands)
  {
    OccursKeeps(script, demands, g);
    NothingIsLeft(g, g.p);
    NothingIsLeft(g, g.c);
    NothingPending(Abstract(g), script, demands);
  }

  lemma NothingPending<T>(s: State<T>, script: Script<T>, demands: Demands<T>)
    requires |script.values| < KMAX && AsyncInvariant(s, script, demands)
    requires s.produce == s.consume == Serial([], false) && s.stream.submitted
    ensures s.stream.greeted && Served(s.stream.seen, script, demands)
  {
    assert ToProduce(s) == [] && ToConsume(s) == [];
    AllSeen(s.stream, script);
  }

  lemma AllSeen<T>(stream: Stream<T>, script: Script<T>)
    requires InTransit(stream, script, [])
    ensures stream.greeted && |stream.seen| == Sent(stream.input)
  {
    assert |Delivers(EventsOf(script)[|stream.seen|..Sent(stream.input)])| == 0;
  }

  lemma NothingIsLeft<T(!new)>(g: Program<T>, w: nat)
    requires Tracked(g) && Idle(g.system.pool) && w < |g.system.workers|
    ensures View(g.system, w) == Serial([], false)
  {
    NoneIsActive(g.system.pool);
    var worker := g.system.workers[w];
    if worker.running {
      var job := Wrapped(w, worker.scheduled[Taken(worker) - 1]);
      assert IsWrapper(g.system, job) && Load(g.system.pool, job) == 1;
      var t := TotalFinds(g.system.pool.threads, Bearing(job));
    }
    assert InOrder(worker);
  }

  /** End to end: once waiting until idle returns, a consumer that requests one event at a time has
      seen exactly the events of the input, and nothing has failed. */
  lemma AsyncEndToEnd<T(!new)>(script: Script<T>, g: Program<T>)
    requires |script.values| < KMAX && Occurs(script, OneByOne<T>(), g)
    ensures !g.stream.failed
    ensures Idle(g.system.pool) && g.stream.submitted ==> g.stream.seen == EventsOf(script)
  {
    OneByOneKeepsUp(script);
    ChecksHold(script, OneByOne<T>(), g);
    if Idle(g.system.pool) && g.stream.submitted {
      AsyncSettles(script, OneByOne<T>(), g);
      if g.stream.seen < EventsOf(script) {
        OneByOneAsks(script, |g.stream.seen| + 1);
      }
    }
  }
}
