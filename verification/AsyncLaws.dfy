/** What every run of an asynchronous stream keeps. */
module AsyncLaws {
  import opened RequestBalances
  import opened Events
  import opened Generators
  import opened SerialWorkers
  import opened Asyncs

  // ----- the stream's tasks in a queue -----

  function Ours<T>(tasks: seq<Task<T>>): seq<Task<T>> {
    if tasks == [] then [] else (if tasks[0].Other? then [] else [tasks[0]]) + Ours(tasks[1..])
  }

  lemma {:induction false} OursOfLonger<T>(tasks: seq<Task<T>>, task: Task<T>)
    ensures Ours(tasks + [task]) == Ours(tasks) + if task.Other? then [] else [task]
  {
    if tasks != [] {
      OursOfLonger(tasks[1..], task);
      assert (tasks + [task])[1..] == tasks[1..] + [task];
    }
  }

  /** The stream's tasks that have yet to take effect; `done` if the one in execution has. */
  function Pending<T>(serial: Serial<Task<T>>, done: bool): seq<Task<T>> {
    Ours(if done && serial.queue != [] then serial.queue[1..] else serial.queue)
  }

  lemma PendingOfLonger<T>(serial: Serial<Task<T>>, done: bool, move: Move<Task<T>>)
    requires !move.Start? && !move.Stop? && (done ==> serial.queue != [])
    ensures Pending(Moved(serial, move), done)
         == Pending(serial, done) + if move.Enqueue? && !move.task.Other? then [move.task] else []
  {
    if move.Enqueue? {
      OursOfLonger(serial.queue, move.task);
      if done {
        assert (serial.queue + [move.task])[1..] == serial.queue[1..] + [move.task];
        OursOfLonger(serial.queue[1..], move.task);
      }
    }
  }

  predicate ProducerDone(at: ProducerAt) {
    !at.ProducerOut? && !at.Entry?
  }

  predicate ConsumerDone(at: ConsumerAt) {
    at.Request? || at.ConsumerExit?
  }

  function ToProduce<T>(s: State<T>): seq<Task<T>> {
    Pending(s.produce, ProducerDone(s.stream.producerAt))
  }

  function ToConsume<T>(s: State<T>): seq<Task<T>> {
    Pending(s.consume, ConsumerDone(s.stream.consumerAt))
  }

  // ----- the invariant -----

  /** The tokens asked for in the first `calls` callbacks: OnSubscribe and one for each event. */
  function AskedIn<T>(demands: Demands<T>, events: seq<Event<T>>, calls: nat): nat
    requires calls <= |events| + 1
  {
    if calls == 0 then 0 else AskedIn(demands, events, calls - 1) + Sum(Requests(demands, events[..calls - 1]))
  }

  /** What the consumer asks for in each of its first `calls` callbacks, in terms of its function alone. */
  function Asks<T>(demands: seq<Event<T>> -> seq<Size>, events: seq<Event<T>>, calls: nat): (asks: seq<nat>)
    requires calls <= |events| + 1
    ensures |asks| == calls
    ensures forall k :: 0 <= k < calls ==> asks[k] == Sum(demands(events[..k]))
  {
    if calls == 0 then [] else Asks(demands, events, calls - 1) + [Sum(demands(events[..calls - 1]))]
  }

  /** All that the consumer asks for is counted, and counted once. */
  lemma {:induction false} AskedInIsTotal<T>(demands: seq<Event<T>> -> seq<Size>, events: seq<Event<T>>, calls: nat)
    requires calls <= |events| + 1
    ensures AskedIn(demands, events, calls) == Total(Asks(demands, events, calls))
  {
    if calls > 0 {
      AskedInIsTotal(demands, events, calls - 1);
      TotalMore(Asks(demands, events, calls - 1), Sum(demands(events[..calls - 1])));
    }
  }

  function Tokens<T>(tasks: seq<Task<T>>): nat {
    if tasks == [] then 0 else (if tasks[0].Ask? then tasks[0].tokens else 0) + Tokens(tasks[1..])
  }

  lemma {:induction false} TokensOfLonger<T>(tasks: seq<Task<T>>, task: Task<T>)
    ensures Tokens(tasks + [task]) == Tokens(tasks) + if task.Ask? then task.tokens else 0
  {
    if tasks != [] {
      TokensOfLonger(tasks[1..], task);
      assert (tasks + [task])[1..] == tasks[1..] + [task];
    }
  }

  predicate OnlyAsks<T>(tasks: seq<Task<T>>) {
    forall k :: 0 <= k < |tasks| ==> tasks[k].Ask?
  }

  function Delivers<T>(events: seq<Event<T>>): (tasks: seq<Task<T>>)
    ensures |tasks| == |events|
    ensures forall k :: 0 <= k < |events| ==> tasks[k] == Deliver(events[k])
  {
    seq(|events|, k requires 0 <= k < |events| => Deliver(events[k]))
  }

  /** How many events the producer has sent. */
  function Sent<T>(input: Source<T>): nat {
    if input.finished then input.index + 1 else input.index
  }

  /** The tokens asked for by the requests the consumer has made. */
  function AskedSoFar<T>(stream: Stream<T>, demands: Demands<T>, events: seq<Event<T>>): nat
    requires |stream.seen| <= |events|
    requires stream.consumerAt.Request? ==> stream.consumerAt.made <= |Requests(demands, stream.seen)|
  {
    if !stream.greeted then 0 else
      var last := Requests(demands, stream.seen);
      AskedIn(demands, events, |stream.seen|)
      + SumTo(last, if stream.consumerAt.Request? then stream.consumerAt.made else |last|)
  }

  /** A worker executes a task exactly while the stream's program counter is in one. */
  predicate Bodies<T>(s: State<T>) {
    && s.produce.busy == !s.stream.producerAt.ProducerOut?
    && s.consume.busy == !s.stream.consumerAt.ConsumerOut?
    && (s.produce.busy ==> s.produce.queue != [])
    && (s.consume.busy ==> s.consume.queue != [])
    && (s.stream.producerAt.Entry? ==> !s.produce.queue[0].Other?)
    && (s.stream.consumerAt.Check? || s.stream.consumerAt.Call? ==> !s.consume.queue[0].Other?)
  }

  /** Nothing has happened before the producer executes Subscribe. */
  ghost predicate Before<T>(stream: Stream<T>, script: Script<T>, toProduce: seq<Task<T>>, toConsume: seq<Task<T>>) {
    && !stream.created && !stream.ended && !stream.greeted && stream.seen == []
    && stream.input == Fresh(script) && stream.given == stream.asked == 0
    && !stream.producerAt.Generating? && !stream.producerAt.Deleting? && !stream.consumerAt.Request?
    && toProduce == (if stream.submitted then [Subscribe] else []) && toConsume == []
  }

  /** The consumer has seen the first of the events the producer has sent; the others are on their
      way, in order. */
  ghost predicate InTransit<T>(stream: Stream<T>, script: Script<T>, toConsume: seq<Task<T>>) {
    var events := EventsOf(script);
    && stream.submitted && stream.input.script == script && stream.input.Valid()
    && |stream.seen| <= Sent(stream.input) && stream.seen == events[..|stream.seen|]
    && (stream.seen != [] ==> stream.greeted)
    && (stream.consumerAt.Request? ==> stream.greeted)
    && toConsume == (if stream.greeted then [] else [Open]) + Delivers(events[|stream.seen|..Sent(stream.input)])
  }

  /** The producer sends what it was asked for. */
  ghost predicate FlowControl<T>(stream: Stream<T>, script: Script<T>, demands: Demands<T>, toProduce: seq<Task<T>>) {
    && OnlyAsks(toProduce) && stream.asked == stream.given + Tokens(toProduce)
    && stream.input.finished == (stream.ended || stream.producerAt.Deleting?)
    && (stream.producerAt.Generating? ==> !stream.ended)
    && (Sent(stream.input) > 0 ==> Covers(stream.given, Sent(stream.input) - 1))
    && (!stream.input.finished ==> Credit(stream.input.requested, stream.given, Sent(stream.input)))
    && (!stream.input.finished && !stream.producerAt.Generating? ==> stream.input.requested == 0)
    && |stream.seen| <= |script.values| + 1 && AskedFor(script, demands, |stream.seen|)
    && (stream.consumerAt.Request? ==> stream.consumerAt.made < |Requests(demands, stream.seen)|)
    && stream.asked == AskedSoFar(stream, demands, EventsOf(script))
  }

  /** All that was seen was asked for in the callbacks before. */
  ghost predicate AskedFor<T>(script: Script<T>, demands: Demands<T>, seen: nat)
    requires seen <= |EventsOf(script)|
  {
    forall i :: 0 < i <= seen ==> AskedIn(demands, EventsOf(script), i) >= i
  }

  /** The consumer gets to callback number `i` (OnSubscribe is number 0) and to a point there, after
      `j` requests, when it has asked for the end marker although it has another request to make in
      this callback or an element to handle. */
  ghost predicate OvertakesAt<T>(script: Script<T>, demands: Demands<T>, i: nat, j: nat) {
    var events, n := EventsOf(script), |script.values|;
    && i <= n + 1 && AskedFor(script, demands, i)
    && var requests := Requests(demands, events[..i]);
    && j <= |requests| && AskedIn(demands, events, i) + SumTo(requests, j) > n
    && (j < |requests| || i < n)
  }

  ghost predicate Overtakes<T>(script: Script<T>, demands: Demands<T>) {
    exists i: nat, j: nat :: OvertakesAt(script, demands, i, j)
  }

  /** In terms of what the consumer asks for alone: it gets to a callback only if each callback before
      was asked for, and there it has asked for the end marker, after some of its requests, with another
      one to make or an element to handle. */
  lemma OvertakesAtMeans<T>(script: Script<T>, demands: seq<Event<T>> -> seq<Size>, i: nat, j: nat)
    ensures OvertakesAt(script, demands, i, j)
            <==>
            && i <= |script.values| + 1 && j <= |demands(EventsOf(script)[..i])|
            && (forall k :: 0 < k <= i ==> Total(Asks(demands, EventsOf(script), k)) >= k)
            && Total(Asks(demands, EventsOf(script), i)) + SumTo(demands(EventsOf(script)[..i]), j) > |script.values|
            && (j < |demands(EventsOf(script)[..i])| || i < |script.values|)
  {
    if i <= |script.values| + 1 {
      AskedInIsTotal(demands, EventsOf(script), i);
      AskedForMeans(script, demands, i);
    }
  }

  lemma {:induction false} AskedForMeans<T>(script: Script<T>, demands: seq<Event<T>> -> seq<Size>, i: nat)
    requires i <= |EventsOf(script)|
    ensures AskedFor(script, demands, i) <==> forall k :: 0 < k <= i ==> Total(Asks(demands, EventsOf(script), k)) >= k
  {
    if i > 0 {
      AskedForMeans(script, demands, i - 1);
      AskedInIsTotal(demands, EventsOf(script), i);
      assert AskedFor(script, demands, i) <==>
          AskedFor(script, demands, i - 1) && AskedIn(demands, EventsOf(script), i) >= i;
    }
  }

  ghost predicate Core<T>(stream: Stream<T>, script: Script<T>, demands: Demands<T>,
      toProduce: seq<Task<T>>, toConsume: seq<Task<T>>)
  {
    && (if stream.created then InTransit(stream, script, toConsume) && FlowControl(stream, script, demands, toProduce)
        else Before(stream, script, toProduce, toConsume))
    && (stream.failed ==> Overtakes(script, demands))
  }

  ghost predicate AsyncInvariant<T>(s: State<T>, script: Script<T>, demands: Demands<T>) {
    Bodies(s) && Core(s.stream, script, demands, ToProduce(s), ToConsume(s))
  }

  // ----- the steps of the stream's tasks -----

  /** The producer subscribes to the input, and passes the subscription on. */
  lemma SubscribeKeeps<T>(stream: Stream<T>, script: Script<T>, demands: Demands<T>,
      toProduce: seq<Task<T>>, toConsume: seq<Task<T>>)
    requires Core(stream, script, demands, toProduce, toConsume)
    requires toProduce != [] && toProduce[0].Subscribe?
    ensures Core(stream.(created := true, producerAt := ProducerExit), script, demands, toProduce[1..], toConsume + [Open])
  {
    assert Delivers(EventsOf(script)[0..0]) == [];
  }

  /** The producer takes a request; it is of no use to a stream that has ended. */
  lemma AskKeeps<T>(stream: Stream<T>, script: Script<T>, demands: Demands<T>,
      toProduce: seq<Task<T>>, toConsume: seq<Task<T>>)
    requires Core(stream, script, demands, toProduce, toConsume)
    requires stream.producerAt.Entry? && toProduce != [] && toProduce[0].Ask?
    ensures Core(Producing(stream, toProduce[0]).0, script, demands, toProduce[1..], toConsume)
  {
    var next := Producing(stream, toProduce[0]).0;
    assert InTransit(next, script, toConsume);
    AskIsGiven(stream, script, demands, toProduce);
  }

  lemma AskIsGiven<T>(stream: Stream<T>, script: Script<T>, demands: Demands<T>, toProduce: seq<Task<T>>)
    requires FlowControl(stream, script, demands, toProduce)
    requires stream.producerAt.Entry? && toProduce != []
    ensures FlowControl(Producing(stream, toProduce[0]).0, script, demands, toProduce[1..])
  {
    assert toProduce[0].Ask?;
    assert OnlyAsks(toProduce[1..]);
  }

  /** The producer sends the next event. */
  lemma SendKeeps<T>(stream: Stream<T>, script: Script<T>, demands: Demands<T>,
      toProduce: seq<Task<T>>, toConsume: seq<Task<T>>)
    requires |script.values| < KMAX
    requires Core(stream, script, demands, toProduce, toConsume)
    requires stream.producerAt.Generating? && stream.input.requested > 0
    ensures var event := stream.input.Event();
            var next := stream.(input := stream.input.Advance(), producerAt := if event.End? then Deleting else Generating);
            Core(next, script, demands, toProduce, toConsume + [Deliver(event)])
  {
    var event := stream.input.Event();
    var next := stream.(input := stream.input.Advance(), producerAt := if event.End? then Deleting else Generating);
    SendsNext(stream, script, toConsume);
    assert InTransit(next, script, toConsume + [Deliver(event)]);
    SendIsCovered(stream, script, demands, toProduce);
  }

  lemma SendsNext<T>(stream: Stream<T>, script: Script<T>, toConsume: seq<Task<T>>)
    requires InTransit(stream, script, toConsume) && !stream.input.finished
    ensures var events, sent, event := EventsOf(script), Sent(stream.input), stream.input.Event();
            && sent < |events| && events[sent] == event && (event.End? <==> sent == |script.values|)
            && toConsume + [Deliver(event)]
               == (if stream.greeted then [] else [Open]) + Delivers(events[|stream.seen|..sent + 1])
  {
    var events, n, sent := EventsOf(script), |stream.seen|, Sent(stream.input);
    assert Delivers(events[n..sent + 1]) == Delivers(events[n..sent]) + [Deliver(events[sent])];
  }

  lemma SendIsCovered<T>(stream: Stream<T>, script: Script<T>, demands: Demands<T>, toProduce: seq<Task<T>>)
    requires |script.values| < KMAX
    requires FlowControl(stream, script, demands, toProduce)
    requires stream.input.script == script && stream.input.Valid()
    requires stream.producerAt.Generating? && stream.input.requested > 0
    ensures var at := if stream.input.Event().End? then Deleting else Generating;
            FlowControl(stream.(input := stream.input.Advance(), producerAt := at), script, demands, toProduce)
  {
  }

  /** The generating loop is left, or the stream deletes itself. */
  lemma LeaveKeeps<T>(stream: Stream<T>, script: Script<T>, demands: Demands<T>,
      toProduce: seq<Task<T>>, toConsume: seq<Task<T>>)
    requires Core(stream, script, demands, toProduce, toConsume)
    requires (stream.producerAt.Generating? && stream.input.requested == 0) || stream.producerAt.Deleting?
    ensures var ended := stream.ended || stream.producerAt.Deleting?;
            Core(stream.(ended := ended, producerAt := ProducerExit), script, demands, toProduce, toConsume)
  {
    var next := stream.(ended := stream.ended || stream.producerAt.Deleting?, producerAt := ProducerExit);
    assert InTransit(next, script, toConsume);
    assert FlowControl(next, script, demands, toProduce);
  }

  /** The stream ends only after the consumer has asked for more events than there are elements. If
      it then has a request to make or an element to handle, it has overtaken itself. */
  lemma EndsEarly<T>(stream: Stream<T>, script: Script<T>, demands: Demands<T>,
      toProduce: seq<Task<T>>, toConsume: seq<Task<T>>)
    requires |script.values| < KMAX
    requires Core(stream, script, demands, toProduce, toConsume) && stream.created && stream.ended
    requires stream.consumerAt.Request? || |stream.seen| < |script.values|
    ensures Overtakes(script, demands)
  {
    var requests := Requests(demands, stream.seen);
    assert stream.asked > |script.values| && stream.greeted;
    assert OvertakesAt(script, demands, |stream.seen|,
                       if stream.consumerAt.Request? then stream.consumerAt.made else |requests|);
  }

  /** What is passed to the consumer next, if it is not the end marker, is an element. */
  lemma CheckedIsElement<T>(stream: Stream<T>, script: Script<T>, toConsume: seq<Task<T>>)
    requires InTransit(stream, script, toConsume) && toConsume != []
    requires toConsume[0].Deliver? ==> toConsume[0].event.Next?
    ensures toConsume[0].Deliver? ==> |stream.seen| < |script.values|
  {
    if stream.greeted {
      NextIsFirst(stream, script, toConsume);
    }
  }

  lemma CheckKeeps<T>(stream: Stream<T>, script: Script<T>, demands: Demands<T>,
      toProduce: seq<Task<T>>, toConsume: seq<Task<T>>)
    requires |script.values| < KMAX
    requires Core(stream, script, demands, toProduce, toConsume)
    requires stream.consumerAt.Check? && toConsume != [] && ConsumerGetsOn(stream, demands, toConsume[0])
    ensures Core(Consuming(stream, demands, toConsume[0]).0, script, demands, toProduce, toConsume)
  {
    var next := Consuming(stream, demands, toConsume[0]).0;
    if next.failed && !stream.failed {
      CheckedIsElement(stream, script, toConsume);
      EndsEarly(stream, script, demands, toProduce, toConsume);
    }
  }

  /** The consumer's OnSubscribe or OnNext is called. */
  lemma CallKeeps<T>(stream: Stream<T>, script: Script<T>, demands: Demands<T>,
      toProduce: seq<Task<T>>, toConsume: seq<Task<T>>)
    requires |script.values| < KMAX
    requires Core(stream, script, demands, toProduce, toConsume)
    requires stream.consumerAt.Call? && toConsume != [] && ConsumerGetsOn(stream, demands, toConsume[0])
    ensures Core(Consuming(stream, demands, toConsume[0]).0, script, demands, toProduce, toConsume[1..])
  {
    CalledInOrder(stream, script, demands, toConsume);
    CallIsAskedFor(stream, script, demands, toProduce, toConsume[0]);
  }

  lemma CallIsAskedFor<T>(stream: Stream<T>, script: Script<T>, demands: Demands<T>, toProduce: seq<Task<T>>, task: Task<T>)
    requires |script.values| < KMAX && FlowControl(stream, script, demands, toProduce)
    requires stream.consumerAt.Call? && ConsumerGetsOn(stream, demands, task)
    requires task.Open? <==> !stream.greeted
    requires task.Deliver? ==> |stream.seen| < Sent(stream.input) && |stream.seen| <= |script.values|
    requires task.Deliver? ==> stream.seen + [task.event] == EventsOf(script)[..|stream.seen| + 1]
    requires stream.seen == EventsOf(script)[..|stream.seen|] && (!stream.greeted ==> stream.seen == [])
    ensures FlowControl(Consuming(stream, demands, task).0, script, demands, toProduce)
  {
    if task.Deliver? {
      assert AskedIn(demands, EventsOf(script), |stream.seen| + 1) == stream.asked >= |stream.seen| + 1;
    }
  }

  lemma CalledInOrder<T>(stream: Stream<T>, script: Script<T>, demands: Demands<T>, toConsume: seq<Task<T>>)
    requires InTransit(stream, script, toConsume)
    requires stream.consumerAt.Call? && toConsume != [] && ConsumerGetsOn(stream, demands, toConsume[0])
    ensures var next := Consuming(stream, demands, toConsume[0]).0;
            && InTransit(next, script, toConsume[1..])
            && (toConsume[0].Open? <==> !stream.greeted)
            && (toConsume[0].Deliver? ==>
                  && |stream.seen| < Sent(stream.input) && |stream.seen| <= |script.values|
                  && stream.seen + [toConsume[0].event] == EventsOf(script)[..|stream.seen| + 1])
  {
    if stream.greeted {
      NextIsFirst(stream, script, toConsume);
    } else {
      assert toConsume[1..] == Delivers(EventsOf(script)[|stream.seen|..Sent(stream.input)]);
    }
  }

  lemma NextIsFirst<T>(stream: Stream<T>, script: Script<T>, toConsume: seq<Task<T>>)
    requires InTransit(stream, script, toConsume) && stream.greeted && toConsume != []
    ensures var events, n, sent := EventsOf(script), |stream.seen|, Sent(stream.input);
            && n < sent && toConsume[0] == Deliver(events[n]) && toConsume[1..] == Delivers(events[n + 1..sent])
            && stream.seen + [events[n]] == events[..n + 1]
  {
    var events, n, sent := EventsOf(script), |stream.seen|, Sent(stream.input);
    assert [] + Delivers(events[n..sent]) == Delivers(events[n..sent]);
    DeliversTail(events, n, sent);
  }

  lemma DeliversTail<T>(events: seq<Event<T>>, n: nat, sent: nat)
    requires n <= sent <= |events| && Delivers(events[n..sent]) != []
    ensures n < sent && Delivers(events[n..sent])[0] == Deliver(events[n])
    ensures Delivers(events[n..sent])[1..] == Delivers(events[n + 1..sent]) && events[..n + 1] == events[..n] + [events[n]]
  {
  }

  /** The consumer makes its next request in a callback. */
  lemma RequestKeeps<T>(stream: Stream<T>, script: Script<T>, demands: Demands<T>,
      toProduce: seq<Task<T>>, toConsume: seq<Task<T>>, task: Task<T>)
    requires |script.values| < KMAX
    requires Core(stream, script, demands, toProduce, toConsume)
    requires stream.consumerAt.Request? && ConsumerGetsOn(stream, demands, task)
    ensures var (next, move) := Consuming(stream, demands, task);
            Core(next, script, demands, toProduce + if move.Enqueue? then [move.task] else [], toConsume)
  {
    if stream.ended {
      EndsEarly(stream, script, demands, toProduce, toConsume);
      assert toProduce + [] == toProduce;
    } else {
      var next := Consuming(stream, demands, task).0;
      var ask := Ask(Requests(demands, stream.seen)[stream.consumerAt.made]);
      TokensOfLonger(toProduce, ask);
      assert FlowControl(next, script, demands, toProduce + [ask]) by {
        var requests := Requests(demands, stream.seen);
        assert SumTo(requests, stream.consumerAt.made + 1)
            == stream.asked + requests[stream.consumerAt.made] - AskedIn(demands, EventsOf(script), |stream.seen|);
        assert stream.seen == EventsOf(script)[..|stream.seen|];
      }
    }
  }

  // ----- the steps -----

  lemma SubmitKeeps<T>(s: State<T>, script: Script<T>, demands: Demands<T>)
    requires AsyncInvariant(s, script, demands) && Enabled(s, demands, Submit)
    ensures AsyncInvariant(After(s, demands, Submit), script, demands)
  {
    PendingOfLonger(s.produce, ProducerDone(s.stream.producerAt), Enqueue(Subscribe));
  }

  lemma OtherKeeps<T>(s: State<T>, script: Script<T>, demands: Demands<T>, onProducer: bool, id: nat)
    requires AsyncInvariant(s, script, demands) && Enabled(s, demands, ScheduleOther(onProducer, id))
    ensures AsyncInvariant(After(s, demands, ScheduleOther(onProducer, id)), script, demands)
  {
    if onProducer {
      PendingOfLonger(s.produce, ProducerDone(s.stream.producerAt), Enqueue(Other(id)));
      assert ToProduce(s) + [] == ToProduce(s);
    } else {
      PendingOfLonger(s.consume, ConsumerDone(s.stream.consumerAt), Enqueue(Other(id)));
      assert ToConsume(s) + [] == ToConsume(s);
    }
  }

  /** A task that starts or returns has no effect of its own. */
  lemma TurnKeeps<T>(s: State<T>, script: Script<T>, demands: Demands<T>, step: Step)
    requires AsyncInvariant(s, script, demands) && Enabled(s, demands, step)
    requires step.BeginProduce? || step.EndProduce? || step.BeginConsume? || step.EndConsume?
    ensures AsyncInvariant(After(s, demands, step), script, demands)
  {
    var next := After(s, demands, step);
    TurnMoves(s, demands, step);
    TurnIsSilent(s.stream, script, demands, ToProduce(s), ToConsume(s), next.stream.producerAt, next.stream.consumerAt);
  }

  lemma TurnMoves<T>(s: State<T>, demands: Demands<T>, step: Step)
    requires Bodies(s) && Enabled(s, demands, step)
    requires step.BeginProduce? || step.EndProduce? || step.BeginConsume? || step.EndConsume?
    ensures var next := After(s, demands, step);
            && Bodies(next) && ToProduce(next) == ToProduce(s) && ToConsume(next) == ToConsume(s)
            && next.stream == s.stream.(producerAt := next.stream.producerAt, consumerAt := next.stream.consumerAt)
            && (next.stream.producerAt == s.stream.producerAt || (Quiet(next.stream.producerAt) && Quiet(s.stream.producerAt)))
            && (next.stream.consumerAt == s.stream.consumerAt ||
                (!next.stream.consumerAt.Request? && !s.stream.consumerAt.Request?))
  {
  }

  /** The producer's task is not about to send or to delete the stream. */
  predicate Quiet(at: ProducerAt) {
    !at.Generating? && !at.Deleting?
  }

  lemma TurnIsSilent<T>(stream: Stream<T>, script: Script<T>, demands: Demands<T>,
      toProduce: seq<Task<T>>, toConsume: seq<Task<T>>, p: ProducerAt, c: ConsumerAt)
    requires Core(stream, script, demands, toProduce, toConsume)
    requires p == stream.producerAt || (Quiet(p) && Quiet(stream.producerAt))
    requires c == stream.consumerAt || (!c.Request? && !stream.consumerAt.Request?)
    ensures Core(stream.(producerAt := p, consumerAt := c), script, demands, toProduce, toConsume)
  {
  }

  lemma EntryKeeps<T>(s: State<T>, script: Script<T>, demands: Demands<T>)
    requires AsyncInvariant(s, script, demands) && Enabled(s, demands, Produce) && s.stream.producerAt.Entry?
    ensures AsyncInvariant(After(s, demands, Produce), script, demands)
  {
    EntryMoves(s, demands);
    if s.produce.queue[0].Subscribe? {
      SubscribeKeeps(s.stream, script, demands, ToProduce(s), ToConsume(s));
    } else {
      AskKeeps(s.stream, script, demands, ToProduce(s), ToConsume(s));
    }
  }

  lemma EntryMoves<T>(s: State<T>, demands: Demands<T>)
    requires Bodies(s) && Enabled(s, demands, Produce) && s.stream.producerAt.Entry?
    ensures var next := After(s, demands, Produce);
            && Bodies(next) && ToProduce(s) != [] && ToProduce(s)[0] == s.produce.queue[0]
            && ToProduce(next) == ToProduce(s)[1..]
            && ToConsume(next) == if s.produce.queue[0].Subscribe? then ToConsume(s) + [Open] else ToConsume(s)
  {
    PendingOfLonger(s.consume, ConsumerDone(s.stream.consumerAt), Producing(s.stream, s.produce.queue[0]).1);
    assert ToProduce(s) == [s.produce.queue[0]] + Ours(s.produce.queue[1..]);
    assert ToConsume(s) + [] == ToConsume(s);
  }

  lemma LoopKeeps<T>(s: State<T>, script: Script<T>, demands: Demands<T>)
    requires |script.values| < KMAX
    requires AsyncInvariant(s, script, demands) && Enabled(s, demands, Produce) && !s.stream.producerAt.Entry?
    ensures AsyncInvariant(After(s, demands, Produce), script, demands)
  {
    LoopMoves(s, demands);
    if s.stream.producerAt.Generating? && s.stream.input.requested > 0 {
      SendKeeps(s.stream, script, demands, ToProduce(s), ToConsume(s));
    } else {
      LeaveKeeps(s.stream, script, demands, ToProduce(s), ToConsume(s));
    }
  }

  lemma LoopMoves<T>(s: State<T>, demands: Demands<T>)
    requires Bodies(s) && Enabled(s, demands, Produce) && !s.stream.producerAt.Entry?
    ensures var next := After(s, demands, Produce);
            && Bodies(next) && ToProduce(next) == ToProduce(s)
            && ToConsume(next)
               == if s.stream.producerAt.Generating? && s.stream.input.requested > 0
                  then ToConsume(s) + [Deliver(s.stream.input.Event())] else ToConsume(s)
  {
    PendingOfLonger(s.consume, ConsumerDone(s.stream.consumerAt), Producing(s.stream, s.produce.queue[0]).1);
    assert ToConsume(s) + [] == ToConsume(s);
  }

  lemma CallbackKeeps<T>(s: State<T>, script: Script<T>, demands: Demands<T>)
    requires |script.values| < KMAX
    requires AsyncInvariant(s, script, demands) && Enabled(s, demands, Consume) && !s.stream.consumerAt.Request?
    ensures AsyncInvariant(After(s, demands, Consume), script, demands)
  {
    CallbackMoves(s, demands);
    if s.stream.consumerAt.Check? {
      CheckKeeps(s.stream, script, demands, ToProduce(s), ToConsume(s));
    } else {
      CallKeeps(s.stream, script, demands, ToProduce(s), ToConsume(s));
    }
  }

  lemma CallbackMoves<T>(s: State<T>, demands: Demands<T>)
    requires Bodies(s) && Enabled(s, demands, Consume) && !s.stream.consumerAt.Request?
    ensures var next := After(s, demands, Consume);
            && Bodies(next) && next.stream == Consuming(s.stream, demands, s.consume.queue[0]).0
            && ToConsume(s) != [] && ToConsume(s)[0] == s.consume.queue[0]
            && ToProduce(next) == ToProduce(s)
            && ToConsume(next) == if s.stream.consumerAt.Check? then ToConsume(s) else ToConsume(s)[1..]
  {
    assert ToConsume(s) == [s.consume.queue[0]] + Ours(s.consume.queue[1..]);
  }

  lemma CallbackEndKeeps<T>(s: State<T>, script: Script<T>, demands: Demands<T>)
    requires |script.values| < KMAX
    requires AsyncInvariant(s, script, demands) && Enabled(s, demands, Consume) && s.stream.consumerAt.Request?
    ensures AsyncInvariant(After(s, demands, Consume), script, demands)
  {
    var stream, task := s.stream, s.consume.queue[0];
    PendingOfLonger(s.produce, ProducerDone(stream.producerAt), Consuming(stream, demands, task).1);
    RequestKeeps(stream, script, demands, ToProduce(s), ToConsume(s), task);
  }

  lemma AsyncStepKeeps<T>(s: State<T>, script: Script<T>, demands: Demands<T>, step: Step)
    requires |script.values| < KMAX
    requires AsyncInvariant(s, script, demands) && Enabled(s, demands, step)
    ensures AsyncInvariant(After(s, demands, step), script, demands)
  {
    match step {
      case Submit => SubmitKeeps(s, script, demands);
      case ScheduleOther(onProducer, id) => OtherKeeps(s, script, demands, onProducer, id);
      case Produce => {
        if s.stream.producerAt.Entry? {
          EntryKeeps(s, script, demands);
        } else {
          LoopKeeps(s, script, demands);
        }
      }
      case Consume => {
        if s.stream.consumerAt.Request? {
          CallbackEndKeeps(s, script, demands);
        } else {
          CallbackKeeps(s, script, demands);
        }
      }
      case BeginProduce => TurnKeeps(s, script, demands, step);
      case EndProduce => TurnKeeps(s, script, demands, step);
      case BeginConsume => TurnKeeps(s, script, demands, step);
      case EndConsume => TurnKeeps(s, script, demands, step);
    }
  }
}
