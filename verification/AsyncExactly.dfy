/** Exactly which consumers the staleness checks of an asynchronous stream are safe for: for every
    other one there is a run between two serial workers in which a check fails. */
module AsyncExactly {
  import opened RequestBalances
  import opened Events
  import opened Generators
  import opened SerialWorkers
  import opened Asyncs
  import opened AsyncLaws

  ghost predicate AsyncRuns<T>(s: State<T>, demands: Demands<T>, steps: seq<Step>, end: State<T>)
    decreases |steps|
  {
    if steps == [] then s == end
    else Enabled(s, demands, steps[0]) && AsyncRuns(After(s, demands, steps[0]), demands, steps[1..], end)
  }

  function Unstarted<T>(script: Script<T>): State<T> {
    State(Serial([], false), Serial([], false), Unsubscribed(script))
  }

  ghost predicate Reaches<T>(script: Script<T>, demands: Demands<T>, end: State<T>) {
    exists steps :: AsyncRuns(Unstarted(script), demands, steps, end)
  }

  lemma {:induction false} RunsOn<T>(s: State<T>, demands: Demands<T>, steps: seq<Step>, end: State<T>, step: Step)
    requires AsyncRuns(s, demands, steps, end) && Enabled(end, demands, step)
    ensures AsyncRuns(s, demands, steps + [step], After(end, demands, step))
    decreases |steps|
  {
    if steps == [] {
      assert [step][1..] == [];
    } else {
      RunsOn(After(s, demands, steps[0]), demands, steps[1..], end, step);
      assert (steps + [step])[1..] == steps[1..] + [step];
    }
  }

  lemma ReachesOn<T>(script: Script<T>, demands: Demands<T>, s: State<T>, step: Step, next: State<T>)
    requires Reaches(script, demands, s) && Enabled(s, demands, step) && next == After(s, demands, step)
    ensures Reaches(script, demands, next)
  {
    var steps :| AsyncRuns(Unstarted(script), demands, steps, s);
    RunsOn(Unstarted(script), demands, steps, s, step);
  }

  // ----- the milestones of a run -----

  /** The tokens asked for before callback number `i` and in its first `j` requests. */
  function AskedTo<T>(script: Script<T>, demands: Demands<T>, i: nat, j: nat): nat
    requires i <= |script.values| + 1 && j <= |Requests(demands, EventsOf(script)[..i])|
  {
    AskedIn(demands, EventsOf(script), i) + SumTo(Requests(demands, EventsOf(script)[..i]), j)
  }

  /** The task in which callback number `i` is made. */
  function Calling<T>(script: Script<T>, i: nat): Task<T>
    requires i <= |script.values| + 1
  {
    if i == 0 then Open else Deliver(EventsOf(script)[i - 1])
  }

  /** The consumer has made `j` requests in callback number `i`; the producer has taken `given`
      tokens and sent `sent` events. */
  function Position<T>(script: Script<T>, demands: Demands<T>, i: nat, j: nat, sent: nat, asks: seq<Task<T>>, given: nat,
                       requested: Size, p: ProducerAt): State<T>
    requires i <= sent <= |script.values| + 1 && j <= |Requests(demands, EventsOf(script)[..i])|
  {
    var events, n := EventsOf(script), |script.values|;
    State(Serial(asks, !p.ProducerOut?),
          Serial([Calling(script, i)] + Delivers(events[i..sent]), true),
          Stream(true, true, Source(script, if sent > n then n else sent, requested, false, sent > n), false, p,
                 Asking(demands, events[..i], j), true, events[..i], false, given, AskedTo(script, demands, i, j)))
  }

  /** Moreover the producer has served all requests, and the end marker was not asked for. */
  ghost predicate Rests<T>(script: Script<T>, demands: Demands<T>, i: nat, j: nat) {
    && i <= |script.values| && j <= |Requests(demands, EventsOf(script)[..i])|
    && var asked := AskedTo(script, demands, i, j);
    && i <= asked <= |script.values|
    && Reaches(script, demands, Position(script, demands, i, j, asked, [], asked, 0, ProducerOut))
  }

  // ----- the opening -----

  lemma Opening<T>(script: Script<T>, demands: Demands<T>)
    ensures Reaches(script, demands, State(Serial([], false), Serial([Open], false),
                                           Unsubscribed(script).(submitted := true, created := true)))
  {
    var nobody: Serial<Task<T>> := Serial([], false);
    var s0, stream := Unstarted(script), Unsubscribed(script).(submitted := true);
    assert AsyncRuns(s0, demands, [], s0);
    var s1 := State(Serial([Subscribe], false), nobody, stream);
    ReachesOn(script, demands, s0, Submit, s1);
    var s2 := State(Serial([Subscribe], true), nobody, stream.(producerAt := Entry));
    ReachesOn(script, demands, s1, BeginProduce, s2);
    var s3 := State(Serial([Subscribe], true), Serial([Open], false), stream.(created := true, producerAt := ProducerExit));
    ReachesOn(script, demands, s2, Produce, s3);
    ReachesOn(script, demands, s3, EndProduce, State(nobody, Serial([Open], false), stream.(created := true)));
  }

  lemma FirstCall<T>(script: Script<T>, demands: Demands<T>)
    ensures Rests(script, demands, 0, 0)
  {
    Opening(script, demands);
    var nobody: Serial<Task<T>> := Serial([], false);
    var stream := Unsubscribed(script).(submitted := true, created := true);
    var s0 := State(nobody, Serial([Open], false), stream);
    var s1 := State(nobody, Serial([Open], true), stream.(consumerAt := Check));
    ReachesOn(script, demands, s0, BeginConsume, s1);
    var s2 := State(nobody, Serial([Open], true), stream.(consumerAt := Call));
    ReachesOn(script, demands, s1, Consume, s2);
    assert EventsOf(script)[..0] == [] && Delivers(EventsOf(script)[0..0]) == [];
    assert [Calling(script, 0)] + Delivers(EventsOf(script)[0..0]) == [Open];
    ReachesOn(script, demands, s2, Consume, Position(script, demands, 0, 0, 0, [], 0, 0, ProducerOut));
  }

  // ----- a request, which the producer serves at once -----

  /** The consumer makes its next request, and the producer enters its loop on behalf of it. */
  lemma Asks<T>(script: Script<T>, demands: Demands<T>, i: nat, j: nat)
    requires Rests(script, demands, i, j) && j < |Requests(demands, EventsOf(script)[..i])|
    ensures var tokens := Requests(demands, EventsOf(script)[..i])[j];
            Reaches(script, demands,
                    Position(script, demands, i, j + 1, AskedTo(script, demands, i, j), [Ask(tokens)],
                             AskedTo(script, demands, i, j + 1), tokens, Generating))
  {
    var asked, tokens := AskedTo(script, demands, i, j), Requests(demands, EventsOf(script)[..i])[j];
    var s0 := Position(script, demands, i, j, asked, [], asked, 0, ProducerOut);
    var s1 := Position(script, demands, i, j + 1, asked, [Ask(tokens)], asked, 0, ProducerOut);
    ReachesOn(script, demands, s0, Consume, s1);
    var s2 := Position(script, demands, i, j + 1, asked, [Ask(tokens)], asked, 0, Entry);
    ReachesOn(script, demands, s1, BeginProduce, s2);
    ReachesOn(script, demands, s2, Produce,
              Position(script, demands, i, j + 1, asked, [Ask(tokens)], AskedTo(script, demands, i, j + 1), tokens,
                       Generating));
  }

  /** The producer in its loop, having sent `sent` events. */
  function Looping<T>(script: Script<T>, demands: Demands<T>, i: nat, j: nat, sent: nat, requested: Size): State<T>
    requires i <= sent <= |script.values| + 1 && 0 < j <= |Requests(demands, EventsOf(script)[..i])|
  {
    Position(script, demands, i, j, sent, [Ask(Requests(demands, EventsOf(script)[..i])[j - 1])],
             AskedTo(script, demands, i, j), requested, if sent > |script.values| then Deleting else Generating)
  }

  lemma SendsOne<T>(script: Script<T>, demands: Demands<T>, i: nat, j: nat, sent: nat, requested: Size)
    requires i <= sent <= |script.values| && 0 < j <= |Requests(demands, EventsOf(script)[..i])| && requested > 0
    requires Reaches(script, demands, Looping(script, demands, i, j, sent, requested))
    ensures Reaches(script, demands, Looping(script, demands, i, j, sent + 1, Minus(requested, 1)))
  {
    var events := EventsOf(script);
    DeliversLonger(events, i, sent, Calling(script, i));
    ReachesOn(script, demands, Looping(script, demands, i, j, sent, requested), Produce,
              Looping(script, demands, i, j, sent + 1, Minus(requested, 1)));
  }

  lemma DeliversLonger<T>(events: seq<Event<T>>, i: nat, sent: nat, head: Task<T>)
    requires i <= sent < |events|
    ensures [head] + Delivers(events[i..sent + 1]) == ([head] + Delivers(events[i..sent])) + [Deliver(events[sent])]
  {
    assert Delivers(events[i..sent + 1]) == Delivers(events[i..sent]) + [Deliver(events[sent])];
  }

  lemma {:induction false} SendsMany<T>(script: Script<T>, demands: Demands<T>, i: nat, j: nat, sent: nat,
                                        requested: Size, count: nat)
    returns (left: Size)
    requires i <= sent && sent + count <= |script.values| + 1 && 0 < j <= |Requests(demands, EventsOf(script)[..i])|
    requires requested >= count
    requires Reaches(script, demands, Looping(script, demands, i, j, sent, requested))
    ensures requested < KMAX ==> left == requested - count
    ensures Reaches(script, demands, Looping(script, demands, i, j, sent + count, left))
    decreases count
  {
    left := requested;
    if count > 0 {
      SendsOne(script, demands, i, j, sent, requested);
      left := SendsMany(script, demands, i, j, sent + 1, Minus(requested, 1), count - 1);
    }
  }

  lemma ServesRequest<T>(script: Script<T>, demands: Demands<T>, i: nat, j: nat)
    requires |script.values| < KMAX
    requires Rests(script, demands, i, j) && j < |Requests(demands, EventsOf(script)[..i])|
    requires AskedTo(script, demands, i, j + 1) <= |script.values|
    ensures Rests(script, demands, i, j + 1)
  {
    var tokens := Requests(demands, EventsOf(script)[..i])[j];
    var asked := AskedTo(script, demands, i, j + 1);
    Asks(script, demands, i, j);
    var left := SendsMany(script, demands, i, j + 1, AskedTo(script, demands, i, j), tokens, tokens);
    var s1 := Position(script, demands, i, j + 1, asked, [Ask(tokens)], asked, 0, ProducerExit);
    ReachesOn(script, demands, Looping(script, demands, i, j + 1, asked, 0), Produce, s1);
    ReachesOn(script, demands, s1, EndProduce, Position(script, demands, i, j + 1, asked, [], asked, 0, ProducerOut));
  }

  // ----- the next callback -----

  /** The consumer returns from its callback, and takes the next event. */
  lemma TakesNext<T>(script: Script<T>, demands: Demands<T>, s: State<T>, i: nat, sent: nat) returns (t: State<T>)
    requires i < sent <= |script.values| + 1 && Reaches(script, demands, s)
    requires !s.stream.failed && s.consume.busy && s.stream.consumerAt == ConsumerExit
    requires s.consume.queue == [Calling(script, i)] + Delivers(EventsOf(script)[i..sent])
    ensures Reaches(script, demands, t) && t.stream == s.stream.(consumerAt := Check) && t.produce == s.produce
    ensures t.consume == Serial([Calling(script, i + 1)] + Delivers(EventsOf(script)[i + 1..sent]), true)
  {
    var queue := Delivers(EventsOf(script)[i..sent]);
    assert s.consume.queue[1..] == queue;
    DeliversTail(EventsOf(script), i, sent);
    var s1 := s.(consume := Serial(queue, false), stream := s.stream.(consumerAt := ConsumerOut));
    ReachesOn(script, demands, s, EndConsume, s1);
    t := s.(consume := Serial(queue, true), stream := s.stream.(consumerAt := Check));
    ReachesOn(script, demands, s1, BeginConsume, t);
  }

  lemma CallsBack<T>(script: Script<T>, demands: Demands<T>, i: nat)
    requires i <= |script.values| && Rests(script, demands, i, |Requests(demands, EventsOf(script)[..i])|)
    requires i < AskedIn(demands, EventsOf(script), i + 1)
    ensures Rests(script, demands, i + 1, 0)
  {
    var events := EventsOf(script);
    var asked, j := AskedIn(demands, events, i + 1), |Requests(demands, events[..i])|;
    assert AskedTo(script, demands, i, j) == asked == AskedTo(script, demands, i + 1, 0);
    var s0 := Position(script, demands, i, j, asked, [], asked, 0, ProducerOut);
    var s1 := TakesNext(script, demands, s0, i, asked);
    var s2 := s1.(stream := s1.stream.(consumerAt := Call));
    ReachesOn(script, demands, s1, Consume, s2);
    assert events[..i] + [events[i]] == events[..i + 1];
    var s3 := Position(script, demands, i + 1, 0, asked, [], asked, 0, ProducerOut);
    assert s3 == After(s2, demands, Consume);
    ReachesOn(script, demands, s2, Consume, s3);
  }

  // ----- the failing check -----

  /** The request that asks for the end marker is served, and the stream deletes itself. */
  lemma Ends<T>(script: Script<T>, demands: Demands<T>, i: nat, j: nat) returns (s: State<T>)
    requires |script.values| < KMAX
    requires Rests(script, demands, i, j) && j < |Requests(demands, EventsOf(script)[..i])|
    requires AskedTo(script, demands, i, j + 1) > |script.values|
    ensures Reaches(script, demands, s) && s.stream.ended && !s.stream.failed && s.consume.busy
    ensures s.stream.consumerAt == Asking(demands, EventsOf(script)[..i], j + 1) && s.stream.seen == EventsOf(script)[..i]
    ensures s.consume.queue == [Calling(script, i)] + Delivers(EventsOf(script)[i..])
  {
    var n, tokens := |script.values|, Requests(demands, EventsOf(script)[..i])[j];
    var sent := AskedTo(script, demands, i, j);
    Asks(script, demands, i, j);
    var left := SendsMany(script, demands, i, j + 1, sent, tokens, n + 1 - sent);
    var s0 := Looping(script, demands, i, j + 1, n + 1, left);
    s := s0.(stream := s0.stream.(ended := true, producerAt := ProducerExit));
    ReachesOn(script, demands, s0, Produce, s);
  }

  /** The stream is gone, and the consumer has another request to make. */
  lemma RequestFails<T>(script: Script<T>, demands: Demands<T>, s: State<T>, made: nat)
    requires Reaches(script, demands, s) && s.stream.ended && !s.stream.failed && s.consume.busy && s.consume.queue != []
    requires s.stream.consumerAt == Request(made) && made < |Requests(demands, s.stream.seen)|
    ensures exists t :: Reaches(script, demands, t) && t.stream.failed
  {
    ReachesOn(script, demands, s, Consume, s.(stream := s.stream.(failed := true)));
  }

  lemma Fails<T>(script: Script<T>, demands: Demands<T>, i: nat, j: nat)
    requires |script.values| < KMAX
    requires Rests(script, demands, i, j) && j < |Requests(demands, EventsOf(script)[..i])|
    requires AskedTo(script, demands, i, j + 1) > |script.values|
    requires || j + 1 < |Requests(demands, EventsOf(script)[..i])| || i < |script.values|
             || Requests(demands, EventsOf(script)) != []
    ensures exists t :: Reaches(script, demands, t) && t.stream.failed
  {
    var events := EventsOf(script);
    var s := Ends(script, demands, i, j);
    if j + 1 < |Requests(demands, events[..i])| {
      RequestFails(script, demands, s, j + 1);
    } else {
      assert events[i..] == events[i..|events|];
      var s1 := TakesNext(script, demands, s, i, |events|);
      var s2 := s1.(stream := s1.stream.(consumerAt := Call, failed := i < |script.values|));
      ReachesOn(script, demands, s1, Consume, s2);
      if i == |script.values| {
        assert events[..i] + [events[i]] == events;
        var s3 := s2.(stream := s2.stream.(consumerAt := Request(0), seen := events));
        ReachesOn(script, demands, s2, Consume, s3);
        RequestFails(script, demands, s3, 0);
      }
    }
  }

  // ----- the exact condition -----

  /** More calls and more requests ask for more. */
  lemma {:induction false} AskedGrows<T>(script: Script<T>, demands: Demands<T>, i: nat, j: nat, k: nat)
    requires i < k <= |script.values| + 1 && j <= |Requests(demands, EventsOf(script)[..i])|
    ensures AskedTo(script, demands, i, j) <= AskedIn(demands, EventsOf(script), k)
  {
    if i < k - 1 {
      AskedGrows(script, demands, i, j, k - 1);
    } else {
      var requests := Requests(demands, EventsOf(script)[..i]);
      SumGrows(requests, j, |requests|);
    }
  }

  /** From a point of the run before the consumer overtakes itself, a run leads to a failed check. */
  lemma {:induction false} FailsFrom<T>(script: Script<T>, demands: Demands<T>, i: nat, j: nat, oi: nat, oj: nat)
    requires |script.values| < KMAX
    requires Rests(script, demands, i, j) && OvertakesAt(script, demands, oi, oj) && (i < oi || (i == oi && j <= oj))
    ensures exists t :: Reaches(script, demands, t) && t.stream.failed
    decreases |script.values| + 1 - i, |Requests(demands, EventsOf(script)[..i])| - j
  {
    var events, n := EventsOf(script), |script.values|;
    var requests := Requests(demands, events[..i]);
    if i == oi {
      SumGrows(requests, j, oj);
    }
    if j < |requests| {
      if AskedTo(script, demands, i, j + 1) <= n {
        ServesRequest(script, demands, i, j);
        FailsFrom(script, demands, i, j + 1, oi, oj);
      } else {
        CrossingFails(script, demands, i, j, oi, oj);
        Fails(script, demands, i, j);
      }
    } else {
      assert AskedIn(demands, events, i + 1) == AskedTo(script, demands, i, j) <= n;
      assert i < oi;
      assert AskedIn(demands, events, i + 1) >= i + 1;
      CallsBack(script, demands, i);
      FailsFrom(script, demands, i + 1, 0, oi, oj);
    }
  }

  /** Where the end marker is asked for, something is left to do for the consumer. */
  lemma CrossingFails<T>(script: Script<T>, demands: Demands<T>, i: nat, j: nat, oi: nat, oj: nat)
    requires i <= |script.values| && j < |Requests(demands, EventsOf(script)[..i])|
    requires AskedTo(script, demands, i, j) <= |script.values|
    requires OvertakesAt(script, demands, oi, oj) && (i < oi || (i == oi && j <= oj))
    ensures || j + 1 < |Requests(demands, EventsOf(script)[..i])| || i < |script.values|
            || Requests(demands, EventsOf(script)) != []
  {
    var events, n := EventsOf(script), |script.values|;
    if i == n && i < oi {
      assert events[..oi] == events;
    }
  }

  lemma {:induction false} AsyncRunsKeep<T>(s: State<T>, script: Script<T>, demands: Demands<T>,
        steps: seq<Step>, end: State<T>)
    requires |script.values| < KMAX
    requires AsyncInvariant(s, script, demands) && AsyncRuns(s, demands, steps, end)
    ensures AsyncInvariant(end, script, demands)
    decreases |steps|
  {
    if steps != [] {
      AsyncStepKeeps(s, script, demands, steps[0]);
      AsyncRunsKeep(After(s, demands, steps[0]), script, demands, steps[1..], end);
    }
  }

  /** Between two serial workers a staleness check can fail exactly if the consumer overtakes itself. */
  lemma SerialChecksFailExactly<T>(script: Script<T>, demands: Demands<T>)
    requires |script.values| < KMAX
    ensures (exists s :: Reaches(script, demands, s) && s.stream.failed) <==> Overtakes(script, demands)
  {
    if Overtakes(script, demands) {
      var i: nat, j: nat :| OvertakesAt(script, demands, i, j);
      FirstCall(script, demands);
      FailsFrom(script, demands, 0, 0, i, j);
    }
    forall s | Reaches(script, demands, s) && s.stream.failed
      ensures Overtakes(script, demands)
    {
      var steps :| AsyncRuns(Unstarted(script), demands, steps, s);
      AsyncRunsKeep(Unstarted(script), script, demands, steps, s);
    }
  }

  /** One element; the consumer requests one event in OnSubscribe, and two of them, one after the
      other, in the callback for the element. */
  function Twice(): Demands<int> {
    (seen: seq<Event<int>>) => if seen == [] then [1] else if |seen| == 1 then [1, 1] else []
  }

  lemma TwiceOvertakes()
    ensures Overtakes(Script([7], Done), Twice())
  {
    var script, demands := Script([7], Done), Twice();
    var events := EventsOf(script);
    assert Requests(demands, events[..0]) == [1] && Requests(demands, events[..1]) == [1, 1];
    assert Sum([1]) == SumTo([1], 0) + 1 && SumTo([1, 1], 1) == SumTo([1, 1], 0) + 1;
    assert AskedIn(demands, events, 1) == AskedIn(demands, events, 0) + 1;
    assert OvertakesAt(script, demands, 1, 1);
  }
}
