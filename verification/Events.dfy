/** Stream events, finite synchronous sources, subscribers, and what it means for a
    stream to deliver a sequence of events under strict flow control. */
module Events {
  import opened RequestBalances

  datatype Option<+T> = None | Some(value: T)

  /** A terminal status: OUT_OF_RANGE (Done) or any other code but OK (Error). */
  datatype Status = Done | Error(code: nat)

  /** The source's StatusOr<T>. */
  datatype Event<+T> = Next(value: T) | End(status: Status)

  /** A publisher that produces the values, then ends with the status, without waiting. */
  datatype Script<+T> = Script(values: seq<T>, end: Status)

  function Nexts<T>(values: seq<T>): (events: seq<Event<T>>)
    ensures |events| == |values|
    ensures forall k :: 0 <= k < |values| ==> events[k] == Next(values[k])
  {
    seq(|values|, k requires 0 <= k < |values| => Next(values[k]))
  }

  function EventsOf<T>(script: Script<T>): (events: seq<Event<T>>)
    ensures |events| == |script.values| + 1
    ensures forall k :: 0 <= k < |script.values| ==> events[k] == Next(script.values[k])
    ensures events[|script.values|] == End(script.end)
  {
    Nexts(script.values) + [End(script.end)]
  }

  // ----- subscribers -----

  /** What a subscriber requests inside the callback for the last event of its history. */
  type Reaction<!T> = seq<Event<T>> -> seq<Size>

  /** Whether a subscriber cancels at the end of that callback. */
  datatype Quitting<!T> = Never | When(quits: seq<Event<T>> -> bool)

  function Reply<T>(react: Reaction<T>, history: seq<Event<T>>): seq<Size> {
    react(history)
  }

  predicate Leaves<T>(quits: Quitting<T>, history: seq<Event<T>>) {
    quits.When? && quits.quits(history)
  }

  // ----- strict flow control -----

  /** The total requested inside the callbacks for the first `n` events. */
  function Asked<T>(events: seq<Event<T>>, react: Reaction<T>, n: nat): nat
    requires n <= |events|
  {
    if n == 0 then 0 else Asked(events, react, n - 1) + Sum(Reply(react, events[..n]))
  }

  /** The total demand once `n` events were delivered and `outer` was requested outside callbacks. */
  function Demand<T>(events: seq<Event<T>>, react: Reaction<T>, outer: nat, n: nat): nat
    requires n <= |events|
  {
    outer + Asked(events, react, n)
  }

  /** The subscriber cancelled in the callback for the `n`-th event. */
  predicate Quit<T>(events: seq<Event<T>>, quits: Quitting<T>, n: nat)
    requires n <= |events|
  {
    n > 0 && Leaves(quits, events[..n])
  }

  /** Demand that covers one more delivery after `used` of them. */
  predicate Covers(demand: nat, used: nat) {
    demand > used || demand >= KMAX
  }

  /** Each of the first `n` events was requested before it was delivered (an infinite demand covers
      everything), and none follows a cancellation. */
  predicate Earned<T>(events: seq<Event<T>>, react: Reaction<T>, quits: Quitting<T>, outer: nat, n: nat)
    requires n <= |events|
  {
    n > 0 ==>
      && Covers(Demand(events, react, outer, n - 1), n - 1)
      && !Quit(events, quits, n - 1)
      && Earned(events, react, quits, outer, n - 1)
  }

  /** Nothing is left to do: all was delivered, or the subscriber cancelled, or all demand is met. */
  predicate Exhausted<T>(events: seq<Event<T>>, react: Reaction<T>, quits: Quitting<T>, outer: nat, n: nat)
    requires n <= |events|
  {
    n == |events| || Quit(events, quits, n) || n == Demand(events, react, outer, n)
  }

  /** The contract of every operator at rest: it delivered exactly what `events` says, as far
      as the subscriber asked for it, and not before. */
  ghost predicate Settled<T>(events: seq<Event<T>>, react: Reaction<T>, quits: Quitting<T>,
                       outer: nat, delivered: seq<Event<T>>)
  {
    && delivered <= events
    && Earned(events, react, quits, outer, |delivered|)
    && Exhausted(events, react, quits, outer, |delivered|)
  }

  /** The state of the books while the stream goes on: `granted` was requested in all, and what
      was delivered of it was earned. */
  ghost predicate Booked<T>(events: seq<Event<T>>, react: Reaction<T>, quits: Quitting<T>,
                      outer: nat, granted: nat, delivered: seq<Event<T>>)
  {
    && delivered <= events
    && Earned(events, react, quits, outer, |delivered|)
    && granted == Demand(events, react, outer, |delivered|)
    && !Quit(events, quits, |delivered|)
  }

  /** The same once the stream is over: all was delivered, or the subscriber cancelled. */
  ghost predicate Closed<T>(events: seq<Event<T>>, react: Reaction<T>, quits: Quitting<T>,
                      outer: nat, delivered: seq<Event<T>>)
  {
    && delivered <= events
    && Earned(events, react, quits, outer, |delivered|)
    && (delivered == events || Quit(events, quits, |delivered|))
  }

  /** What is requested in the first callbacks depends on the first events only. */
  lemma {:induction false} AskedOfPrefix<T>(shorter: seq<Event<T>>, longer: seq<Event<T>>, react: Reaction<T>, n: nat)
    requires shorter <= longer && n <= |shorter|
    ensures Asked(shorter, react, n) == Asked(longer, react, n)
  {
    if n > 0 {
      assert shorter[..n] == longer[..n];
      AskedOfPrefix(shorter, longer, react, n - 1);
    }
  }

  /** A covered delivery, and what the callback for it adds to the demand. */
  lemma Book<T>(events: seq<Event<T>>, react: Reaction<T>, quits: Quitting<T>,
                outer: nat, granted: nat, delivered: seq<Event<T>>, event: Event<T>)
    requires Booked(events, react, quits, outer, granted, delivered)
    requires delivered + [event] <= events && Covers(granted, |delivered|)
    ensures var longer := delivered + [event];
            var total := granted + Sum(Reply(react, longer));
            && (Leaves(quits, longer) || longer == events ==> Closed(events, react, quits, outer, longer))
            && (!Leaves(quits, longer) ==> Booked(events, react, quits, outer, total, longer))
  {
    var longer := delivered + [event];
    assert longer == events[..|delivered| + 1];
  }

  /** More requests from outside. */
  lemma BookRequest<T>(events: seq<Event<T>>, react: Reaction<T>, quits: Quitting<T>,
                       outer: nat, granted: nat, delivered: seq<Event<T>>, count: nat)
    requires Booked(events, react, quits, outer, granted, delivered)
    ensures Booked(events, react, quits, outer + count, granted + count, delivered)
  {
    EarnedGrows(events, react, quits, outer, count, |delivered|);
  }

  /** At rest the books are settled: either all demand is met, or the stream is over. */
  lemma BooksSettle<T>(events: seq<Event<T>>, react: Reaction<T>, quits: Quitting<T>,
                       outer: nat, granted: nat, delivered: seq<Event<T>>)
    requires || Closed(events, react, quits, outer, delivered)
             || (Booked(events, react, quits, outer, granted, delivered) && granted == |delivered|)
    ensures Settled(events, react, quits, outer, delivered)
  {
  }

  // ----- what the contract means -----

  function Total(counts: seq<nat>): nat {
    if counts == [] then 0 else Total(counts[..|counts| - 1]) + counts[|counts| - 1]
  }

  lemma TotalMore(counts: seq<nat>, count: nat)
    ensures Total(counts + [count]) == Total(counts) + count
  {
    assert (counts + [count])[..|counts|] == counts;
  }

  /** What the subscriber requests in each of the callbacks for the first `n` events. */
  function Replies<T>(events: seq<Event<T>>, react: seq<Event<T>> -> seq<Size>, n: nat): (replies: seq<nat>)
    requires n <= |events|
    ensures |replies| == n
    ensures forall k :: 0 <= k < n ==> replies[k] == Sum(react(events[..k + 1]))
  {
    if n == 0 then [] else Replies(events, react, n - 1) + [Sum(react(events[..n]))]
  }

  /** Every request that the subscriber makes in a callback is counted, and counted once. */
  lemma {:induction false} AskedIsTotal<T>(events: seq<Event<T>>, react: seq<Event<T>> -> seq<Size>, n: nat)
    requires n <= |events|
    ensures Asked(events, react, n) == Total(Replies(events, react, n))
  {
    if n > 0 {
      AskedIsTotal(events, react, n - 1);
      TotalMore(Replies(events, react, n - 1), Sum(react(events[..n])));
    }
  }

  /** The demand that was there when `n` events had been delivered, requests from outside included. */
  function TotalDemand<T>(events: seq<Event<T>>, react: seq<Event<T>> -> seq<Size>, outer: nat, n: nat): nat
    requires n <= |events|
  {
    outer + Total(Replies(events, react, n))
  }

  /** When `k` events have been delivered, the next one is covered by the demand, and the subscriber did
      not cancel in its last callback. */
  predicate MayDeliver<T>(events: seq<Event<T>>, react: seq<Event<T>> -> seq<Size>, quits: Quitting<T>, outer: nat, k: nat)
    requires k <= |events|
  {
    var demand := TotalDemand(events, react, outer, k);
    (demand > k || demand >= KMAX) && !Cancels(quits, events[..k])
  }

  predicate Cancels<T>(quits: Quitting<T>, history: seq<Event<T>>) {
    history != [] && quits.When? && quits.quits(history)
  }

  /** In terms of what the subscriber does alone: no event comes before it was requested or after a
      callback in which the subscriber cancelled, and the stream stops at the end of its events, at a
      cancellation or with all demand met. */
  lemma SettledMeans<T>(events: seq<Event<T>>, react: seq<Event<T>> -> seq<Size>, quits: Quitting<T>, outer: nat,
                        delivered: seq<Event<T>>)
    ensures Settled(events, react, quits, outer, delivered)
            <==>
            && delivered <= events
            && (forall k :: 0 <= k < |delivered| ==> MayDeliver(events, react, quits, outer, k))
            && (|| delivered == events || Cancels(quits, delivered)
                || |delivered| == TotalDemand(events, react, outer, |delivered|))
  {
    if delivered <= events {
      EarnedMeans(events, react, quits, outer, |delivered|);
      AskedIsTotal(events, react, |delivered|);
      assert delivered == events[..|delivered|];
    }
  }

  lemma MayDeliverMeans<T>(events: seq<Event<T>>, react: seq<Event<T>> -> seq<Size>, quits: Quitting<T>, outer: nat, k: nat)
    requires k <= |events|
    ensures MayDeliver(events, react, quits, outer, k)
            <==> Covers(Demand(events, react, outer, k), k) && !Quit(events, quits, k)
  {
    AskedIsTotal(events, react, k);
  }

  /** The subscriber might have received all events up to this one. */
  ghost predicate AllMayBe<T>(events: seq<Event<T>>, react: seq<Event<T>> -> seq<Size>, quits: Quitting<T>, outer: nat, n: nat)
    requires n <= |events|
  {
    forall k :: 0 <= k < n ==> MayDeliver(events, react, quits, outer, k)
  }

  lemma {:induction false} EarnedMeans<T>(events: seq<Event<T>>, react: seq<Event<T>> -> seq<Size>, quits: Quitting<T>,
                                          outer: nat, n: nat)
    requires n <= |events|
    ensures Earned(events, react, quits, outer, n) <==> AllMayBe(events, react, quits, outer, n)
  {
    if n > 0 {
      EarnedMeans(events, react, quits, outer, n - 1);
      MayDeliverMeans(events, react, quits, outer, n - 1);
    }
  }

  /** Nothing follows a callback in which the subscriber cancelled. */
  lemma NothingFollowsCancel<T>(events: seq<Event<T>>, react: seq<Event<T>> -> seq<Size>, quits: Quitting<T>, outer: nat,
                                delivered: seq<Event<T>>, k: nat)
    requires Settled(events, react, quits, outer, delivered) && quits.When? && 0 < k < |delivered|
    ensures !quits.quits(delivered[..k])
  {
    SettledMeans(events, react, quits, outer, delivered);
    assert MayDeliver(events, react, quits, outer, k);
    assert delivered[..k] == events[..k];
  }

  /** A subscriber that requests an event from outside and another one in the callback for each element
      receives everything. */
  lemma KeepsUp<T>(events: seq<Event<T>>, react: seq<Event<T>> -> seq<Size>, outer: nat, delivered: seq<Event<T>>)
    requires outer > 0
    requires forall k :: 0 < k < |events| ==> Sum(react(events[..k])) > 0
    requires Settled(events, react, Never, outer, delivered)
    ensures delivered == events
  {
    SettledMeans(events, react, Never, outer, delivered);
    if |delivered| < |events| {
      DemandGrows(events, react, outer, |delivered|);
    }
  }

  lemma {:induction false} DemandGrows<T>(events: seq<Event<T>>, react: seq<Event<T>> -> seq<Size>, outer: nat, n: nat)
    requires n < |events| && outer > 0
    requires forall k :: 0 < k < |events| ==> Sum(react(events[..k])) > 0
    ensures TotalDemand(events, react, outer, n) > n
  {
    if n > 0 {
      DemandGrows(events, react, outer, n - 1);
      TotalMore(Replies(events, react, n - 1), Sum(react(events[..n])));
    }
  }

  /** The subscriber that MakeWithFlowControl makes, which requests its first event in OnSubscribe. */
  function WithFlowControl<T>(): seq<Event<T>> -> seq<Size> {
    (history: seq<Event<T>>) => if history != [] && history[|history| - 1].End? then [] else [1]
  }

  /** It receives all the events of a publisher. */
  lemma FlowControlKeepsUp<T>(script: Script<T>, delivered: seq<Event<T>>)
    requires Settled(EventsOf(script), WithFlowControl<T>(), Never, 1, delivered)
    ensures delivered == EventsOf(script)
  {
    assert Sum([1]) == SumTo([1], 0) + 1;
    forall k | 0 < k < |EventsOf(script)|
      ensures Sum(WithFlowControl<T>()(EventsOf(script)[..k])) > 0
    {
      assert EventsOf(script)[..k][k - 1] == Next(script.values[k - 1]);
    }
    KeepsUp(EventsOf(script), WithFlowControl<T>(), 1, delivered);
  }

  /** A settled run without cancellation, by numbers. */
  lemma SettledNumbers<T>(events: seq<Event<T>>, react: Reaction<T>, outer: nat, delivered: seq<Event<T>>)
    requires Settled(events, react, Never, outer, delivered)
    ensures var n := |delivered|;
            && n <= |events| && delivered == events[..n]
            && (n == |events| || n == Demand(events, react, outer, n))
            && (n > 0 ==> Covers(Demand(events, react, outer, n - 1), n - 1))
  {
  }

  lemma ClosedGrows<T>(events: seq<Event<T>>, react: Reaction<T>, quits: Quitting<T>,
                       outer: nat, count: nat, delivered: seq<Event<T>>)
    requires Closed(events, react, quits, outer, delivered)
    ensures Closed(events, react, quits, outer + count, delivered)
  {
    EarnedGrows(events, react, quits, outer, count, |delivered|);
  }

  /** More requests never invalidate what was already delivered. */
  lemma {:induction false} EarnedGrows<T>(events: seq<Event<T>>, react: Reaction<T>, quits: Quitting<T>,
                                          outer: nat, more: nat, n: nat)
    requires n <= |events| && Earned(events, react, quits, outer, n)
    ensures Earned(events, react, quits, outer + more, n)
  {
    if n > 0 {
      EarnedGrows(events, react, quits, outer, more, n - 1);
    }
  }

  /** What holds of every earlier moment. */
  lemma {:induction false} EarnedAt<T>(events: seq<Event<T>>, react: Reaction<T>, quits: Quitting<T>,
                                       outer: nat, n: nat, k: nat)
    requires k < n <= |events| && Earned(events, react, quits, outer, n)
    ensures Covers(Demand(events, react, outer, k), k) && !Quit(events, quits, k)
  {
    if k < n - 1 {
      EarnedAt(events, react, quits, outer, n - 1, k);
    }
  }

  /** Strict flow control leaves an operator no choice: for sequences a `size_t` can count,
      two settled runs against the same subscriber delivered the same events. */
  lemma SettledIsDeterministic<T>(events: seq<Event<T>>, react: Reaction<T>, quits: Quitting<T>,
                                  outer: nat, one: seq<Event<T>>, other: seq<Event<T>>)
    requires |events| <= KMAX
    requires Settled(events, react, quits, outer, one)
    requires Settled(events, react, quits, outer, other)
    ensures one == other
  {
    StopsNoEarlier(events, react, quits, outer, |one|, |other|);
    StopsNoEarlier(events, react, quits, outer, |other|, |one|);
  }

  lemma StopsNoEarlier<T>(events: seq<Event<T>>, react: Reaction<T>, quits: Quitting<T>,
                          outer: nat, n: nat, m: nat)
    requires n <= |events| <= KMAX && m <= |events|
    requires Exhausted(events, react, quits, outer, n)
    requires Earned(events, react, quits, outer, m)
    ensures m <= n
  {
    if n < m {
      EarnedAt(events, react, quits, outer, m, n);
    }
  }

  /** Later requests only extend what was delivered. */
  lemma SettledGrows<T>(events: seq<Event<T>>, react: Reaction<T>, quits: Quitting<T>,
                        outer: nat, more: nat, before: seq<Event<T>>, after: seq<Event<T>>)
    requires |events| <= KMAX
    requires Settled(events, react, quits, outer, before)
    requires Settled(events, react, quits, outer + more, after)
    ensures before <= after
  {
    EarnedGrows(events, react, quits, outer, more, |before|);
    StopsNoEarlier(events, react, quits, outer + more, |after|, |before|);
  }

  /** Against a subscriber that requests nothing in its callbacks, a settled run delivered
      min(total requested, number of events) events. */
  lemma SettledCount<T>(events: seq<Event<T>>, outer: nat, delivered: seq<Event<T>>)
    requires |events| <= KMAX || outer < KMAX
    requires Settled(events, (h: seq<Event<T>>) => [], Never, outer, delivered)
    ensures delivered == events[..if outer <= |events| then outer else |events|]
  {
    var silent := (h: seq<Event<T>>) => [];
    AskedNothing(events, |delivered|);
    if delivered != [] {
      EarnedAt(events, silent, Never, outer, |delivered|, |delivered| - 1);
      AskedNothing(events, |delivered| - 1);
    }
  }

  lemma {:induction false} AskedNothing<T>(events: seq<Event<T>>, n: nat)
    requires n <= |events|
    ensures Asked(events, (h: seq<Event<T>>) => [], n) == 0
  {
    if n > 0 {
      AskedNothing(events, n - 1);
    }
  }
}
