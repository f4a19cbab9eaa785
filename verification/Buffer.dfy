/** Buffer as a chaining stream: the elements leave in chunks of a fixed size. */
module Buffers {
  import opened RequestBalances
  import opened Events
  import opened Generators
  import opened Chains

  /** The vector moved out of the buffer when the base ends is not cleared: no event follows. */
  function Collect<T>(size: Size, pending: seq<T>, event: Event<T>): (seq<T>, seq<Event<seq<T>>>) {
    if event.Next? then
      var grown := pending + [event.value];
      if |grown| == size then ([], [Next(grown)]) else (grown, [])
    else
      (pending, (if event.status.Done? && |pending| > 0 then [Next(pending)] else []) + [End(event.status)])
  }

  /** The product wraps around, as that of two `size_t` does. */
  function Buffer<T>(size: Size): Chain<T, seq<T>, seq<T>> {
    Chain((tokens: Size) => (size * tokens) % (KMAX + 1),
          (pending: seq<T>, event: Event<T>) => Collect(size, pending, event),
          [])
  }

  predicate IsChunk<T>(event: Event<seq<T>>, size: Size) {
    event.Next? && 0 < |event.value| <= size
  }

  predicate IsFull<T>(event: Event<seq<T>>, size: Size) {
    event.Next? && |event.value| == size
  }

  /** The elements of the chunks, in order. */
  function Flat<T>(chunks: seq<Event<seq<T>>>): seq<T> {
    if chunks == [] then [] else
      var last := chunks[|chunks| - 1];
      Flat(chunks[..|chunks| - 1]) + if last.Next? then last.value else []
  }

  // ----- what is delivered -----

  /** `shown` are full chunks, and together with what is pending they hold the values. */
  ghost predicate Holds<T>(size: Size, shown: seq<Event<seq<T>>>, pending: seq<T>, values: seq<T>) {
    && (forall k :: 0 <= k < |shown| ==> IsFull(shown[k], size))
    && Flat(shown) + pending == values && |pending| < size
    && |values| == size * |shown| + |pending|
  }

  lemma CollectsOne<T>(size: Size, shown: seq<Event<seq<T>>>, pending: seq<T>, values: seq<T>, value: T)
    requires Holds(size, shown, pending, values)
    ensures var (left, emitted) := Collect(size, pending, Next(value));
            Holds(size, shown + emitted, left, values + [value])
  {
    if |pending| + 1 == size {
      var chunk := Next(pending + [value]);
      assert (shown + [chunk])[..|shown|] == shown;
      Distribute(size, |shown|, 1);
    } else {
      assert shown + [] == shown;
    }
  }

  /** While the base goes on, nothing is lost: the full chunks and what is pending are the values. */
  lemma {:induction false} Collects<T>(size: Size, values: seq<T>)
    requires size > 0
    ensures Holds(size, Buffer<T>(size).Shown(Nexts(values)), Buffer<T>(size).StateAfter(Nexts(values)), values)
  {
    if values != [] {
      var before, value := values[..|values| - 1], values[|values| - 1];
      var chain := Buffer<T>(size);
      Collects(size, before);
      CollectsOne(size, chain.Shown(Nexts(before)), chain.StateAfter(Nexts(before)), before, value);
      Receives(size, Nexts(before), Next(value));
      assert Nexts(values) == Nexts(before) + [Next(value)];
    }
  }

  /** One more base event received. */
  lemma Receives<T>(size: Size, received: seq<Event<T>>, event: Event<T>)
    ensures var chain := Buffer<T>(size);
            && chain.Shown(received + [event]) == chain.Shown(received) + Collect(size, chain.StateAfter(received), event).1
            && chain.StateAfter(received + [event]) == Collect(size, chain.StateAfter(received), event).0
  {
    var now := received + [event];
    assert now[..|now| - 1] == received;
  }

  /** The chunks of all the values, then the end marker: full chunks but possibly the last if the
      base ended with Done, and exactly the full chunks if it failed. */
  ghost predicate ChunksOf<T>(script: Script<T>, size: Size, delivered: seq<Event<seq<T>>>) {
    && delivered != [] && delivered[|delivered| - 1] == End(script.end)
    && var chunks := delivered[..|delivered| - 1];
    && (forall k :: 0 <= k < |chunks| ==> IsChunk(chunks[k], size))
    && (forall k :: 0 <= k < |chunks| - 1 ==> IsFull(chunks[k], size))
    && (script.end.Done? ==> Flat(chunks) == script.values)
    && (script.end.Error? ==>
          && (forall k :: 0 <= k < |chunks| ==> IsFull(chunks[k], size))
          && Flat(chunks) <= script.values && |script.values| - |Flat(chunks)| < size)
  }

  lemma Flushes<T>(script: Script<T>, size: Size, shown: seq<Event<seq<T>>>, pending: seq<T>)
    requires Holds(size, shown, pending, script.values)
    ensures ChunksOf(script, size, shown + Collect(size, pending, End(script.end)).1)
  {
    var delivered := shown + Collect(size, pending, End(script.end)).1;
    var chunks := delivered[..|delivered| - 1];
    if script.end.Done? && |pending| > 0 {
      assert chunks == shown + [Next(pending)] && chunks[..|chunks| - 1] == shown;
    } else {
      assert chunks == shown;
    }
  }

  /** Once the base has ended, nothing is lost but, after an error, an incomplete chunk. */
  lemma BufferChunks<T>(script: Script<T>, size: Size)
    requires size > 0
    ensures ChunksOf(script, size, Buffer<T>(size).Shown(EventsOf(script)))
  {
    var chain := Buffer<T>(size);
    Collects(size, script.values);
    Receives(size, Nexts(script.values), End(script.end));
    Flushes(script, size, chain.Shown(Nexts(script.values)), chain.StateAfter(Nexts(script.values)));
  }
  // ----- demand -----

  /** A request fits if it can be multiplied by the chunk size without overflow. */
  predicate FitsTo(size: Size, requests: seq<Size>, n: nat)
    requires n <= |requests|
  {
    forall i :: 0 <= i < n ==> size * requests[i] <= KMAX
  }

  predicate Fits(size: Size, requests: seq<Size>) {
    FitsTo(size, requests, |requests|)
  }

  /** So do all the requests made in the callbacks for the events from `from` on. */
  ghost predicate RepliesFitFrom<R>(size: Size, react: Reaction<R>, delivered: seq<Event<R>>, from: nat) {
    forall k :: from < k <= |delivered| ==> Fits(size, Reply(react, delivered[..k]))
  }

  ghost predicate RepliesFit<R>(size: Size, react: Reaction<R>, delivered: seq<Event<R>>) {
    RepliesFitFrom(size, react, delivered, 0)
  }

  lemma {:induction false} GrantSums<T>(size: Size, requests: seq<Size>, n: nat)
    requires n <= |requests|
    ensures SumTo(Buffer<T>(size).MapAll(requests), n) <= size * SumTo(requests, n)
    ensures FitsTo(size, requests, n) <==> SumTo(Buffer<T>(size).MapAll(requests), n) == size * SumTo(requests, n)
  {
    if n > 0 {
      GrantSums<T>(size, requests, n - 1);
      GrantIsProduct<T>(size, requests[n - 1]);
      assert size * (SumTo(requests, n - 1) + requests[n - 1]) == size * SumTo(requests, n - 1) + size * requests[n - 1];
    }
  }

  /** Wrapping around can only make a request smaller. */
  lemma GrantIsProduct<T>(size: Size, tokens: Size)
    ensures Buffer<T>(size).Map(tokens) <= size * tokens
    ensures size * tokens <= KMAX <==> Buffer<T>(size).Map(tokens) == size * tokens
  {
    var product := size * tokens;
    assert Buffer<T>(size).Map(tokens) == product % (KMAX + 1);
  }

  /** The base is asked for the product but for a multiple of 2^64, like any unsigned product in C++. */
  lemma WrapsAround<T>(size: Size, tokens: Size) returns (wraps: nat)
    ensures Buffer<T>(size).Map(tokens) == size * tokens - wraps * (KMAX + 1) <= KMAX
  {
    wraps := size * tokens / (KMAX + 1);
    assert size * tokens == (KMAX + 1) * wraps + size * tokens % (KMAX + 1);
  }

  /** What is requested from the base while `emitted` is sent, against what downstream requests. */
  lemma {:induction false} GrantsScale<T>(size: Size, react: Reaction<seq<T>>, before: seq<Event<seq<T>>>,
        emitted: seq<Event<seq<T>>>)
    ensures var after := before + emitted;
            var sum := Sum(Buffer<T>(size).Grants(react, before, emitted)) + size * Asked(after, react, |before|);
            && sum <= size * Asked(after, react, |after|)
            && (RepliesFitFrom(size, react, after, |before|) <==> sum == size * Asked(after, react, |after|))
    decreases |emitted|
  {
    var after := before + emitted;
    if emitted == [] {
      assert after == before;
    } else {
      var chain, shown := Buffer<T>(size), before + [emitted[0]];
      assert shown + emitted[1..] == after && after[..|shown|] == shown;
      chain.GrantsCons(react, before, emitted);
      GrantsScale(size, react, shown, emitted[1..]);
      var requests := Reply(react, shown);
      GrantSums<T>(size, requests, |requests|);
      Distribute(size, Sum(requests), Asked(after, react, |before|));
    }
  }

  lemma Distribute(size: nat, a: int, b: int)
    ensures size * (a + b) == size * a + size * b
  {
  }

  /** The demand on the base is at most `size` times the demand downstream; exactly that if no
      product overflows. */
  lemma {:induction false} AskedScales<T>(events: seq<Event<T>>, size: Size, react: Reaction<seq<T>>, n: nat)
    requires n <= |events|
    ensures var chain := Buffer<T>(size);
            var shown := chain.Shown(events[..n]);
            && Asked(events, chain.AsSubscriber(react), n) <= size * Asked(shown, react, |shown|)
            && (RepliesFit(size, react, shown) <==>
                  Asked(events, chain.AsSubscriber(react), n) == size * Asked(shown, react, |shown|))
  {
    if n > 0 {
      var chain := Buffer<T>(size);
      AskedScales(events, size, react, n - 1);
      chain.AskedStep(react, events, n - 1);
      var shown, emitted := chain.Shown(events[..n - 1]), chain.Emit(chain.StateAfter(events[..n - 1]), events[n - 1]);
      ScalesStep(size, react, shown, emitted, Asked(events, chain.AsSubscriber(react), n - 1));
    }
  }

  lemma ScalesStep<T>(size: Size, react: Reaction<seq<T>>, shown: seq<Event<seq<T>>>, emitted: seq<Event<seq<T>>>, asked: nat)
    requires asked <= size * Asked(shown, react, |shown|)
    requires RepliesFit(size, react, shown) <==> asked == size * Asked(shown, react, |shown|)
    ensures var after := shown + emitted;
            var total := asked + Sum(Buffer<T>(size).Grants(react, shown, emitted));
            && total <= size * Asked(after, react, |after|)
            && (RepliesFit(size, react, after) <==> total == size * Asked(after, react, |after|))
  {
    AskedOfPrefix(shown, shown + emitted, react, |shown|);
    GrantsScale(size, react, shown, emitted);
    FitsOfPrefix(size, react, shown, shown + emitted);
  }

  lemma FitsOfPrefix<R>(size: Size, react: Reaction<R>, shorter: seq<Event<R>>, longer: seq<Event<R>>)
    requires shorter <= longer
    ensures RepliesFit(size, react, longer) <==>
              RepliesFit(size, react, shorter) && RepliesFitFrom(size, react, longer, |shorter|)
  {
    forall k | 0 < k <= |shorter|
      ensures shorter[..k] == longer[..k]
    {
    }
    if RepliesFit(size, react, longer) {
      forall k | 0 < k <= |shorter|
        ensures Fits(size, Reply(react, shorter[..k]))
      {
        assert Fits(size, Reply(react, longer[..k]));
      }
    }
    if RepliesFit(size, react, shorter) && RepliesFitFrom(size, react, longer, |shorter|) {
      forall k | 0 < k <= |longer|
        ensures Fits(size, Reply(react, longer[..k]))
      {
        if k <= |shorter| {
          assert Fits(size, Reply(react, shorter[..k]));
        }
      }
    }
  }

  /** Every chunk was requested before it was delivered, even that of the final flush. The end
      marker is not charged. */
  ghost predicate ChunksEarned<R>(react: Reaction<R>, outer: nat, delivered: seq<Event<R>>) {
    forall k :: 0 <= k < |delivered| && delivered[k].Next? ==> Demand(delivered, react, outer, k) > k
  }

  /** What sending a chunk takes: all that was shown before is covered by the values it holds. */
  lemma SendingIsEarned<T>(script: Script<T>, size: Size, react: Reaction<seq<T>>, requests: seq<Size>, n: nat)
    requires 0 < size && n <= |script.values| < KMAX
    requires var chain := Buffer<T>(size);
             Covers(Demand(EventsOf(script), chain.AsSubscriber(react), Sum(chain.MapAll(requests)), n), n)
    ensures var shown := Buffer<T>(size).Shown(EventsOf(script)[..n]);
            Demand(shown, react, Sum(requests), |shown|) > |shown|
  {
    var chain, events := Buffer<T>(size), EventsOf(script);
    assert events[..n] == Nexts(script.values[..n]);
    Collects(size, script.values[..n]);
    var shown := chain.Shown(events[..n]);
    AskedScales(events, size, react, n);
    GrantSums<T>(size, requests, |requests|);
    Outgrows(size, Sum(requests), Asked(shown, react, |shown|), |shown|);
  }

  lemma Outgrows(size: nat, outer: nat, asked: nat, count: nat)
    requires size * outer + size * asked > size * count
    ensures outer + asked > count
  {
    Distribute(size, outer, asked);
    if outer + asked <= count {
      Monotone(size, outer + asked, count);
    }
  }

  lemma Monotone(size: nat, a: int, b: int)
    requires a <= b
    ensures size * a <= size * b
  {
    Distribute(size, a, b - a);
  }

  lemma {:induction false} ChunksEarnedUpTo<T>(script: Script<T>, size: Size, react: Reaction<seq<T>>,
        requests: seq<Size>, n: nat)
    requires 0 < size && n <= |EventsOf(script)| && |script.values| < KMAX
    requires Earned(EventsOf(script), Buffer<T>(size).AsSubscriber(react), Never, Sum(Buffer<T>(size).MapAll(requests)), n)
    ensures ChunksEarned(react, Sum(requests), Buffer<T>(size).Shown(EventsOf(script)[..n]))
  {
    if n > 0 {
      var chain, events := Buffer<T>(size), EventsOf(script);
      ChunksEarnedUpTo(script, size, react, requests, n - 1);
      SendingIsEarned(script, size, react, requests, n - 1);
      chain.AskedStep(react, events, n - 1);
      var shown, emitted := chain.Shown(events[..n - 1]), chain.Emit(chain.StateAfter(events[..n - 1]), events[n - 1]);
      EarnedOneMore(react, Sum(requests), shown, emitted);
    }
  }

  /** At most the first of the events sent at a time is a chunk. */
  lemma EarnedOneMore<R>(react: Reaction<R>, outer: nat, shown: seq<Event<R>>, emitted: seq<Event<R>>)
    requires ChunksEarned(react, outer, shown) && Demand(shown, react, outer, |shown|) > |shown|
    requires forall i :: 0 < i < |emitted| ==> emitted[i].End?
    ensures ChunksEarned(react, outer, shown + emitted)
  {
    var after := shown + emitted;
    forall k | 0 <= k < |after| && after[k].Next?
      ensures Demand(after, react, outer, k) > k
    {
      assert k <= |shown|;
      AskedOfPrefix(shown, after, react, k);
    }
  }

  /** Without overflow the stream stops for no other reason than that all demand is met, and
      then nothing is pending. */
  lemma BufferMeetsDemand<T>(script: Script<T>, size: Size, react: Reaction<seq<T>>, requests: seq<Size>, n: nat)
    requires 0 < size && n <= |script.values|
    requires var chain := Buffer<T>(size);
             n == Demand(EventsOf(script), chain.AsSubscriber(react), Sum(chain.MapAll(requests)), n)
    requires Fits(size, requests) && RepliesFit(size, react, Buffer<T>(size).Shown(Nexts(script.values[..n])))
    ensures var delivered := Buffer<T>(size).Shown(Nexts(script.values[..n]));
            |delivered| == Demand(delivered, react, Sum(requests), |delivered|) && Flat(delivered) == script.values[..n]
  {
    var chain, events := Buffer<T>(size), EventsOf(script);
    assert events[..n] == Nexts(script.values[..n]);
    AskedScales(events, size, react, n);
    GrantSums<T>(size, requests, |requests|);
    Collects(size, script.values[..n]);
    NothingPending(size, react, Sum(requests), chain.Shown(events[..n]), chain.StateAfter(events[..n]), script.values[..n]);
  }

  lemma NothingPending<T>(size: Size, react: Reaction<seq<T>>, outer: nat, shown: seq<Event<seq<T>>>,
        pending: seq<T>, values: seq<T>)
    requires Holds(size, shown, pending, values)
    requires |values| == size * outer + size * Asked(shown, react, |shown|)
    ensures |shown| == Demand(shown, react, outer, |shown|) && Flat(shown) == values
  {
    SameMultiple(size, outer, Asked(shown, react, |shown|), |shown|, |pending|);
    assert Flat(shown) + pending == Flat(shown);
  }

  lemma SameMultiple(size: nat, outer: nat, asked: nat, count: nat, rest: nat)
    requires size * outer + size * asked == size * count + rest && rest < size
    ensures count == outer + asked && rest == 0
  {
    Distribute(size, outer, asked);
    NoRemainder(size, outer + asked, count, rest);
  }

  lemma NoRemainder(size: nat, a: nat, b: nat, rest: nat)
    requires size * a == size * b + rest && rest < size
    ensures a == b && rest == 0
  {
    Distribute(size, b, 1);
    Distribute(size, a, 1);
    if a > b {
      Monotone(size, b + 1, a);
    } else if a < b {
      Monotone(size, a + 1, b);
    }
  }

  /** Full chunks of the first values, and no end marker. */
  ghost predicate SomeChunksOf<T>(script: Script<T>, size: Size, delivered: seq<Event<seq<T>>>) {
    (forall k :: 0 <= k < |delivered| ==> IsFull(delivered[k], size)) && Flat(delivered) <= script.values
  }

  /** Only full chunks were delivered so far, and no fewer than were asked for unless some request
      overflowed. */
  ghost predicate GoesOn<T>(script: Script<T>, size: Size, react: Reaction<seq<T>>, requests: seq<Size>,
                            delivered: seq<Event<seq<T>>>)
  {
    && SomeChunksOf(script, size, delivered)
    && (Fits(size, requests) && RepliesFit(size, react, delivered) ==>
          |delivered| == Demand(delivered, react, Sum(requests), |delivered|))
  }

  lemma RunMeans<T>(script: Script<T>, size: Size, react: Reaction<seq<T>>, requests: seq<Size>, n: nat)
    requires 0 < size && |script.values| < KMAX && n <= |EventsOf(script)|
    requires var chain := Buffer<T>(size);
             Settled(EventsOf(script), chain.AsSubscriber(react), Never, Sum(chain.MapAll(requests)), EventsOf(script)[..n])
    ensures var delivered := Buffer<T>(size).Shown(EventsOf(script)[..n]);
            && ChunksEarned(react, Sum(requests), delivered)
            && (ChunksOf(script, size, delivered) || GoesOn(script, size, react, requests, delivered))
  {
    var events := EventsOf(script);
    ChunksEarnedUpTo(script, size, react, requests, n);
    if n == |events| {
      assert events[..n] == events;
      BufferChunks(script, size);
    } else {
      PartMeans(script, size, react, requests, n);
    }
  }

  lemma PartMeans<T>(script: Script<T>, size: Size, react: Reaction<seq<T>>, requests: seq<Size>, n: nat)
    requires 0 < size && n <= |script.values|
    requires var chain := Buffer<T>(size);
             n == Demand(EventsOf(script), chain.AsSubscriber(react), Sum(chain.MapAll(requests)), n)
    ensures GoesOn(script, size, react, requests, Buffer<T>(size).Shown(EventsOf(script)[..n]))
  {
    assert EventsOf(script)[..n] == Nexts(script.values[..n]);
    var delivered := Buffer<T>(size).Shown(Nexts(script.values[..n]));
    Collects(size, script.values[..n]);
    assert Flat(delivered) <= script.values[..n] <= script.values;
    if Fits(size, requests) && RepliesFit(size, react, delivered) {
      BufferMeetsDemand(script, size, react, requests, n);
    }
  }

  /** A buffered publisher subscribed by an arbitrary subscriber, then requested from outside an
      arbitrary number of times. With chunks of size zero the base is never asked for anything. */
  method Run<T>(script: Script<T>, size: Size, react: Reaction<seq<T>>, requests: seq<Size>)
    returns (delivered: seq<Event<seq<T>>>)
    requires |script.values| < KMAX
    ensures ChunksEarned(react, Sum(requests), delivered)
    ensures size == 0 ==> delivered == []
    ensures size > 0 ==> ChunksOf(script, size, delivered) || GoesOn(script, size, react, requests, delivered)
  {
    var received;
    delivered, received := Chains.Run(script, Buffer(size), react, requests);
    assert received == EventsOf(script)[..|received|];
    if size > 0 {
      RunMeans(script, size, react, requests, |received|);
    } else {
      NothingAsked(script, react, requests, received);
    }
  }

  lemma NothingAsked<T>(script: Script<T>, react: Reaction<seq<T>>, requests: seq<Size>, received: seq<Event<T>>)
    requires IsRun(script, 0, react, requests, received)
    ensures received == []
  {
    SettledNumbers(EventsOf(script), Buffer<T>(0).AsSubscriber(react), Sum(Buffer<T>(0).MapAll(requests)), received);
    if received != [] {
      ZeroAsks(EventsOf(script), react, requests, |received| - 1);
    }
  }

  lemma ZeroAsks<T>(events: seq<Event<T>>, react: Reaction<seq<T>>, requests: seq<Size>, n: nat)
    requires n <= |events|
    ensures Demand(events, Buffer<T>(0).AsSubscriber(react), Sum(Buffer<T>(0).MapAll(requests)), n) == 0
  {
    assert Sum(Buffer<T>(0).MapAll(requests)) == 0 by {
      GrantSums<T>(0, requests, |requests|);
    }
    assert Asked(events, Buffer<T>(0).AsSubscriber(react), n) == 0 by {
      AskedScales(events, 0, react, n);
      AtMostNothing(Asked(events, Buffer<T>(0).AsSubscriber(react), n),
                    Asked(Buffer<T>(0).Shown(events[..n]), react, |Buffer<T>(0).Shown(events[..n])|));
    }
  }

  lemma AtMostNothing(asked: nat, factor: nat)
    ensures asked <= 0 * factor ==> asked == 0
  {
  }

  // ----- overflow -----

  /** `received` is what arrived from the base in such a run. */
  ghost predicate IsRun<T>(script: Script<T>, size: Size, react: Reaction<seq<T>>, requests: seq<Size>, received: seq<Event<T>>) {
    var chain := Buffer<T>(size);
    Settled(EventsOf(script), chain.AsSubscriber(react), Never, Sum(chain.MapAll(requests)), received)
  }

  /** The stream has done its duty: it delivered all chunks and the end, or as many chunks as were
      requested. */
  ghost predicate Served<T>(script: Script<T>, size: Size, react: Reaction<seq<T>>, requests: seq<Size>, received: seq<Event<T>>) {
    var delivered := Buffer<T>(size).Shown(received);
    received == EventsOf(script) || |delivered| == Demand(delivered, react, Sum(requests), |delivered|)
  }

  /** What remains of the products after wrapping around covers all that the base has. */
  ghost predicate CoversBase<T>(script: Script<T>, size: Size, react: Reaction<seq<T>>, requests: seq<Size>) {
    var chain, events := Buffer<T>(size), EventsOf(script);
    Earned(events, chain.AsSubscriber(react), Never, Sum(chain.MapAll(requests)), |events|)
  }

  /** The demand for the first `k` chunks of the sequence covers each of them. */
  ghost predicate OwedUpTo<R>(react: Reaction<R>, outer: nat, chunks: seq<Event<R>>, k: nat)
    requires k <= |chunks|
  {
    forall j :: 0 <= j < k ==> Demand(chunks, react, outer, j) > j
  }

  /** No product overflows of those made in the callbacks for chunks that the demand gets to. */
  ghost predicate OwedFit<R>(size: Size, react: Reaction<R>, outer: nat, chunks: seq<Event<R>>) {
    forall k :: 0 < k <= |chunks| && OwedUpTo(react, outer, chunks, k) ==> Fits(size, Reply(react, chunks[..k]))
  }

  /** No product overflows, were the demand met throughout. */
  ghost predicate NoneOverflows<T>(script: Script<T>, size: Size, react: Reaction<seq<T>>, requests: seq<Size>) {
    Fits(size, requests) && OwedFit(size, react, Sum(requests), Buffer<T>(size).Shown(EventsOf(script)))
  }

  /** Exactly when any subscriber is served: no product overflows, or what is left of the products
      still covers the whole base. Both can be told before the first request. */
  lemma BufferServesExactly<T>(script: Script<T>, size: Size, react: Reaction<seq<T>>, requests: seq<Size>, received: seq<Event<T>>)
    requires 0 < size && |script.values| < KMAX && IsRun(script, size, react, requests, received)
    ensures Served(script, size, react, requests, received)
            <==> NoneOverflows(script, size, react, requests) || CoversBase(script, size, react, requests)
  {
    var chain, events, n := Buffer<T>(size), EventsOf(script), |received|;
    var asks, outer := chain.AsSubscriber(react), Sum(chain.MapAll(requests));
    SettledNumbers(events, asks, outer, received);
    if CoversBase(script, size, react, requests) {
      StopsNoEarlier(events, asks, Never, outer, n, |events|);
    }
    if n < |events| {
      ChunksEarnedUpTo(script, size, react, requests, n);
      ServedByNumbers(script, size, react, requests, n);
      ServedByPrefix(script, size, react, requests, n);
    }
  }

  /** Short of the end, as many chunks were delivered as requested exactly if no product overflowed
      so far. */
  lemma ServedByNumbers<T>(script: Script<T>, size: Size, react: Reaction<seq<T>>, requests: seq<Size>, n: nat)
    requires 0 < size && n <= |script.values|
    requires var chain := Buffer<T>(size);
             n == Demand(EventsOf(script), chain.AsSubscriber(react), Sum(chain.MapAll(requests)), n)
    ensures var delivered := Buffer<T>(size).Shown(EventsOf(script)[..n]);
            && (|delivered| == Demand(delivered, react, Sum(requests), |delivered|)
                <==> Fits(size, requests) && RepliesFit(size, react, delivered))
            && (forall k :: 0 <= k < |delivered| ==> delivered[k].Next?)
  {
    var chain, events := Buffer<T>(size), EventsOf(script);
    assert events[..n] == Nexts(script.values[..n]);
    Collects(size, script.values[..n]);
    var delivered, pending := chain.Shown(events[..n]), chain.StateAfter(events[..n]);
    AskedScales(events, size, react, n);
    GrantSums<T>(size, requests, |requests|);
    ScaledSums(size, Sum(requests), Asked(delivered, react, |delivered|), Sum(chain.MapAll(requests)),
               Asked(events, chain.AsSubscriber(react), n), |delivered|, |pending|);
  }

  /** Two sums of wrapped products against the chunks made of them. */
  lemma ScaledSums(size: nat, outer: nat, asked: nat, granted: nat, given: nat, count: nat, rest: nat)
    requires granted <= size * outer && given <= size * asked
    requires granted + given == size * count + rest && rest < size
    ensures count == outer + asked <==> granted == size * outer && given == size * asked
  {
    Distribute(size, outer, asked);
    if granted == size * outer && given == size * asked {
      NoRemainder(size, outer + asked, count, rest);
    }
  }

  /** The chunks delivered so far are those that the demand gets to, if they are as many as it asks. */
  lemma ServedByPrefix<T>(script: Script<T>, size: Size, react: Reaction<seq<T>>, requests: seq<Size>, n: nat)
    requires 0 < size && n <= |script.values|
    requires ChunksEarned(react, Sum(requests), Buffer<T>(size).Shown(EventsOf(script)[..n]))
    requires var delivered := Buffer<T>(size).Shown(EventsOf(script)[..n]);
             && (forall k :: 0 <= k < |delivered| ==> delivered[k].Next?)
             && (|delivered| == Demand(delivered, react, Sum(requests), |delivered|)
                 <==> Fits(size, requests) && RepliesFit(size, react, delivered))
    ensures var delivered := Buffer<T>(size).Shown(EventsOf(script)[..n]);
            |delivered| == Demand(delivered, react, Sum(requests), |delivered|)
            <==> NoneOverflows(script, size, react, requests)
  {
    var events := EventsOf(script);
    ShownGrows(events, size, n, |events|);
    assert events[..|events|] == events;
    OwedIsDelivered(size, react, Sum(requests), Buffer<T>(size).Shown(events[..n]), Buffer<T>(size).Shown(events));
  }

  lemma OwedIsDelivered<R>(size: Size, react: Reaction<R>, outer: nat, delivered: seq<Event<R>>, chunks: seq<Event<R>>)
    requires delivered <= chunks && ChunksEarned(react, outer, delivered)
    requires forall k :: 0 <= k < |delivered| ==> delivered[k].Next?
    ensures OwedFit(size, react, outer, chunks) ==> RepliesFit(size, react, delivered)
    ensures |delivered| == Demand(delivered, react, outer, |delivered|) && RepliesFit(size, react, delivered) ==>
              OwedFit(size, react, outer, chunks)
  {
    forall j | 0 <= j <= |delivered|
      ensures Demand(chunks, react, outer, j) == Demand(delivered, react, outer, j) && chunks[..j] == delivered[..j]
    {
      AskedOfPrefix(delivered, chunks, react, j);
    }
    forall k | 0 < k <= |delivered|
      ensures OwedUpTo(react, outer, chunks, k)
    {
    }
    if |delivered| == Demand(delivered, react, outer, |delivered|) {
      forall k | 0 < k <= |chunks| && OwedUpTo(react, outer, chunks, k)
        ensures k <= |delivered|
      {
      }
    }
  }

  lemma {:induction false} ShownGrows<T>(events: seq<Event<T>>, size: Size, n: nat, m: nat)
    requires n <= m <= |events|
    ensures Buffer<T>(size).Shown(events[..n]) <= Buffer<T>(size).Shown(events[..m])
  {
    if n < m {
      ShownGrows(events, size, n, m - 1);
      assert events[..m] == events[..m - 1] + [events[m - 1]];
      Receives(size, events[..m - 1], events[m - 1]);
    }
  }

  /** For a subscriber that requests from outside only: no product overflows, or what is left of
      them adds up to more than the base has. */
  lemma SilentServedExactly<T>(script: Script<T>, size: Size, requests: seq<Size>, received: seq<Event<T>>)
    requires 0 < size && |script.values| < KMAX
    requires IsRun(script, size, (h: seq<Event<seq<T>>>) => [], requests, received)
    ensures Served(script, size, (h: seq<Event<seq<T>>>) => [], requests, received)
            <==> Fits(size, requests) || Sum(Buffer<T>(size).MapAll(requests)) > |script.values|
  {
    var n := |received|;
    ReceivesGranted(script, size, requests, received);
    assert received == EventsOf(script)[..n];
    if n < |EventsOf(script)| {
      GrantSums<T>(size, requests, |requests|);
      SilentServedByNumbers(script, size, requests, n);
    }
  }

  lemma SilentServedByNumbers<T>(script: Script<T>, size: Size, requests: seq<Size>, n: nat)
    requires 0 < size && n <= |script.values| && n == Sum(Buffer<T>(size).MapAll(requests))
    ensures var delivered := Buffer<T>(size).Shown(EventsOf(script)[..n]);
            |delivered| == Demand(delivered, (h: seq<Event<seq<T>>>) => [], Sum(requests), |delivered|) <==> Fits(size, requests)
  {
    var silent, delivered := (h: seq<Event<seq<T>>>) => [], Buffer<T>(size).Shown(EventsOf(script)[..n]);
    SilentBuffer(EventsOf(script), size, n);
    ServedByNumbers(script, size, silent, requests, n);
    assert RepliesFit(size, silent, delivered);
  }

  /** The base sends all it has or exactly what it was asked for. */
  lemma ReceivesGranted<T>(script: Script<T>, size: Size, requests: seq<Size>, received: seq<Event<T>>)
    requires |script.values| < KMAX && IsRun(script, size, (h: seq<Event<seq<T>>>) => [], requests, received)
    ensures received <= EventsOf(script)
    ensures var granted, n := Sum(Buffer<T>(size).MapAll(requests)), |received|;
            if granted > |script.values| then n == |EventsOf(script)| else n == granted
  {
    var chain, events, n := Buffer<T>(size), EventsOf(script), |received|;
    var grants, asks := chain.MapAll(requests), chain.AsSubscriber((h: seq<Event<seq<T>>>) => []);
    SettledNumbers(events, asks, Sum(grants), received);
    SilentBuffer(events, size, n);
    if n > 0 {
      SilentBuffer(events, size, n - 1);
    }
  }

  lemma SilentBuffer<T>(events: seq<Event<T>>, size: Size, n: nat)
    requires n <= |events|
    ensures Asked(events, Buffer<T>(size).AsSubscriber((h: seq<Event<seq<T>>>) => []), n) == 0
  {
    var silent := (h: seq<Event<seq<T>>>) => [];
    var shown := Buffer<T>(size).Shown(events[..n]);
    assert Asked(events, Buffer<T>(size).AsSubscriber(silent), n) <= size * Asked(shown, silent, |shown|) by {
      AskedScales(events, size, silent, n);
    }
    AskedNothing(shown, |shown|);
  }

  /** Two to the power of 63 chunks of two are requested, and nothing at all arrives. */
  lemma OverflowExample(script: Script<int>, received: seq<Event<int>>)
    requires |script.values| < KMAX
    requires IsRun(script, 2, (h: seq<Event<seq<int>>>) => [], [0x8000_0000_0000_0000], received)
    ensures received == []
  {
    WrapsToNothing();
    ReceivesGranted(script, 2, [0x8000_0000_0000_0000], received);
  }

  lemma WrapsToNothing()
    ensures Sum(Buffer<int>(2).MapAll([0x8000_0000_0000_0000])) == 0
  {
    var grants := Buffer<int>(2).MapAll([0x8000_0000_0000_0000]);
    assert Buffer<int>(2).Map(0x8000_0000_0000_0000) == 0;
    assert Sum(grants) == SumTo(grants, 0) + grants[0];
  }
}
