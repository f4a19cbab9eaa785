/** The sieve of Eratosthenes as a pipeline: the endless stream of numbers is filtered by a predicate
    that every prime that gets through refines. */
module Sieves {
  import opened RequestBalances
  import opened Events
  import opened Generators
  import opened P = Pipelines
  import opened Primes

  /** The evolving predicate once it was refined with the given primes, one after the other. */
  predicate EvolvingIsPrime(primes: seq<nat>, v: nat) {
    primes == [] || (EvolvingIsPrime(primes[..|primes| - 1], v) && !Divides(primes[|primes| - 1], v))
  }

  lemma {:induction false} RefinedByAll(primes: seq<nat>, v: nat)
    ensures EvolvingIsPrime(primes, v) <==> forall p :: p in primes ==> !Divides(p, v)
  {
    if primes != [] {
      var before, last := primes[..|primes| - 1], primes[|primes| - 1];
      RefinedByAll(before, v);
      assert primes == before + [last];
    }
  }

  /** Refined with all smaller primes, the predicate recognises the primes. */
  lemma PredicateIsExact(v: nat)
    requires v >= 2
    ensures EvolvingIsPrime(PrimesBelow(v), v) <==> IsPrime(v)
  {
    RefinedByAll(PrimesBelow(v), v);
    if !IsPrime(v) {
      var p := PrimeDivisor(v);
      PrimesBelowAreAll(v, p);
    } else {
      forall p: nat | p in PrimesBelow(v)
        ensures !Divides(p, v)
      {
        PrimesBelowAreAll(v, p);
      }
    }
  }

  // ----- the pipeline -----

  function From2(i: nat): nat {
    i + 2
  }

  /** The element again, or nothing. The predicate is captured by reference. */
  function Filtered(primes: seq<nat>, x: nat): Publisher<seq<nat>, nat> {
    Generated(Script(if EvolvingIsPrime(primes, x) then [x] else [], Done))
  }

  /** The action on every element that gets through. */
  function Refine(primes: seq<nat>, x: nat): (seq<nat>, nat) {
    (primes + [x], x)
  }

  /** Do(Filter(From(2))). */
  function Pipeline(): Publisher<seq<nat>, nat> {
    Mapped(FlatMapped(Endless(From2), Filtered, 1), Refine)
  }

  // ----- the filter -----

  ghost predicate IsFilter(f: Stream<seq<nat>, nat>) {
    && f.FlatMapping? && f.func == Filtered
    && f.base.Counting? && f.base.next == From2
    && (f.cont.Some? ==>
          && f.cont.value.Generating? && f.cont.value.source.script.end == Done
          && f.cont.value.source.Valid() && !f.cont.value.source.finished)
  }

  /** The next number. */
  ghost function Reached(f: Stream<seq<nat>, nat>): nat
    requires IsFilter(f)
  {
    f.base.index + 2
  }

  /** What has passed the filter and was not delivered. */
  ghost function Pending(f: Stream<seq<nat>, nat>): seq<nat>
    requires IsFilter(f)
  {
    if f.cont.None? then [] else
      var source := f.cont.value.source;
      source.script.values[source.index..]
  }

  /** The primes below the next number have got through; the last of them may not be delivered yet. */
  ghost predicate Filtering(primes: seq<nat>, f: Stream<seq<nat>, nat>) {
    Good(f) && IsFilter(f) && primes + Pending(f) == PrimesBelow(Reached(f))
  }

  function LoopRounds(generating: bool): nat {
    if generating then 1 else 0
  }

  /** The rounds before the next number is the bound. */
  ghost function Rounds(f: Stream<seq<nat>, nat>, bound: nat): nat
    requires IsFilter(f)
  {
    (if Reached(f) < bound then 8 * (bound - Reached(f)) else 0) + LoopRounds(f.base.generating)
    + if f.cont.None? then 0 else
        var source := f.cont.value.source;
        source.Remaining() + LoopRounds(source.generating) + 2
  }

  lemma FilterRequested(primes: seq<nat>, f: Stream<seq<nat>, nat>, tokens: Size, bound: nat)
    requires Filtering(primes, f) && MayRequest(f, tokens)
    ensures var next := Request(f, tokens);
            && Filtering(primes, next) && Serves(f, tokens, next)
            && Rounds(next, bound) <= Rounds(f, bound) + LoopRounds(!Calling(f))
  {
    RequestServes(f, tokens);
    FlatMapForwards(f);
    if f.cont.Some? {
      FlatMapPassesOn(f, tokens);
    }
  }

  /** A round takes the next number, or delivers a prime, or ends a loop; while there are primes below
      the bound to be delivered there are fewer rounds left. */
  ghost predicate Filters(primes: seq<nat>, f: Stream<seq<nat>, nat>, bound: nat, round: Round<seq<nat>, nat>)
    requires IsFilter(f)
  {
    match round
    case Silent(after, next) => after == primes && Filtering(primes, next) && Rounds(next, bound) < Rounds(f, bound)
    case Emit(after, Next(value), next) =>
      after == primes && Filtering(primes + [value], next) && Rounds(next, bound) < Rounds(f, bound)
    case Emit(_, End(_), _) => false
    case Rest => true
    case Abort => false
  }

  lemma FilterAdvances(primes: seq<nat>, f: Stream<seq<nat>, nat>, bound: nat)
    requires Filtering(primes, f) && (f.requestBalance > 0 ==> |primes| < |PrimesBelow(bound)|)
    ensures Filters(primes, f, bound, Advance(primes, f))
  {
    if f.cont.Some? && Running(f.cont.value) {
      Delivers(primes, f, bound);
    } else if Running(f.base) {
      if f.base.requested > 0 {
        TakesNumber(primes, f, bound);
      } else {
        Stops(primes, f, bound);
      }
    }
  }

  lemma RemainsGood(primes: seq<nat>, f: Stream<seq<nat>, nat>, next: Stream<seq<nat>, nat>)
    requires Good(f) && Advance(primes, f) == Silent(primes, next)
    ensures Good(next)
  {
    AdvanceIsStrict(primes, f);
  }

  /** The loop of the numbers ends. */
  lemma Stops(primes: seq<nat>, f: Stream<seq<nat>, nat>, bound: nat)
    requires Filtering(primes, f) && (f.cont.Some? ==> !Running(f.cont.value))
    requires Running(f.base) && f.base.requested == 0
    ensures Filters(primes, f, bound, Advance(primes, f))
  {
    var next := f.(base := f.base.(generating := false));
    assert Advance(primes, f.base) == Silent(primes, f.base.(generating := false));
    RemainsGood(primes, f, next);
  }

  /** The stream of the filter's publisher, which has at most one element. */
  lemma Delivers(primes: seq<nat>, f: Stream<seq<nat>, nat>, bound: nat)
    requires Filtering(primes, f) && f.cont.Some? && Running(f.cont.value)
    ensures Filters(primes, f, bound, Advance(primes, f))
  {
    var source := f.cont.value.source;
    GeneratingAdvances(primes, source);
    AdvanceIsStrict(primes, f);
    if source.requested > 0 && source.index == |source.script.values| {
      DoneAsks(primes, f, source);
    } else if source.requested > 0 {
      assert Pending(f) == [source.script.values[source.index]] + source.script.values[source.index + 1..];
    }
  }

  lemma GeneratingAdvances(primes: seq<nat>, source: Source<nat>)
    requires source.generating && !source.finished
    ensures Advance(primes, Generating(source))
         == if source.requested > 0 then Emit(primes, source.Event(), Generating(source.Advance()))
            else Silent(primes, Generating(source.(generating := false)))
  {
  }

  /** When the element was delivered, or filtered out, the next number is requested. */
  lemma DoneAsks(primes: seq<nat>, f: Stream<seq<nat>, nat>, source: Source<nat>)
    requires IsFilter(f) && Good(f) && f.cont == Some(Generating(source)) && source.generating
    requires source.requested > 0 && source.index == |source.script.values|
    ensures Advance(primes, f)
         == Silent(primes, f.(cont := None, base := f.base.(requested := Plus(f.base.requested, 1), generating := true)))
  {
    GeneratingAdvances(primes, source);
    var done := f.(cont := None);
    assert Request(f.base, 1) == f.base.(requested := Plus(f.base.requested, 1), generating := true);
    assert Request(done, 0) == done.(base := Request(f.base, 1));
  }

  lemma TakesNumber(primes: seq<nat>, f: Stream<seq<nat>, nat>, bound: nat)
    requires Filtering(primes, f) && (f.requestBalance > 0 ==> |primes| < |PrimesBelow(bound)|)
    requires f.cont.Some? ==> !Running(f.cont.value)
    requires Running(f.base) && f.base.requested > 0
    ensures Filters(primes, f, bound, Advance(primes, f))
  {
    NextNumber(primes, Reached(f), bound);
    var next := Takes(primes, f, bound);
    RemainsGood(primes, f, next);
    FiltersSilently(primes, f, bound, next);
  }

  /** The filter takes the next number: what is pending is the number, or nothing. */
  lemma Takes(primes: seq<nat>, f: Stream<seq<nat>, nat>, bound: nat) returns (next: Stream<seq<nat>, nat>)
    requires IsFilter(f) && (f.cont.Some? ==> !Running(f.cont.value))
    requires Good(f) && Running(f.base) && f.base.requested > 0
    requires f.requestBalance > 0 ==> Reached(f) < bound
    ensures Advance(primes, f) == Silent(primes, next) && IsFilter(next) && Reached(next) == Reached(f) + 1
    ensures f.cont.None? && Pending(next) == if EvolvingIsPrime(primes, Reached(f)) then [Reached(f)] else []
    ensures Rounds(next, bound) < Rounds(f, bound)
  {
    var v := Reached(f);
    var base := f.base.(index := f.base.index + 1, requested := Minus(f.base.requested, 1));
    var source := Source(Script(if EvolvingIsPrime(primes, v) then [v] else [], Done), 0, f.requestBalance, true, false);
    next := f.(base := base, contRequested := f.requestBalance, cont := Some(Generating(source)));
    TakesOn(f, primes, v, base, source);
    Taken(f, v, base, source, next, bound);
  }

  lemma FiltersSilently(primes: seq<nat>, f: Stream<seq<nat>, nat>, bound: nat, next: Stream<seq<nat>, nat>)
    requires IsFilter(f) && Advance(primes, f) == Silent(primes, next)
    requires Filtering(primes, next) && Rounds(next, bound) < Rounds(f, bound)
    ensures Filters(primes, f, bound, Advance(primes, f))
  {
  }

  /** The books of the filter once it has taken the number. */
  lemma Taken(f: Stream<seq<nat>, nat>, v: nat, base: Stream<seq<nat>, nat>, source: Source<nat>,
              next: Stream<seq<nat>, nat>, bound: nat)
    requires IsFilter(f) && f.cont.None? && v == Reached(f) < bound && f.base.generating
    requires base.Counting? && base.next == From2 && base.index == f.base.index + 1 && base.generating
    requires source.index == 0 && |source.script.values| <= 1 && source.script.end == Done && !source.finished
    requires next == f.(base := base, contRequested := f.requestBalance, cont := Some(Generating(source)))
    ensures IsFilter(next) && Reached(next) == v + 1 && Pending(next) == source.script.values
    ensures Rounds(next, bound) < Rounds(f, bound)
  {
  }

  /** The predicate tells whether the next number is a prime; while primes below the bound are missing
      it is below the bound. */
  lemma NextNumber(primes: seq<nat>, v: nat, bound: nat)
    requires v >= 2 && primes == PrimesBelow(v)
    ensures PrimesBelow(v + 1) == primes + if EvolvingIsPrime(primes, v) then [v] else []
    ensures |primes| < |PrimesBelow(bound)| ==> v < bound
  {
    PredicateIsExact(v);
    if bound <= v {
      PrimesBelowGrows(bound, v);
    }
  }

  lemma TakesOn(f: Stream<seq<nat>, nat>, primes: seq<nat>, v: nat, base: Stream<seq<nat>, nat>, source: Source<nat>)
    requires IsFilter(f) && v == Reached(f) && (f.cont.Some? ==> !Running(f.cont.value))
    requires Good(f) && Running(f.base) && f.base.requested > 0
    requires base == f.base.(index := f.base.index + 1, requested := Minus(f.base.requested, 1))
    requires source == Source(Script(if EvolvingIsPrime(primes, v) then [v] else [], Done), 0, f.requestBalance, true, false)
    ensures f.cont.None? && f.requestBalance > 0
    ensures Advance(primes, f)
         == Silent(primes, f.(base := base, contRequested := f.requestBalance, cont := Some(Generating(source))))
  {
    assert Advance(primes, f.base) == Emit(primes, Next(v), base);
    AdvanceIsStrict(primes, f.base);
    BaseIsStrict(f, Advance(primes, f.base));
    var first := Subscribed(Filtered(primes, v));
    assert Request(first, f.requestBalance) == Generating(source);
    var subscribed := f.(base := base, contRequested := 0, cont := Some(first));
    assert Request(subscribed, 0)
        == f.(base := base, contRequested := f.requestBalance, cont := Some(Generating(source))) by {
      assert FromInt(f.requestBalance - 0) == f.requestBalance;
    }
  }

  // ----- the whole pipeline -----

  /** The predicate was refined with the primes that were delivered. */
  ghost predicate Sifting(primes: seq<nat>, s: Stream<seq<nat>, nat>) {
    s.Mapping? && s.action == Refine && Filtering(primes, s.inner)
  }

  lemma Starts()
    ensures var s := Subscribed(Pipeline());
            Sifting([], s) && !Running(s) && Demanded(s) == 0
  {
    SubscribedIsGood(FlatMapped(Endless(From2), Filtered, 1));
    assert PrimesBelow(2) == [] == PrimesBelow(1) == PrimesBelow(0);
  }

  lemma SieveRequested(primes: seq<nat>, s: Stream<seq<nat>, nat>, tokens: Size, bound: nat)
    requires Sifting(primes, s) && MayRequest(s.inner, tokens)
    ensures var next := P.Request(s, tokens);
            && Sifting(primes, next) && Running(next) && Demanded(next) == Plus(Demanded(s), tokens)
            && (Calling(s) ==> Calling(next))
            && Rounds(next.inner, bound) <= Rounds(s.inner, bound) + LoopRounds(!Calling(s))
  {
    FilterRequested(primes, s.inner, tokens, bound);
  }

  /** A request in a callback only gives the running loop more to do. */
  lemma SieveAsked(primes: seq<nat>, s: Stream<seq<nat>, nat>, tokens: Size, bound: nat)
    requires Sifting(primes, s) && Calling(s)
    ensures var next := P.Request(s, tokens);
            && Sifting(primes, next) && Calling(next) && Demanded(next) == Plus(Demanded(s), tokens)
            && Rounds(next.inner, bound) <= Rounds(s.inner, bound)
  {
    CallingRuns(s.inner);
    SieveRequested(primes, s, tokens, bound);
  }

  /** As long as fewer primes were delivered than there are below the bound, a round of the pipeline
      leaves fewer rounds; an event is a prime that was requested, the next one that was not delivered. */
  ghost predicate Sifts(primes: seq<nat>, s: Stream<seq<nat>, nat>, bound: nat, round: Round<seq<nat>, nat>)
    requires Sifting(primes, s)
  {
    match round
    case Silent(after, next) =>
      after == primes && Sifting(primes, next) && Demanded(next) == Demanded(s)
      && Rounds(next.inner, bound) < Rounds(s.inner, bound)
    case Emit(after, Next(value), next) =>
      && after == primes + [value] && Sifting(after, next) && after <= PrimesBelow(Reached(next.inner))
      && Demanded(s) > 0 && Demanded(next) == Minus(Demanded(s), 1) && Calling(next)
      && Rounds(next.inner, bound) < Rounds(s.inner, bound)
    case Emit(_, End(_), _) => false
    case Rest => !Running(s) && Demanded(s) == 0
    case Abort => false
  }

  lemma SieveAdvances(primes: seq<nat>, s: Stream<seq<nat>, nat>, bound: nat)
    requires Sifting(primes, s) && (Demanded(s) > 0 ==> |primes| < |PrimesBelow(bound)|)
    ensures Sifts(primes, s, bound, Advance(primes, s))
  {
    assert Demanded(s) == Demanded(s.inner);
    FilterAdvances(primes, s.inner, bound);
    AdvanceIsStrict(primes, s.inner);
    assert Advance(primes, s) == OnNextMapped(s, Advance(primes, s.inner));
    Refines(primes, s, bound, Advance(primes, s.inner));
  }

  /** The action on what has passed the filter. */
  lemma Refines(primes: seq<nat>, s: Stream<seq<nat>, nat>, bound: nat, round: Round<seq<nat>, nat>)
    requires Sifting(primes, s) && Filters(primes, s.inner, bound, round) && Strict(s.inner, round)
    ensures Sifts(primes, s, bound, OnNextMapped(s, round))
  {
  }

  lemma SharedPrefix(primes: seq<nat>, n: nat, bound: nat)
    requires primes <= PrimesBelow(n) && |primes| <= |PrimesBelow(bound)|
    ensures primes <= PrimesBelow(bound)
  {
    if n <= bound {
      PrimesBelowGrows(n, bound);
    } else {
      PrimesBelowGrows(bound, n);
    }
  }

  /** When the subscriber has received the first `limit` primes it has no demand left, `outer` having
      been requested from outside. */
  ghost predicate Sated(react: Reaction<nat>, outer: nat, limit: nat) {
    forall m: nat :: limit <= |PrimesBelow(m)| ==> Demand(Nexts(PrimesBelow(m)), react, outer, limit) <= limit
  }

  class PrimeStream {
    const react: Reaction<nat>
    ghost const total: nat  // at most as much is requested from outside
    ghost const limit: nat  // then no more than so many primes are demanded
    ghost const bound: nat  // with more primes below it

    var primes: seq<nat>    // what the predicate was refined with
    var stream: Stream<seq<nat>, nat>

    var delivered: seq<Event<nat>>
    ghost var granted: nat
    ghost var outer: nat

    ghost function Whole(): seq<Event<nat>> {
      Nexts(PrimesBelow(bound))
    }

    /** What holds whenever no event is on its way. */
    ghost predicate Steady()
      reads this
    {
      && Sifting(primes, stream) && delivered == Nexts(primes)
      && outer <= total && Sated(react, total, limit) && |primes| <= limit < KMAX && limit < |PrimesBelow(bound)|
      && Booked(Whole(), react, Never, outer, granted, delivered)
      && Credit(Demanded(stream), granted, |delivered|)
    }

    constructor (react: Reaction<nat>, ghost total: nat, ghost limit: nat)
      requires limit < KMAX && Sated(react, total, limit)
      ensures Steady() && !Running(stream) && delivered == [] && outer == 0
      ensures this.react == react && this.total == total
    {
      ghost var enough := EnoughPrimes(limit + 1);
      this.react, this.total, this.limit, this.bound := react, total, limit, enough;
      primes, stream := [], Subscribed(Pipeline());
      delivered, granted, outer := [], 0, 0;
      Starts();
    }

    /** From outside, a request runs the pipeline until all demand is met. */
    method Request(tokens: Size)
      requires Steady() && !Running(stream) && tokens > 0 && outer + tokens <= total
      modifies this
      ensures Steady() && !Running(stream) && outer == old(outer) + tokens
    {
      SieveRequested(primes, stream, tokens, bound);
      BookRequest(Whole(), react, Never, outer, granted, delivered, tokens);
      stream := P.Request(stream, tokens);
      granted, outer := granted + tokens, outer + tokens;
      while Running(stream)
        invariant Steady() && outer == old(outer) + tokens
        decreases Rounds(stream.inner, bound)
      {
        Unmet();
        SieveAdvances(primes, stream, bound);
        match Advance(primes, stream) {
          case Silent(_, next) => stream := next;
          case Emit(refined, event, next) => OnNext(refined, event, next);
        }
      }
    }

    /** Demand is unmet only before as many primes were delivered. */
    lemma Unmet()
      requires Steady()
      ensures Demanded(stream) > 0 ==> |primes| < limit
    {
      assert Demand(Whole(), react, outer, limit) <= Demand(Whole(), react, total, limit) <= limit;
    }

    /** At rest all demand is met. */
    lemma Met()
      requires Steady() && !Running(stream)
      ensures DeliversPrimes(react, outer, delivered)
    {
      if Demanded(stream) > 0 {
        DemandRuns(stream);
        assert false;
      }
      BooksSettle(Whole(), react, Never, outer, granted, delivered);
    }

    /** The subscriber's callback; requests made inside it only give the running loop more to do. */
    method OnNext(refined: seq<nat>, event: Event<nat>, next: Stream<seq<nat>, nat>)
      requires Steady() && Demanded(stream) > 0 && event.Next?
      requires refined == primes + [event.value] && Sifting(refined, next) && refined <= PrimesBelow(Reached(next.inner))
      requires Demanded(next) == Minus(Demanded(stream), 1) && Calling(next)
      modifies this
      ensures Steady() && outer == old(outer) && Rounds(stream.inner, bound) <= Rounds(next.inner, bound)
    {
      Unmet();
      SharedPrefix(refined, Reached(next.inner), bound);
      assert delivered + [event] == Nexts(refined) <= Whole();
      Book(Whole(), react, Never, outer, granted, delivered, event);
      primes, stream, delivered := refined, next, delivered + [event];
      React(Reply(react, delivered));
    }

    method React(requests: seq<Size>)
      requires Sifting(primes, stream) && Calling(stream) && Credit(Demanded(stream), granted, |delivered|)
      modifies this`stream, this`granted
      ensures granted == old(granted) + Sum(requests)
      ensures Sifting(primes, stream) && Credit(Demanded(stream), granted, |delivered|)
      ensures Rounds(stream.inner, bound) <= old(Rounds(stream.inner, bound))
    {
      var s := stream;
      ghost var rounds := Rounds(s.inner, bound);
      for i := 0 to |requests|
        invariant granted == old(granted)
        invariant Sifting(primes, s) && Calling(s) && Credit(Demanded(s), granted + SumTo(requests, i), |delivered|)
        invariant Rounds(s.inner, bound) <= rounds
      {
        SieveAsked(primes, s, requests[i], bound);
        s := P.Request(s, requests[i]);
      }
      stream, granted := s, granted + Sum(requests);
    }
  }

  /** Under strict flow control the stream delivers primes in increasing order, starting with the first
      and leaving out none, and stops only because no more are requested. */
  ghost predicate DeliversPrimes(react: Reaction<nat>, outer: nat, delivered: seq<Event<nat>>) {
    exists n: nat :: |delivered| < |PrimesBelow(n)| && Settled(Nexts(PrimesBelow(n)), react, Never, outer, delivered)
  }

  /** The pipeline against any subscriber whose demand can be met: every request returns. */
  method Run(react: Reaction<nat>, ghost limit: nat, requests: seq<Size>) returns (delivered: seq<Event<nat>>)
    requires limit < KMAX && Sated(react, Sum(requests), limit)
    requires forall i :: 0 <= i < |requests| ==> requests[i] > 0
    ensures DeliversPrimes(react, Sum(requests), delivered)
  {
    var sieve := new PrimeStream(react, Sum(requests), limit);
    for i := 0 to |requests|
      invariant fresh(sieve) && sieve.react == react && sieve.total == Sum(requests)
      invariant sieve.Steady() && !Running(sieve.stream) && sieve.outer == SumTo(requests, i)
    {
      SumGrows(requests, i + 1, |requests|);
      sieve.Request(requests[i]);
    }
    delivered := sieve.delivered;
    sieve.Met();
  }

  /** No other demand can be met: a stream that has come to rest was asked for no more than that. */
  lemma OnlyIfSated(react: Reaction<nat>, outer: nat, delivered: seq<Event<nat>>)
    requires DeliversPrimes(react, outer, delivered)
    ensures Sated(react, outer, |delivered|)
  {
    var n: nat :|
      |delivered| < |PrimesBelow(n)| && Settled(Nexts(PrimesBelow(n)), react, Never, outer, delivered);
    forall m: nat | |delivered| <= |PrimesBelow(m)|
      ensures Demand(Nexts(PrimesBelow(m)), react, outer, |delivered|) <= |delivered|
    {
      var less, more := if m < n then m else n, if m < n then n else m;
      PrimesBelowGrows(less, more);
      AskedOfPrefix(Nexts(PrimesBelow(less)), Nexts(PrimesBelow(more)), react, |delivered|);
    }
  }

  /** Against a subscriber that requests outside its callbacks only, as the example does, exactly as
      many primes are delivered as were requested. */
  method FirstPrimes(requests: seq<Size>) returns (delivered: seq<Event<nat>>)
    requires Sum(requests) < KMAX
    requires forall i :: 0 <= i < |requests| ==> requests[i] > 0
    ensures |delivered| == Sum(requests)
    ensures exists n: nat :: delivered <= Nexts(PrimesBelow(n))
  {
    var silent: Reaction<nat> := (history: seq<Event<nat>>) => [];
    forall m: nat | Sum(requests) <= |PrimesBelow(m)|
      ensures Demand(Nexts(PrimesBelow(m)), silent, Sum(requests), Sum(requests)) <= Sum(requests)
    {
      AskedNothing(Nexts(PrimesBelow(m)), Sum(requests));
    }
    delivered := Run(silent, Sum(requests), requests);
    ghost var n: nat :|
      && |delivered| < |PrimesBelow(n)|
      && Settled(Nexts(PrimesBelow(n)), silent, Never, Sum(requests), delivered);
    AskedNothing(Nexts(PrimesBelow(n)), |delivered|);
  }

  /** The requests of the example, one after the other. */
  method FiveRequests() returns (delivered: seq<Event<nat>>)
    ensures delivered == [Next(2), Next(3), Next(5), Next(7), Next(11)]
  {
    var requests: seq<Size> := [1, 1, 1, 1, 1];
    assert Sum(requests) == 5 by {
      assert SumTo(requests, 5) == SumTo(requests, 4) + 1 && SumTo(requests, 4) == SumTo(requests, 3) + 1;
      assert SumTo(requests, 3) == SumTo(requests, 2) + 1 && SumTo(requests, 2) == SumTo(requests, 1) + 1;
    }
    delivered := FirstPrimes(requests);
    ghost var n: nat :| delivered <= Nexts(PrimesBelow(n));
    FirstPrimesAre();
    PrimesBelowGrows(if n < 12 then n else 12, if n < 12 then 12 else n);
  }
}
