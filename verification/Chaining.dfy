/** Chaining streams (Map, Buffer): a stateful function turns each base event into events for the
    subscriber, and requests are mapped to requests on the base. The base stream drives the
    downstream subscriber from its own callbacks. */
module Chains {
  import opened RequestBalances
  import opened Events
  import opened Generators

  /** The request mapping, and the function with its captured state: what it sends downstream for
      an event, and its next state. */
  datatype Chain<!T, !R, !S> = Chain(mapping: Size -> Size, func: (S, Event<T>) -> (S, seq<Event<R>>), initial: S) {
    function Map(tokens: Size): Size {
      mapping(tokens)
    }

    function Next(state: S, event: Event<T>): S {
      func(state, event).0
    }

    function Emit(state: S, event: Event<T>): seq<Event<R>> {
      func(state, event).1
    }

    /** The captured state once `received` has arrived. */
    function StateAfter(received: seq<Event<T>>): S {
      if received == [] then initial
      else Next(StateAfter(received[..|received| - 1]), received[|received| - 1])
    }

    /** What was sent downstream once `received` has arrived. */
    function Shown(received: seq<Event<T>>): seq<Event<R>> {
      if received == [] then [] else
        var before := received[..|received| - 1];
        Shown(before) + Emit(StateAfter(before), received[|received| - 1])
    }

    function MapAll(requests: seq<Size>): (grants: seq<Size>)
      ensures |grants| == |requests|
      ensures forall i :: 0 <= i < |requests| ==> grants[i] == Map(requests[i])
    {
      seq(|requests|, i requires 0 <= i < |requests| => Map(requests[i]))
    }

    /** What is requested from the base when `emitted` is sent downstream after `before`. */
    function Grants(react: Reaction<R>, before: seq<Event<R>>, emitted: seq<Event<R>>): seq<Size>
      decreases |emitted|
    {
      if emitted == [] then [] else
        var shown := before + [emitted[0]];
        MapAll(Reply(react, shown)) + Grants(react, shown, emitted[1..])
    }

    function BaseReply(react: Reaction<R>, received: seq<Event<T>>): seq<Size> {
      if received == [] then [] else
        var before := received[..|received| - 1];
        Grants(react, Shown(before), Emit(StateAfter(before), received[|received| - 1]))
    }

    /** The chaining stream and everything downstream of it, as a subscriber of the base stream. */
    function AsSubscriber(react: Reaction<R>): Reaction<T> {
      (received: seq<Event<T>>) => BaseReply(react, received)
    }

    /** One more event emitted. */
    lemma GrantsCons(react: Reaction<R>, before: seq<Event<R>>, emitted: seq<Event<R>>)
      requires emitted != []
      ensures var shown := before + [emitted[0]];
              Sum(Grants(react, before, emitted))
              == Sum(MapAll(Reply(react, shown))) + Sum(Grants(react, shown, emitted[1..]))
    {
      var shown := before + [emitted[0]];
      var rest := Grants(react, shown, emitted[1..]);
      SumOfBoth(MapAll(Reply(react, shown)), rest, |rest|);
    }

    /** One more base event received. */
    lemma Receive(react: Reaction<R>, received: seq<Event<T>>, event: Event<T>)
      ensures var now := received + [event];
              var emitted := Emit(StateAfter(received), event);
              && Shown(now) == Shown(received) + emitted
              && StateAfter(now) == Next(StateAfter(received), event)
              && BaseReply(react, now) == Grants(react, Shown(received), emitted)
    {
      var now := received + [event];
      assert now[..|now| - 1] == received;
    }

    /** All that the function sends for an event is shown, after what was shown before, and its next state
        is that in which it is called for the next event; every request is mapped. */
    lemma ShowsWhatIsSent(received: seq<Event<T>>, event: Event<T>, requests: seq<Size>)
      ensures StateAfter([]) == initial && Shown([]) == []
      ensures StateAfter(received + [event]) == func(StateAfter(received), event).0
      ensures Shown(received + [event]) == Shown(received) + func(StateAfter(received), event).1
      ensures forall i :: 0 <= i < |requests| ==> MapAll(requests)[i] == mapping(requests[i])
    {
      Receive((history: seq<Event<R>>) => [], received, event);
    }

    /** One more base event, and what is requested from the base for it. */
    lemma AskedStep(react: Reaction<R>, events: seq<Event<T>>, n: nat)
      requires n < |events|
      ensures var shown, emitted := Shown(events[..n]), Emit(StateAfter(events[..n]), events[n]);
              && Shown(events[..n + 1]) == shown + emitted
              && Asked(events, AsSubscriber(react), n + 1)
                 == Asked(events, AsSubscriber(react), n) + Sum(Grants(react, shown, emitted))
    {
      assert events[..n + 1] == events[..n] + [events[n]];
      Receive(react, events[..n], events[n]);
    }
  }

  lemma {:induction false} SumOfBoth(first: seq<Size>, second: seq<Size>, n: nat)
    requires n <= |second|
    ensures SumTo(first + second, |first| + n) == Sum(first) + SumTo(second, n)
  {
    if n > 0 {
      SumOfBoth(first, second, n - 1);
    } else {
      SumOfPrefix(first, second, |first|);
    }
  }

  lemma {:induction false} SumOfPrefix(first: seq<Size>, second: seq<Size>, n: nat)
    requires n <= |first|
    ensures SumTo(first + second, n) == SumTo(first, n)
  {
    if n > 0 {
      SumOfPrefix(first, second, n - 1);
    }
  }

  class ChainingStream<T, R, S> {
    const script: Script<T>
    const chain: Chain<T, R, S>
    const react: Reaction<R>
    ghost const subscriber: Reaction<T>

    var base: Source<T>
    var state: S
    var alive: bool

    var delivered: seq<Event<R>>
    var received: seq<Event<T>>   // what has arrived from the base
    ghost var granted: nat  // what was requested from the base
    ghost var outer: nat

    ghost function Whole(): seq<Event<T>> {
      EventsOf(script)
    }

    /** For the base stream's event at `n`, the subscriber asks for what downstream asks for. */
    ghost predicate Answers(n: nat)
      requires n < |Whole()|
    {
      Reply(subscriber, Whole()[..n + 1]) == chain.BaseReply(react, Whole()[..n + 1])
    }

    ghost predicate Wired() {
      forall n: nat :: n < |Whole()| ==> Answers(n)
    }

    /** What downstream has seen is what the function makes of what has arrived. */
    ghost predicate Shows()
      reads this
    {
      delivered == chain.Shown(received) && state == chain.StateAfter(received)
    }

    /** What holds whenever no event is on its way. */
    ghost predicate Steady()
      reads this
    {
      && alive && Shows()
      && base.script == script && base.Valid() && !base.finished && |received| == base.index
      && Booked(Whole(), subscriber, Never, outer, granted, received)
      && Credit(base.requested, granted, |received|)
    }

    ghost predicate Over()
      reads this
    {
      !alive && Shows() && Closed(Whole(), subscriber, Never, outer, received)
    }

    /** No call is in progress. */
    ghost predicate AtRest()
      reads this
    {
      if alive then Steady() && !base.generating && base.requested == 0 else Over()
    }

    constructor (script: Script<T>, chain: Chain<T, R, S>, react: Reaction<R>)
      ensures AtRest() && alive && delivered == [] && outer == 0
      ensures this.script == script && this.chain == chain && this.react == react
      ensures subscriber == chain.AsSubscriber(react) && Wired()
    {
      this.script, this.chain, this.react := script, chain, react;
      subscriber := chain.AsSubscriber(react);
      base, state, alive := Fresh(script), chain.initial, true;
      delivered, received, granted, outer := [], [], 0, 0;
    }

    ghost function Left(): nat
      reads this
    {
      if base.Valid() then base.Remaining() else 0
    }

    // ----- subscription -----

    method Request(tokens: Size)
      requires alive && base.Valid() && (!base.generating ==> AtRest())
      requires Wired()
      modifies this
      ensures old(base.generating) ==>
                && base == old(base).Grant(chain.Map(tokens)) && granted == old(granted) + chain.Map(tokens)
                && unchanged(`state, `alive, `delivered, `received, `outer)
      ensures !old(base.generating) ==> AtRest() && outer == old(outer) + chain.Map(tokens)
      decreases Left(), 3
    {
      var count := chain.Map(tokens);
      if !base.generating {
        BookRequest(Whole(), subscriber, Never, outer, granted, received, count);
        outer := outer + count;
      }
      granted := granted + count;
      base := base.Grant(count);
      if !base.generating {
        Generate();
      }
    }

    // ----- the base stream and its subscriber -----

    method Generate()
      requires Steady() && !base.generating
      requires Wired()
      modifies this
      ensures AtRest() && outer == old(outer)
      decreases Left(), 2
    {
      base := base.(generating := true);
      while base.requested > 0
        invariant Steady() && base.generating && outer == old(outer)
        invariant base.Remaining() <= old(Left())
        decreases base.Remaining()
      {
        GenerateOne();
        if !alive {
          return;
        }
      }
      base := base.(generating := false);
    }

    /** The body of the loop. */
    method GenerateOne()
      requires Steady() && base.generating && base.requested > 0
      requires Wired()
      modifies this
      ensures outer == old(outer)
      ensures if alive then Steady() && base.generating && base.Remaining() < old(base.Remaining()) else Over()
      decreases Left(), 1
    {
      ContinuesScript(base, received);
      var event := base.Event();
      base := base.Advance();
      OnNext(event);
      if event.End? {
        alive := false;
      }
    }

    /** The books once the event has arrived and what the function makes of it has been sent. */
    lemma BookArrival(event: Event<T>)
      requires Wired() && received + [event] <= Whole() && Covers(granted, |received|)
      requires Booked(Whole(), subscriber, Never, outer, granted, received)
      ensures var now, emitted := received + [event], chain.Emit(chain.StateAfter(received), event);
              && chain.Shown(now) == chain.Shown(received) + emitted
              && chain.StateAfter(now) == chain.Next(chain.StateAfter(received), event)
              && Booked(Whole(), subscriber, Never, outer,
                        granted + Sum(chain.Grants(react, chain.Shown(received), emitted)), now)
              && (now == Whole() ==> Closed(Whole(), subscriber, Never, outer, now))
    {
      assert Answers(|received|) && Whole()[..|received| + 1] == received + [event];
      chain.Receive(react, received, event);
      Book(Whole(), subscriber, Never, outer, granted, received, event);
    }

    method OnNext(event: Event<T>)
      requires alive && base.Valid() && base.generating && Shows()
      requires Wired()
      requires received + [event] <= Whole() && (event.End? ==> received + [event] == Whole())
      requires Booked(Whole(), subscriber, Never, outer, granted, received)
      requires Covers(granted, |received|) && Credit(base.requested, granted, |received| + 1)
      modifies this
      ensures alive && outer == old(outer) && base == old(base).(requested := base.requested)
      ensures received == old(received) + [event] && Shows()
      ensures if event.Next? then Booked(Whole(), subscriber, Never, outer, granted, received)
              else Closed(Whole(), subscriber, Never, outer, received)
      ensures Credit(base.requested, granted, |received|)
      decreases Left(), 7
    {
      BookArrival(event);
      var emitted := chain.Emit(state, event);
      state := chain.Next(state, event);
      received := received + [event];
      SendAll(emitted);
    }

    /** The calls to the downstream subscriber that the function makes. */
    method SendAll(events: seq<Event<R>>)
      requires alive && base.Valid() && base.generating
      requires Wired()
      modifies this
      ensures delivered == old(delivered) + events
      ensures granted == old(granted) + Sum(chain.Grants(react, old(delivered), events))
      ensures unchanged(`state, `alive, `received, `outer) && base == old(base).(requested := base.requested)
      ensures forall used: nat :: old(Credit(base.requested, granted, used)) ==> Credit(base.requested, granted, used)
      decreases Left(), 6, |events|
    {
      if events != [] {
        chain.GrantsCons(react, delivered, events);
        Send(events[0]);
        SendAll(events[1..]);
      }
    }

    /** The downstream subscriber's callback, with the requests it makes. */
    method Send(event: Event<R>)
      requires alive && base.Valid() && base.generating
      requires Wired()
      modifies this
      ensures delivered == old(delivered) + [event]
      ensures granted == old(granted) + Sum(chain.MapAll(Reply(react, delivered)))
      ensures unchanged(`state, `alive, `received, `outer) && base == old(base).(requested := base.requested)
      ensures forall used: nat :: old(Credit(base.requested, granted, used)) ==> Credit(base.requested, granted, used)
      decreases Left(), 5
    {
      delivered := delivered + [event];
      var requests := Reply(react, delivered);
      ghost var now, grants := delivered, chain.MapAll(requests);
      for i := 0 to |requests|
        invariant granted == old(granted) + SumTo(grants, i) && delivered == now
        invariant unchanged(`state, `alive, `received, `outer) && base == old(base).(requested := base.requested)
        invariant forall used: nat :: old(Credit(base.requested, granted, used)) ==> Credit(base.requested, granted, used)
      {
        Request(requests[i]);
      }
    }

    /** At rest after `total` requests from outside, of which a stream that is over took no notice. */
    ghost predicate Rests(total: nat)
      reads this
    {
      AtRest() && outer <= total && (alive ==> outer == total)
    }

    method RequestAll(requests: seq<Size>)
      requires Rests(0) && Wired()
      modifies this
      ensures Rests(Sum(chain.MapAll(requests)))
    {
      ghost var grants := chain.MapAll(requests);
      for i := 0 to |requests|
        invariant Rests(SumTo(grants, i))
      {
        assert SumTo(grants, i + 1) == SumTo(grants, i) + chain.Map(requests[i]);
        RequestMore(requests[i], SumTo(grants, i));
      }
    }

    method RequestMore(tokens: Size, ghost total: nat)
      requires Rests(total) && Wired()
      modifies this
      ensures Rests(total + chain.Map(tokens))
    {
      if alive {
        Request(tokens);
      }
    }

    /** A stream at rest has settled. */
    lemma RestMeans(total: nat)
      requires Rests(total)
      ensures delivered == chain.Shown(received) && Settled(Whole(), subscriber, Never, total, received)
    {
      if !alive {
        ClosedGrows(Whole(), subscriber, Never, outer, total - outer, received);
      }
      BooksSettle(Whole(), subscriber, Never, total, granted, received);
    }
  }

  /** A chained publisher subscribed by an arbitrary subscriber, then requested from outside an
      arbitrary number of times: downstream sees what the function makes of what has arrived, and
      to the base stream the whole chain is a subscriber like any other. */
  method Run<T, R, S>(script: Script<T>, chain: Chain<T, R, S>, react: Reaction<R>, requests: seq<Size>)
    returns (delivered: seq<Event<R>>, received: seq<Event<T>>)
    ensures delivered == chain.Shown(received)
    ensures Settled(EventsOf(script), chain.AsSubscriber(react), Never, Sum(chain.MapAll(requests)), received)
  {
    var stream := new ChainingStream(script, chain, react);
    stream.RequestAll(requests);
    stream.RestMeans(Sum(chain.MapAll(requests)));
    delivered, received := stream.delivered, stream.received;
  }
}
