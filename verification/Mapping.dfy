/** Map as a chaining stream: one event downstream for every base event. */
module Mapping {
  import opened RequestBalances
  import opened Events
  import opened Generators
  import opened Chains

  /** The mapped function may return a status instead of a value; it is passed on all the same. */
  function MapEvent<T, R>(f: T -> Event<R>, event: Event<T>): Event<R> {
    if event.Next? then f(event.value) else End(event.status)
  }

  function Map<T, R>(f: T -> Event<R>): Chain<T, R, ()> {
    Chain((tokens: Size) => tokens, (state: (), event: Event<T>) => ((), [MapEvent(f, event)]), ())
  }

  function MapEvents<T, R>(f: T -> Event<R>, events: seq<Event<T>>): (mapped: seq<Event<R>>)
    ensures |mapped| == |events|
    ensures forall k :: 0 <= k < |events| ==> mapped[k] == MapEvent(f, events[k])
  {
    seq(|events|, k requires 0 <= k < |events| => MapEvent(f, events[k]))
  }

  /** The function's result for each value, and the end of the base as it is. */
  lemma MapsValues<T, R>(f: T -> Event<R>, script: Script<T>)
    ensures |MapEvents(f, EventsOf(script))| == |script.values| + 1
    ensures forall k :: 0 <= k < |script.values| ==> MapEvents(f, EventsOf(script))[k] == f(script.values[k])
    ensures MapEvents(f, EventsOf(script))[|script.values|] == End(script.end)
  {
    var mapped := MapEvents(f, EventsOf(script));
    assert mapped[|script.values|] == MapEvent(f, End(script.end));
    forall k | 0 <= k < |script.values|
      ensures mapped[k] == f(script.values[k])
    {
      assert mapped[k] == MapEvent(f, Next(script.values[k]));
    }
  }

  lemma {:induction false} MapShows<T, R>(f: T -> Event<R>, received: seq<Event<T>>)
    ensures Map(f).Shown(received) == MapEvents(f, received)
  {
    if received != [] {
      MapShows(f, received[..|received| - 1]);
    }
  }

  /** What is requested downstream is requested from the base. */
  lemma {:induction false} MapAsks<T, R>(f: T -> Event<R>, events: seq<Event<T>>, react: Reaction<R>, n: nat)
    requires n <= |events|
    ensures Asked(events, Map(f).AsSubscriber(react), n) == Asked(MapEvents(f, events), react, n)
  {
    if n > 0 {
      MapAsks(f, events, react, n - 1);
      MapAsksStep(f, events, react, n - 1);
    }
  }

  lemma MapAsksStep<T, R>(f: T -> Event<R>, events: seq<Event<T>>, react: Reaction<R>, n: nat)
    requires n < |events|
    ensures Asked(events, Map(f).AsSubscriber(react), n + 1)
         == Asked(events, Map(f).AsSubscriber(react), n) + Sum(Reply(react, MapEvents(f, events)[..n + 1]))
  {
    var shown, event := MapEvents(f, events[..n]), MapEvent(f, events[n]);
    assert MapEvents(f, events)[..n + 1] == shown + [event];
    MapShows(f, events[..n]);
    Map(f).AskedStep(react, events, n);
    MapGrants(f, react, shown, event);
  }

  lemma MapGrants<T, R>(f: T -> Event<R>, react: Reaction<R>, before: seq<Event<R>>, event: Event<R>)
    ensures Sum(Map(f).Grants(react, before, [event])) == Sum(Reply(react, before + [event]))
  {
    var chain, requests := Map(f), Reply(react, before + [event]);
    chain.GrantsCons(react, before, [event]);
    assert chain.MapAll(requests) == requests;
  }

  /** The strict flow control of the base is that of the mapped stream, whatever the base is. */
  lemma MapIsTransparent<T, R>(f: T -> Event<R>, events: seq<Event<T>>, react: Reaction<R>, outer: nat,
        received: seq<Event<T>>)
    requires Settled(events, Map(f).AsSubscriber(react), Never, outer, received)
    ensures Settled(MapEvents(f, events), react, Never, outer, Map(f).Shown(received))
  {
    MapShows(f, received);
    assert MapEvents(f, received) <= MapEvents(f, events);
    MapAsks(f, events, react, |received|);
    MapEarns(f, events, react, outer, |received|);
  }

  lemma {:induction false} MapEarns<T, R>(f: T -> Event<R>, events: seq<Event<T>>, react: Reaction<R>, outer: nat, n: nat)
    requires n <= |events| && Earned(events, Map(f).AsSubscriber(react), Never, outer, n)
    ensures Earned(MapEvents(f, events), react, Never, outer, n)
  {
    if n > 0 {
      MapEarns(f, events, react, outer, n - 1);
      MapAsks(f, events, react, n - 1);
    }
  }

  /** A mapped publisher subscribed by an arbitrary subscriber, then requested from outside an
      arbitrary number of times. */
  method Run<T, R>(script: Script<T>, f: T -> Event<R>, react: Reaction<R>, requests: seq<Size>)
    returns (delivered: seq<Event<R>>)
    ensures Settled(MapEvents(f, EventsOf(script)), react, Never, Sum(requests), delivered)
  {
    var received;
    delivered, received := Chains.Run(script, Map(f), react, requests);
    assert Map(f).MapAll(requests) == requests;
    MapIsTransparent(f, EventsOf(script), react, Sum(requests), received);
  }

  /** An end marker comes last and only last. */
  ghost predicate WellFormed<T>(events: seq<Event<T>>) {
    events != [] && forall k :: 0 <= k < |events| ==> (events[k].End? <==> k == |events| - 1)
  }

  /** A function that returns an error does not end the base: the mapped stream is well-formed
      exactly if the function returns a value for every element. */
  lemma MapIsWellFormedExactly<T, R>(f: T -> Event<R>, script: Script<T>)
    ensures WellFormed(MapEvents(f, EventsOf(script))) <==> forall k :: 0 <= k < |script.values| ==> f(script.values[k]).Next?
  {
    var mapped := MapEvents(f, EventsOf(script));
    assert mapped[|script.values|].End?;
    forall k | 0 <= k < |script.values|
      ensures mapped[k] == f(script.values[k])
    {
    }
  }

  /** A function that fails on its first element: the stream ends twice. */
  lemma MapEndsTwice()
    ensures var f := (x: int) => if x == 0 then End(Error(3)) else Next(x);
            MapEvents(f, EventsOf(Script([0, 1], Done))) == [End(Error(3)), Next(1), End(Done)]
  {
  }
}
