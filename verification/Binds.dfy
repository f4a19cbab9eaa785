/** Sequential composition of publishers, which is what a flat map delivers, and its laws. */
module Binds {
  import opened RequestBalances
  import opened Events
  import opened FlatMaps

  /** The elements of both publishers, or those of the first and its error. */
  function Followed<T>(first: Script<T>, rest: Script<T>): Script<T> {
    if first.end.Error? then first else Script(first.values + rest.values, rest.end)
  }

  /** The elements of the continuations of all elements, up to the first error. */
  function Bind<T, R>(publisher: Script<T>, func: T -> Script<R>): Script<R>
    decreases |publisher.values|
  {
    if publisher.values == [] then Script([], publisher.end) else
      Followed(func(publisher.values[0]), Bind(publisher.(values := publisher.values[1..]), func))
  }

  /** A publisher that produces one element. */
  function Just<T>(value: T): Script<T> {
    Script([value], Done)
  }

  function Then<T, R, S>(func: T -> Script<R>, next: R -> Script<S>): T -> Script<S> {
    (value: T) => Bind(func(value), next)
  }

  /** A flat map delivers what composition says. */
  lemma FlatMapIsBind<T, R>(publisher: Script<T>, func: T -> Script<R>)
    ensures Flatten(publisher, (history: seq<Event<R>>, value: T) => func(value)) == EventsOf(Bind(publisher, func))
  {
    FlattenIsConcatenation(publisher, func, 0, []);
    BindConcatenates(publisher, func);
  }

  /** Towards any subscriber, a flat map is a publisher like any other: no run tells it from the one
      that generates its events. */
  lemma FlatMapActsAsPublisher<T, R>(publisher: Script<T>, func: T -> Script<R>, react: Reaction<R>, quits: Quitting<R>,
                                     outer: nat, mapped: seq<Event<R>>, generated: seq<Event<R>>)
    requires |Bind(publisher, func).values| < KMAX
    requires Settled(Flatten(publisher, (history: seq<Event<R>>, value: T) => func(value)), react, quits, outer, mapped)
    requires Settled(EventsOf(Bind(publisher, func)), react, quits, outer, generated)
    ensures mapped == generated
  {
    FlatMapIsBind(publisher, func);
    SettledIsDeterministic(EventsOf(Bind(publisher, func)), react, quits, outer, mapped, generated);
  }

  lemma {:induction false} BindConcatenates<T, R>(publisher: Script<T>, func: T -> Script<R>)
    ensures Concatenated(Outputs(func, publisher.values, 0), publisher.end) == EventsOf(Bind(publisher, func))
    decreases |publisher.values|
  {
    if publisher.values != [] {
      var outputs, tail := Outputs(func, publisher.values, 0), publisher.(values := publisher.values[1..]);
      BindConcatenates(tail, func);
      assert outputs[1..] == Outputs(func, tail.values, 0);
      var first := func(publisher.values[0]);
      assert outputs[0] == first;
    }
  }

  /** Composition is short-circuiting bind: nothing continues an error ... */
  lemma ErrorIsFinal<T, R>(code: nat, func: T -> Script<R>)
    ensures Bind(Script([], Error(code)), func) == Script([], Error(code))
  {
  }

  /** ... an element is continued by what the function makes of it ... */
  lemma LeftIdentity<T, R>(value: T, func: T -> Script<R>)
    ensures Bind(Just(value), func) == func(value)
  {
    assert Just(value).values[1..] == [];
    assert func(value).values + [] == func(value).values;
  }

  lemma {:induction false} RightIdentity<T>(publisher: Script<T>)
    ensures Bind(publisher, (value: T) => Just(value)) == publisher
    decreases |publisher.values|
  {
    if publisher.values != [] {
      RightIdentity(publisher.(values := publisher.values[1..]));
      assert publisher.values == [publisher.values[0]] + publisher.values[1..];
    }
  }

  /** ... and it is associative, for publishers of any number of elements. */
  lemma {:induction false} Associativity<T, R, S>(publisher: Script<T>, func: T -> Script<R>, next: R -> Script<S>)
    ensures Bind(Bind(publisher, func), next) == Bind(publisher, Then(func, next))
    decreases |publisher.values|
  {
    if publisher.values != [] {
      var first, tail := func(publisher.values[0]), publisher.(values := publisher.values[1..]);
      if first.end.Done? {
        Associativity(tail, func, next);
        BindOfBoth(first.values, Bind(tail, func), next);
        assert first == Script(first.values, Done);
      } else {
        ErrorRemains(first, next);
      }
    }
  }

  lemma {:induction false} ErrorRemains<T, R>(publisher: Script<T>, func: T -> Script<R>)
    requires publisher.end.Error?
    ensures Bind(publisher, func).end.Error?
    decreases |publisher.values|
  {
    if publisher.values != [] {
      ErrorRemains(publisher.(values := publisher.values[1..]), func);
    }
  }

  /** Composition of a publisher that produces `values` and goes on like `rest`. */
  lemma {:induction false} BindOfBoth<R, S>(values: seq<R>, rest: Script<R>, next: R -> Script<S>)
    ensures var some, others := Bind(Script(values, Done), next), Bind(rest, next);
            Bind(Script(values + rest.values, rest.end), next)
            == if some.end.Error? then some else Script(some.values + others.values, others.end)
    decreases |values|
  {
    var both := values + rest.values;
    if values != [] {
      BindOfBoth(values[1..], rest, next);
      assert both[1..] == values[1..] + rest.values;
      var first, some, others := next(values[0]), Bind(Script(values[1..], Done), next), Bind(rest, next);
      assert first.values + (some.values + others.values) == first.values + some.values + others.values;
    } else {
      assert both == rest.values;
      assert [] + Bind(rest, next).values == Bind(rest, next).values;
    }
  }
}
