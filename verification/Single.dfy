/** Singles: publishers of which only the first event matters, and chains of them. */
module Singles {
  import opened RequestBalances
  import opened Events
  import opened FlatMaps
  import opened Binds
  import opened P = Pipelines
  import opened PipelineLaws

  /** The subscriber that Single::Subscribe makes, and what its listener is called with. */
  class Listener<T> {
    var called: bool
    var heard: seq<Event<T>>

    constructor ()
      ensures !called && heard == []
    {
      called, heard := false, [];
    }

    /** Whether the subscription is cancelled at the end. */
    method OnNext(next: Event<T>) returns (cancels: bool)
      modifies this
      ensures heard == old(heard) + (if next != End(Done) then [next]
                                     else if old(called) then [] else [End(Error(FAILED_PRECONDITION))])
      ensures called && (cancels <==> next.Next?)
    {
      cancels := false;
      if next.End? && next.status.Done? {
        if !called {
          called := true;
          heard := heard + [End(Error(FAILED_PRECONDITION))];
        }
        return;
      }
      called := true;
      heard := heard + [next];
      if next.Next? {
        cancels := true;
      }
    }
  }

  /** What the listener of a single hears: the first element, the error, or that there is neither. */
  function Outcome<T>(publisher: Script<T>): Event<T> {
    if publisher.values != [] then Next(publisher.values[0])
    else if publisher.end.Error? then End(publisher.end)
    else End(Error(FAILED_PRECONDITION))
  }

  /** The subscriber requests one event in OnSubscribe and nothing in its callbacks. */
  function Silent<T>(): Reaction<T> {
    (history: seq<Event<T>>) => []
  }

  /** It cancels in the callback for an element. */
  function AtElement<T>(): Quitting<T> {
    When((history: seq<Event<T>>) => history != [] && history[|history| - 1].Next?)
  }

  /** Strict flow control towards such a subscriber is to deliver the first event of the stream to it
      and nothing else. */
  lemma OnlyFirst<T>(events: seq<Event<T>>, delivered: seq<Event<T>>)
    requires 0 < |events|
    requires events[0].End? ==> |events| == 1
    ensures Settled(events, Silent(), AtElement(), 1, delivered) <==> delivered == [events[0]]
  {
    assert events[..1] == [events[0]];
    if Settled(events, Silent(), AtElement(), 1, delivered) && |delivered| > 1 {
      EarnedAt(events, Silent(), AtElement(), 1, |delivered|, 1);
    }
    assert Earned(events, Silent(), AtElement(), 1, 1) by {
      assert Demand(events, Silent(), 1, 0) == 1;
    }
    assert events[0].Next? ==> Quit(events, AtElement(), 1);
  }

  /** The stream of the single before it has delivered anything. */
  ghost predicate Awaited<T>(publisher: Publisher<(), T>, stream: Stream<(), T>) {
    Good(stream) && Ending(stream) && Left(stream) == Meaning(publisher) && Demanded(stream) == 1
  }

  lemma FirstRequest<T>(publisher: Publisher<(), T>)
    requires Ends(publisher)
    ensures Awaited(publisher, Request(Subscribed(publisher), 1))
  {
    SubscribedIsGood(publisher);
    SubscribedMeans(publisher);
    RequestServes(Subscribed(publisher), 1);
    RequestWaits(Subscribed(publisher), 1);
  }

  /** Each round leaves fewer of them, until there is the first event. */
  ghost predicate Nears<T>(publisher: Publisher<(), T>, stream: Stream<(), T>, round: Round<(), T>) {
    match round
    case Silent(_, next) => Awaited(publisher, next) && Work(next) < Work(stream)
    case Emit(_, event, _) => event == EventsOf(Meaning(publisher))[0]
    case _ => false
  }

  lemma AwaitedRound<T>(publisher: Publisher<(), T>, stream: Stream<(), T>)
    requires Awaited(publisher, stream)
    ensures Running(stream) && Nears(publisher, stream, Advance((), stream))
  {
    DemandRuns(stream);
    AdvanceIsStrict((), stream);
    AdvanceTells(stream);
  }

  /** A single subscribed by its listener, which is called exactly once. */
  method Subscribe<T>(publisher: Publisher<(), T>) returns (delivered: seq<Event<T>>, heard: seq<Event<T>>)
    requires Ends(publisher)
    ensures Settled(EventsOf(Meaning(publisher)), Silent(), AtElement(), 1, delivered)
    ensures heard == [Outcome(Meaning(publisher))]
  {
    var listener := new Listener<T>();
    var stream, alive := Request(Subscribed(publisher), 1), true;
    delivered := [];
    FirstRequest(publisher);
    while alive && Running(stream)
      invariant fresh(listener)
      invariant alive ==> Awaited(publisher, stream) && delivered == listener.heard == [] && !listener.called
      invariant !alive ==> delivered == [EventsOf(Meaning(publisher))[0]] && listener.heard == [Outcome(Meaning(publisher))]
      decreases alive, Work(stream)
    {
      AwaitedRound(publisher, stream);
      match Advance((), stream) {
        case Silent(_, next) => stream := next;
        case Emit(_, event, next) =>
          stream, delivered := next, delivered + [event];
          var cancels := listener.OnNext(event);
          assert cancels <==> Leaves(AtElement(), delivered);
          if cancels || event.End? {
            alive := false;
          }
      }
    }
    if alive {
      AwaitedRound(publisher, stream);
    }
    OnlyFirst(EventsOf(Meaning(publisher)), delivered);
    heard := listener.heard;
  }

  // ----- chains of ContinueWith -----

  /** A function that shares no state. */
  function Alone<T>(func: T -> Publisher<(), T>): ((), T) -> Publisher<(), T> {
    (world: (), value: T) => func(value)
  }

  function ContinueWith<T>(publisher: Publisher<(), T>, func: T -> Publisher<(), T>, rank: nat): Publisher<(), T> {
    FlatMapped(publisher, Alone(func), rank)
  }

  /** The single continued with the functions, one after the other. */
  function ContinueWithAll<T>(publisher: Publisher<(), T>, funcs: seq<T -> Publisher<(), T>>, rank: nat): Publisher<(), T> {
    if funcs == [] then publisher
    else ContinueWith(ContinueWithAll(publisher, funcs[..|funcs| - 1], rank), funcs[|funcs| - 1], rank)
  }

  function Means<T>(func: T -> Publisher<(), T>): T -> Script<T> {
    (value: T) => Meaning(func(value))
  }

  /** The composition of a publisher with what the functions stand for. */
  function Composed<T>(script: Script<T>, funcs: seq<T -> Publisher<(), T>>): Script<T> {
    if funcs == [] then script else Bind(Composed(script, funcs[..|funcs| - 1]), Means(funcs[|funcs| - 1]))
  }

  lemma {:induction false} BindAgrees<T, R>(script: Script<T>, func: T -> Script<R>, other: T -> Script<R>)
    requires forall i :: 0 <= i < |script.values| ==> func(script.values[i]) == other(script.values[i])
    ensures Bind(script, func) == Bind(script, other)
    decreases |script.values|
  {
    if script.values != [] {
      BindAgrees(script.(values := script.values[1..]), func, other);
    }
  }

  lemma ContinueWithMeans<T>(publisher: Publisher<(), T>, func: T -> Publisher<(), T>, rank: nat)
    requires Ends(ContinueWith(publisher, func, rank))
    ensures Ends(publisher) && Meaning(ContinueWith(publisher, func, rank)) == Bind(Meaning(publisher), Means(func))
  {
    BindAgrees(Meaning(publisher), Continued(Alone(func), rank), Means(func));
  }

  /** A chain of flat maps, each the base of the next, stands for the composition. */
  lemma {:induction false} ChainMeans<T>(publisher: Publisher<(), T>, funcs: seq<T -> Publisher<(), T>>, rank: nat)
    requires Ends(ContinueWithAll(publisher, funcs, rank))
    ensures Ends(publisher) && Meaning(ContinueWithAll(publisher, funcs, rank)) == Composed(Meaning(publisher), funcs)
  {
    if funcs != [] {
      ContinueWithMeans(ContinueWithAll(publisher, funcs[..|funcs| - 1], rank), funcs[|funcs| - 1], rank);
      ChainMeans(publisher, funcs[..|funcs| - 1], rank);
    }
  }

  /** A chain of singles calls its listener exactly once, with the outcome of the composition. */
  method SubscribeContinued<T>(publisher: Publisher<(), T>, funcs: seq<T -> Publisher<(), T>>, rank: nat)
    returns (heard: seq<Event<T>>)
    requires Ends(ContinueWithAll(publisher, funcs, rank))
    ensures heard == [Outcome(Composed(Meaning(publisher), funcs))]
  {
    var delivered;
    delivered, heard := Subscribe(ContinueWithAll(publisher, funcs, rank));
    ChainMeans(publisher, funcs, rank);
  }

  /** Two numbers, one continued by the next and that by its double. */
  function Successor(): int -> Publisher<(), int> {
    (x: int) => Generated(Just(x + 1))
  }

  function Double(): int -> Publisher<(), int> {
    (x: int) => Generated(Just(2 * x))
  }

  function Failing(code: nat): int -> Publisher<(), int> {
    (x: int) => Generated(Script([], Error(code)))
  }

  /** The functions of a chain are applied in their order, and none of them after an error. */
  method ContinueExample(x: int, code: nat) returns (heard: seq<Event<int>>, failed: seq<Event<int>>)
    ensures heard == [Next(2 * (x + 1))]
    ensures failed == [End(Error(code))]
  {
    var one: Publisher<(), int> := Generated(Just(x));
    ChainOfThree(Just(x), Successor(), Double(), Successor());
    LeftIdentity(x, Means(Successor()));
    LeftIdentity(x + 1, Means(Double()));
    LeftIdentity(x + 1, Means(Failing(code)));
    ErrorIsFinal(code, Means(Double()));
    EndsThroughout(one, [Successor(), Double()]);
    EndsThroughout(one, [Successor(), Failing(code), Double()]);
    heard := SubscribeContinued(one, [Successor(), Double()], 1);
    ChainOfThree(Just(x), Successor(), Failing(code), Double());
    failed := SubscribeContinued(one, [Successor(), Failing(code), Double()], 1);
  }

  lemma ChainOfThree<T>(script: Script<T>, first: T -> Publisher<(), T>, second: T -> Publisher<(), T>,
                        third: T -> Publisher<(), T>)
    ensures Composed(script, [first, second]) == Bind(Bind(script, Means(first)), Means(second))
    ensures Composed(script, [first, second, third]) == Bind(Bind(Bind(script, Means(first)), Means(second)), Means(third))
  {
    var three, two, one := [first, second, third], [first, second], [first];
    assert three[..2] == two && two[..1] == one && one[..0] == [];
    assert Composed(script, one) == Bind(Composed(script, one[..0]), Means(first));
    assert Composed(script, two) == Bind(Composed(script, two[..1]), Means(second));
    assert Composed(script, three) == Bind(Composed(script, three[..2]), Means(third));
  }

  ghost predicate Generates(func: int -> Publisher<(), int>) {
    forall x :: func(x).Generated?
  }

  lemma GeneratesAt(func: int -> Publisher<(), int>, x: int)
    requires Generates(func)
    ensures func(x).Generated? && Alone(func)((), x).Generated?
  {
  }

  /** A chain of functions that return generated publishers. */
  lemma {:induction false} EndsThroughout(publisher: Publisher<(), int>, funcs: seq<int -> Publisher<(), int>>)
    requires Ends(publisher) && forall i :: 0 <= i < |funcs| ==> Generates(funcs[i])
    ensures Ends(ContinueWithAll(publisher, funcs, 1))
  {
    if funcs != [] {
      var last := funcs[|funcs| - 1];
      EndsThroughout(publisher, funcs[..|funcs| - 1]);
      var values := Meaning(ContinueWithAll(publisher, funcs[..|funcs| - 1], 1)).values;
      forall i | 0 <= i < |values|
        ensures Rank(Alone(last)((), values[i])) < 1 && Ends(Alone(last)((), values[i]))
      {
        GeneratesAt(last, values[i]);
      }
    }
  }

  /** Nothing continues an error. */
  lemma {:induction false} ErrorPropagates<T>(code: nat, funcs: seq<T -> Publisher<(), T>>)
    ensures Composed(Script([], Error(code)), funcs) == Script([], Error(code))
  {
    if funcs != [] {
      ErrorPropagates(code, funcs[..|funcs| - 1]);
      ErrorIsFinal(code, Means(funcs[|funcs| - 1]));
    }
  }

  /** The function whose single is continued inside it. */
  function Inside<T>(func: T -> Publisher<(), T>, next: T -> Publisher<(), T>, rank: nat): T -> Publisher<(), T> {
    (value: T) => ContinueWith(func(value), next, rank)
  }

  /** It makes no difference whether a single is continued twice, the flat map being the base of
      another, or continued inside its function, the flat map being a continuation of another. */
  lemma ContinueInside<T>(publisher: Publisher<(), T>, func: T -> Publisher<(), T>, next: T -> Publisher<(), T>,
                          rank: nat, react: Reaction<T>, quits: Quitting<T>, outer: nat,
                          outside: seq<Event<T>>, inside: seq<Event<T>>)
    requires Ends(ContinueWith(ContinueWith(publisher, func, rank), next, rank))
    requires Ends(ContinueWith(publisher, Inside(func, next, rank), rank + 1))
    requires |Meaning(ContinueWith(ContinueWith(publisher, func, rank), next, rank)).values| < KMAX
    requires Settled(EventsOf(Meaning(ContinueWith(ContinueWith(publisher, func, rank), next, rank))),
                     react, quits, outer, outside)
    requires Settled(EventsOf(Meaning(ContinueWith(publisher, Inside(func, next, rank), rank + 1))),
                     react, quits, outer, inside)
    ensures outside == inside
  {
    Associates(publisher, func, next, rank);
    SettledIsDeterministic(EventsOf(Meaning(ContinueWith(ContinueWith(publisher, func, rank), next, rank))),
                           react, quits, outer, outside, inside);
  }

  lemma Associates<T>(publisher: Publisher<(), T>, func: T -> Publisher<(), T>, next: T -> Publisher<(), T>, rank: nat)
    requires Ends(ContinueWith(ContinueWith(publisher, func, rank), next, rank))
    requires Ends(ContinueWith(publisher, Inside(func, next, rank), rank + 1))
    ensures Meaning(ContinueWith(ContinueWith(publisher, func, rank), next, rank))
         == Meaning(ContinueWith(publisher, Inside(func, next, rank), rank + 1))
  {
    var script, inside := Meaning(publisher), Inside(func, next, rank);
    ContinueWithMeans(ContinueWith(publisher, func, rank), next, rank);
    ContinueWithMeans(publisher, func, rank);
    Associativity(script, Means(func), Means(next));
    ContinueWithMeans(publisher, inside, rank + 1);
    forall i | 0 <= i < |script.values|
      ensures Means(inside)(script.values[i]) == Then(Means(func), Means(next))(script.values[i])
    {
      assert Ends(Alone(inside)((), script.values[i]));
      ContinueWithMeans(func(script.values[i]), next, rank);
    }
    BindAgrees(script, Means(inside), Then(Means(func), Means(next)));
  }

  // ----- the flat map class -----

  function GeneratedBy<T>(func: T -> Script<T>): T -> Publisher<(), T> {
    (value: T) => Generated(func(value))
  }

  /** The flat map stream as a class, over generated streams, delivers what this flat map delivers. */
  lemma FlatMapStreamIsPipeline<T>(script: Script<T>, func: T -> Script<T>, react: Reaction<T>, quits: Quitting<T>,
                                   outer: nat, one: seq<Event<T>>, other: seq<Event<T>>)
    requires |Bind(script, func).values| < KMAX
    requires Settled(Flatten(script, (history: seq<Event<T>>, value: T) => func(value)), react, quits, outer, one)
    requires Settled(EventsOf(Meaning(ContinueWith(Generated(script), GeneratedBy(func), 1))),
                     react, quits, outer, other)
    ensures one == other
  {
    FlatMapIsBind(script, func);
    ContinueWithMeans(Generated(script), GeneratedBy(func), 1);
    BindAgrees(script, Means(GeneratedBy(func)), func);
    SettledIsDeterministic(EventsOf(Bind(script, func)), react, quits, outer, one, other);
  }
}
