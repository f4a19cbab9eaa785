/** What the pipelines deliver whose functions share no state: the composition of their publishers,
    however deeply flat maps are nested on either side. */
module PipelineLaws {
  import opened RequestBalances
  import opened Events
  import opened Generators
  import opened Binds
  import opened Mapping
  import opened Pipelines

  // ----- what a publisher stands for -----

  /** How deeply the publishers that its functions return are nested. */
  function Rank<T>(publisher: Publisher<(), T>): nat {
    match publisher
    case Generated(_) => 0
    case Endless(_) => 0
    case FlatMapped(base, _, rank) => if Rank(base) < rank then rank else Rank(base)
    case Mapped(base, _) => Rank(base)
  }

  function Height<T>(publisher: Publisher<(), T>): nat {
    match publisher
    case Generated(_) => 0
    case Endless(_) => 0
    case FlatMapped(base, _, _) => Height(base) + 1
    case Mapped(base, _) => Height(base) + 1
  }

  /** The elements and the end of a publisher that ends. */
  function Meaning<T>(publisher: Publisher<(), T>): Script<T>
    decreases Rank(publisher), Height(publisher)
  {
    match publisher
    case Generated(script) => script
    case Endless(_) => Script([], Done)
    case FlatMapped(base, func, rank) => Bind(Meaning(base), Continued(func, rank))
    case Mapped(base, action) => Bind(Meaning(base), Acted(action))
  }

  /** What the function of a flat map makes of an element. */
  function Continued<T>(func: ((), T) -> Publisher<(), T>, rank: nat): T -> Script<T>
    decreases rank, 0
  {
    (value: T) => if Rank(func((), value)) < rank then Meaning(func((), value)) else Script([], Done)
  }

  /** What the function of a map makes of an element. */
  function Acted<T>(action: ((), T) -> ((), T)): T -> Script<T> {
    (value: T) => Just(action((), value).1)
  }

  /** The publisher ends, and so does each that continues one of its elements; none of these is
      nested deeper than was said. */
  ghost predicate Ends<T>(publisher: Publisher<(), T>)
    decreases Rank(publisher), Height(publisher)
  {
    match publisher
    case Generated(_) => true
    case Endless(_) => false
    case FlatMapped(base, func, rank) => Ends(base) && AllEnd(Meaning(base).values, func, rank)
    case Mapped(base, _) => Ends(base)
  }

  ghost predicate AllEnd<T>(values: seq<T>, func: ((), T) -> Publisher<(), T>, rank: nat)
    decreases rank, 0
  {
    forall i :: 0 <= i < |values| ==> Rank(func((), values[i])) < rank && Ends(func((), values[i]))
  }

  // ----- what a stream has yet to deliver -----

  function Tail<T>(script: Script<T>): Script<T>
    requires script.values != []
  {
    script.(values := script.values[1..])
  }

  function Left<T>(s: Stream<(), T>): Script<T> {
    match s
    case Generating(source) =>
      if source.index <= |source.script.values| then source.script.(values := source.script.values[source.index..])
      else Script([], Done)
    case Counting(_, _, _, _) => Script([], Done)
    case FlatMapping(base, func, rank, _, _, cont, _) =>
      var rest := Bind(Left(base), Continued(func, rank));
      if cont.Some? then Followed(Left(cont.value), rest) else rest
    case Mapping(inner, action) => Bind(Left(inner), Acted(action))
  }

  ghost predicate Ending<T>(s: Stream<(), T>) {
    match s
    case Generating(_) => true
    case Counting(_, _, _, _) => false
    case FlatMapping(base, func, rank, _, _, cont, _) =>
      Ending(base) && AllEnd(Left(base).values, func, rank) && (cont.Some? ==> Ending(cont.value))
    case Mapping(inner, _) => Ending(inner)
  }

  // ----- how many rounds are left to it -----

  function Cost<T>(publisher: Publisher<(), T>): nat
    decreases Rank(publisher), Height(publisher), 0
  {
    match publisher
    case Generated(script) => |script.values| + 1
    case Endless(_) => 0
    case FlatMapped(base, func, rank) => Cost(base) + Costs(Meaning(base).values, func, rank)
    case Mapped(base, _) => Cost(base)
  }

  function Costs<T>(values: seq<T>, func: ((), T) -> Publisher<(), T>, rank: nat): nat
    decreases rank, 0, |values|
  {
    if values == [] then 0 else
      (if Rank(func((), values[0])) < rank then Cost(func((), values[0])) else 0) + 3 + Costs(values[1..], func, rank)
  }

  function Work<T>(s: Stream<(), T>): nat {
    match s
    case Generating(source) => (if source.Valid() then source.Remaining() else 0) + (if Running(s) then 1 else 0)
    case Counting(_, _, _, _) => 0
    case FlatMapping(base, func, rank, _, _, cont, _) =>
      Work(base) + Costs(Left(base).values, func, rank) + (if cont.Some? then Work(cont.value) + 2 else 0)
    case Mapping(inner, _) => Work(inner)
  }

  lemma {:induction false} SubscribedMeans<T>(publisher: Publisher<(), T>)
    ensures var s := Subscribed(publisher);
            Left(s) == Meaning(publisher) && Work(s) == Cost(publisher) && (Ends(publisher) ==> Ending(s))
  {
    match publisher
    case Generated(script) => assert script.values[0..] == script.values;
    case FlatMapped(base, _, _) => SubscribedMeans(base);
    case Mapped(base, _) => SubscribedMeans(base);
    case _ =>
  }

  // ----- rounds and requests -----

  /** A round delivers the first of what is left, and leaves fewer rounds. */
  ghost predicate Tells<T>(s: Stream<(), T>, round: Round<(), T>) {
    match round
    case Silent(_, next) => Ending(next) && Left(next) == Left(s) && Work(next) < Work(s)
    case Emit(_, Next(value), next) =>
      && Ending(next) && Work(next) < Work(s)
      && Left(s).values != [] && value == Left(s).values[0] && Left(next) == Tail(Left(s))
    case Emit(_, End(status), _) => Left(s) == Script([], status)
    case Rest => true
    case Abort => true
  }

  /** A request changes nothing of what is left; it may add the round in which the loop ends. */
  ghost predicate Waits<T>(s: Stream<(), T>, next: Stream<(), T>) {
    && Ending(next) && Left(next) == Left(s)
    && Work(next) <= Work(s) + if Calling(s) then 0 else 1
  }

  lemma {:induction false} RequestWaits<T>(s: Stream<(), T>, tokens: Size)
    requires Good(s) && Callable(s) && Ending(s)
    ensures Waits(s, Request(s, tokens))
  {
    match s
    case FlatMapping(base, _, _, balance, _, cont, _) =>
      FlatMapForwards(s);
      if cont.None? {
        RequestWaits(base, 1);
      } else {
        FlatMapPassesOn(s, tokens);
        if balance < Plus(balance, tokens) {
          RequestWaits(cont.value, Plus(balance, tokens) - balance);
        }
      }
    case Mapping(inner, _) => RequestWaits(inner, tokens);
    case _ =>
  }

  lemma {:induction false} AdvanceTells<T>(s: Stream<(), T>)
    requires Good(s) && Ending(s)
    ensures Tells(s, Advance((), s))
  {
    match s
    case Generating(source) =>
    case FlatMapping(base, _, _, _, _, cont, _) =>
      AdvanceTells(base);
      AdvanceIsStrict((), base);
      if cont.Some? {
        AdvanceTells(cont.value);
        AdvanceIsStrict((), cont.value);
      }
      FlatMapTells(s);
    case Mapping(inner, _) =>
      AdvanceTells(inner);
      MapTells(s, Advance((), inner));
  }

  /** A flat map delivers the composition if its base and its active continuation deliver what they
      stand for, whatever streams they are. */
  lemma FlatMapTells<T>(s: Stream<(), T>)
    requires Good(s) && Ending(s) && s.FlatMapping?
    requires Strict(s.base, Advance((), s.base)) && Tells(s.base, Advance((), s.base))
    requires s.cont.Some? ==> Strict(s.cont.value, Advance((), s.cont.value)) && Tells(s.cont.value, Advance((), s.cont.value))
    ensures Tells(s, Advance((), s))
  {
    if s.cont.Some? && Running(s.cont.value) {
      ContTells(s, Advance((), s.cont.value));
    } else if Running(s.base) {
      BaseTells(s, Advance((), s.base));
    }
  }

  lemma ContTells<T>(s: Stream<(), T>, round: Round<(), T>)
    requires Good(s) && Ending(s) && s.FlatMapping? && s.cont.Some? && Running(s.cont.value)
    requires Strict(s.cont.value, round) && Tells(s.cont.value, round)
    ensures Tells(s, OnNextCont(s, round))
  {
    if round.Emit? && round.event == End(Done) {
      RequestWaits(s.base, 1);
    }
  }

  lemma BaseTells<T>(s: Stream<(), T>, round: Round<(), T>)
    requires Good(s) && Ending(s) && s.FlatMapping? && Running(s.base)
    requires Strict(s.base, round) && Tells(s.base, round)
    requires s.cont.Some? ==> !Running(s.cont.value)
    ensures Tells(s, OnNext(s, round))
  {
    BaseIsStrict(s, round);
    if round.Emit? && round.event.Next? {
      assert round.world == ();
      var value, rank := round.event.value, s.rank;
      var publisher := s.func((), value);
      assert Rank(publisher) < rank && Ends(publisher);
      ContinuesWith(publisher, s.requestBalance);
      TailEnds(Left(s.base).values, s.func, rank);
      assert Bind(Left(s.base), Continued(s.func, rank))
          == Followed(Meaning(publisher), Bind(Tail(Left(s.base)), Continued(s.func, rank)));
    }
  }

  lemma TailEnds<T>(values: seq<T>, func: ((), T) -> Publisher<(), T>, rank: nat)
    requires values != [] && AllEnd(values, func, rank)
    ensures AllEnd(values[1..], func, rank)
    ensures Costs(values, func, rank) == Cost(func((), values[0])) + 3 + Costs(values[1..], func, rank)
  {
  }

  /** The stream of a continuation, once the flat map has asked it for all that is demanded. */
  lemma ContinuesWith<T>(publisher: Publisher<(), T>, tokens: Size)
    requires Ends(publisher) && tokens > 0
    ensures var s := Request(Subscribed(publisher), tokens);
            Ending(s) && Left(s) == Meaning(publisher) && Work(s) <= Cost(publisher) + 1
  {
    SubscribedIsGood(publisher);
    SubscribedMeans(publisher);
    RequestWaits(Subscribed(publisher), tokens);
  }

  lemma MapTells<T>(s: Stream<(), T>, round: Round<(), T>)
    requires Good(s) && Ending(s) && s.Mapping? && Tells(s.inner, round)
    ensures Tells(s, OnNextMapped(s, round))
  {
    if round.Emit? && round.event.Next? {
      assert round.world == ();
      var mapped := s.action((), round.event.value).1;
      JustFollowed(mapped, Bind(Tail(Left(s.inner)), Acted(s.action)));
    }
  }

  lemma JustFollowed<T>(value: T, rest: Script<T>)
    ensures var both := Followed(Just(value), rest);
            both.values != [] && both.values[0] == value && Tail(both) == rest
  {
  }

  // ----- maps -----

  /** A map delivers the result of its action for each element of its base, and the end of its base. */
  lemma {:induction false} MapMeans<T>(base: Publisher<(), T>, action: ((), T) -> ((), T))
    ensures var events, mapped := EventsOf(Meaning(base)), EventsOf(Meaning(Mapped(base, action)));
            && |mapped| == |events|
            && (forall k :: 0 <= k < |mapped| ==>
                  mapped[k] == if events[k].Next? then Next(action((), events[k].value).1) else events[k])
  {
    BindActs(Meaning(base), action);
  }

  lemma {:induction false} BindActs<T>(script: Script<T>, action: ((), T) -> ((), T))
    ensures var acted := Bind(script, Acted(action));
            && acted.end == script.end && |acted.values| == |script.values|
            && (forall k :: 0 <= k < |script.values| ==> acted.values[k] == action((), script.values[k]).1)
    decreases |script.values|
  {
    if script.values != [] {
      BindActs(Tail(script), action);
      JustFollowed(action((), script.values[0]).1, Bind(Tail(script), Acted(action)));
    }
  }

  /** The map stream as a class, over generated streams, delivers what this map delivers. */
  lemma MapStreamIsPipeline<T>(script: Script<T>, f: T -> T, react: Reaction<T>, outer: nat,
                               one: seq<Event<T>>, other: seq<Event<T>>)
    requires |script.values| < KMAX
    requires Settled(MapEvents((value: T) => Next(f(value)), EventsOf(script)), react, Never, outer, one)
    requires Settled(EventsOf(Meaning(Mapped(Generated(script), (world: (), value: T) => (world, f(value))))),
                     react, Never, outer, other)
    ensures one == other
  {
    var each, action := (value: T) => Next(f(value)), (world: (), value: T) => (world, f(value));
    MapMeans(Generated(script), action);
    MapsValues(each, script);
    assert MapEvents(each, EventsOf(script)) == EventsOf(Meaning(Mapped(Generated(script), action)));
    SettledIsDeterministic(MapEvents(each, EventsOf(script)), react, Never, outer, one, other);
  }

  // ----- a request for nothing -----

  /** The flat map has asked its base for an element that nobody requested. */
  ghost predicate Owing<T>(s: Stream<(), T>) {
    match s
    case FlatMapping(base, _, _, balance, _, cont, over) =>
      !over && cont.None? && balance == 0 && Good(base) && Demanded(base) == 1
    case Mapping(inner, _) => Owing(inner)
    case _ => false
  }

  /** Before a continuation is active nothing is demanded. */
  predicate Between<T>(s: Stream<(), T>) {
    match s
    case FlatMapping(_, _, _, _, _, cont, _) => cont.None?
    case Mapping(inner, _) => Between(inner)
    case _ => false
  }

  /** At rest, a request of zero makes a flat map without an active continuation ask its base for an
      element; any other pipeline has nothing to do. */
  lemma {:induction false} ZeroRequest<T>(s: Stream<(), T>)
    requires Good(s) && Ending(s) && !Running(s)
    ensures var next := Request(s, 0);
            Demanded(s) == Demanded(next) == 0 && Waits(s, next) && if Between(s) then Owing(next) else Good(next)
  {
    if Demanded(s) > 0 {
      DemandRuns(s);
    }
    match s
    case FlatMapping(base, _, _, _, _, cont, _) =>
      FlatMapForwards(s);
      if cont.Some? {
        FlatMapPassesOn(s, 0);
      } else {
        RequestServes(base, 1);
        RequestWaits(base, 1);
      }
    case Mapping(inner, _) => ZeroRequest(inner);
    case _ =>
  }

  /** What becomes of it: the next element of the base is subscribed to and nothing is demanded, as strict
      flow control allows; or there is none, and the end marker is delivered without any demand. */
  ghost predicate Repays<T>(s: Stream<(), T>, round: Round<(), T>) {
    match round
    case Silent(_, next) =>
      && Ending(next) && Left(next) == Left(s) && Work(next) < Work(s)
      && Demanded(next) == 0 && (Owing(next) || Good(next))
    case Emit(_, End(status), _) => Left(s) == Script([], status)
    case _ => false
  }

  lemma {:induction false} OwingRepays<T>(s: Stream<(), T>)
    requires Owing(s) && Ending(s)
    ensures Repays(s, Advance((), s)) && Running(s)
  {
    match s
    case FlatMapping(base, _, _, _, _, _, _) =>
      DemandRuns(base);
      AdvanceIsStrict((), base);
      AdvanceTells(base);
      FlatMapRepays(s, Advance((), base));
    case Mapping(inner, _) => OwingRepays(inner);
    case _ =>
  }

  lemma FlatMapRepays<T>(s: Stream<(), T>, round: Round<(), T>)
    requires Owing(s) && Ending(s) && s.FlatMapping? && Strict(s.base, round) && Tells(s.base, round) && Running(s.base)
    ensures Repays(s, OnNext(s, round))
  {
    assert round.Silent? || round.Emit? ==> round.world == ();
    if round.Emit? && round.event.Next? {
      var publisher := s.func((), round.event.value);
      assert Rank(publisher) < s.rank && Ends(publisher);
      SubscribedIsGood(publisher);
      SubscribedMeans(publisher);
      TailEnds(Left(s.base).values, s.func, s.rank);
      assert Bind(Left(s.base), Continued(s.func, s.rank))
          == Followed(Meaning(publisher), Bind(Tail(Left(s.base)), Continued(s.func, s.rank)));
    }
  }
}
