/** Pipelines of any shape: publishers that are built from others, and the streams that a
    subscription to them makes. The streams know each other only by two calls, the request for
    events and the callback for an event, and whatever is built from streams that obey strict flow
    control obeys it as well.

    All calls are synchronous, so that the loops in execution are those of the streams that are
    running, and the innermost of them goes on. A round is one turn of that loop, up to the
    subscriber's callback. */
module Pipelines {
  import opened RequestBalances
  import opened Events
  import opened Generators

  const FAILED_PRECONDITION: nat := 9

  /** The functions of a pipeline may read what others of them have written: the world `W`. No
      publisher that the function of a flat map returns for an element is nested deeper than `rank`. */
  datatype Publisher<!W, !T> =
    | Generated(script: Script<T>)
    | Endless(next: nat -> T)
    | FlatMapped(base: Publisher<W, T>, func: (W, T) -> Publisher<W, T>, rank: nat)
    | Mapped(base: Publisher<W, T>, action: (W, T) -> (W, T))

  datatype Stream<!W, !T> =
    | Generating(source: Source<T>)
    | Counting(next: nat -> T, index: nat, requested: Size, generating: bool)
    | FlatMapping(base: Stream<W, T>, func: (W, T) -> Publisher<W, T>, rank: nat,
                  requestBalance: Size, contRequested: Size, cont: Option<Stream<W, T>>, over: bool)
    | Mapping(inner: Stream<W, T>, action: (W, T) -> (W, T))

  function Subscribed<W, T>(publisher: Publisher<W, T>): Stream<W, T> {
    match publisher
    case Generated(script) => Generating(Fresh(script))
    case Endless(next) => Counting(next, 0, 0, false)
    case FlatMapped(base, func, rank) => FlatMapping(Subscribed(base), func, rank, 0, 0, None, false)
    case Mapped(base, action) => Mapping(Subscribed(base), action)
  }

  /** Some loop of the stream is in execution. */
  predicate Running<W, T>(s: Stream<W, T>) {
    match s
    case Generating(source) => source.generating && !source.finished
    case Counting(_, _, _, generating) => generating
    case FlatMapping(base, _, _, _, _, cont, over) => !over && (Running(base) || (cont.Some? && Running(cont.value)))
    case Mapping(inner, _) => Running(inner)
  }

  /** The subscription's Request: loops are entered, or those in execution get more to do. */
  function Request<W, T>(s: Stream<W, T>, tokens: Size): Stream<W, T> {
    match s
    case Generating(source) => Generating(source.Grant(tokens).(generating := true))
    case Counting(_, _, requested, _) => s.(requested := Plus(requested, tokens), generating := true)
    case FlatMapping(base, _, _, balance, contRequested, cont, _) =>
      var total := Plus(balance, tokens);
      if cont.Some? then
        var delta := FromInt(total - contRequested);
        if delta > 0 then
          s.(requestBalance := total, contRequested := Plus(contRequested, delta), cont := Some(Request(cont.value, delta)))
        else s.(requestBalance := total)
      else s.(requestBalance := total, base := Request(base, 1))
    case Mapping(inner, _) => s.(inner := Request(inner, tokens))
  }

  /** What a round of the innermost loop does: nothing that shows, an event for the subscriber, or
      there is no such loop. Abort: the check of a RequestBalance has failed. */
  datatype Round<!W, !T> =
    | Silent(world: W, stream: Stream<W, T>)
    | Emit(world: W, event: Event<T>, stream: Stream<W, T>)
    | Rest
    | Abort

  function Advance<W, T>(world: W, s: Stream<W, T>): Round<W, T> {
    match s
    case Generating(source) =>
      if !Running(s) then Rest
      else if source.requested > 0 then Emit(world, source.Event(), Generating(source.Advance()))
      else Silent(world, Generating(source.(generating := false)))
    case Counting(next, index, requested, generating) =>
      if !generating then Rest
      else if requested > 0 then Emit(world, Next(next(index)), s.(index := index + 1, requested := Minus(requested, 1)))
      else Silent(world, s.(generating := false))
    case FlatMapping(base, _, _, _, _, cont, over) =>
      if over then Rest
      else if cont.Some? && Running(cont.value) then OnNextCont(s, Advance(world, cont.value))
      else if Running(base) then OnNext(s, Advance(world, base))
      else Rest
    case Mapping(inner, _) => OnNextMapped(s, Advance(world, inner))
  }

  /** The callback of a flat map for its base. */
  function OnNext<W, T>(s: Stream<W, T>, round: Round<W, T>): Round<W, T>
    requires s.FlatMapping?
  {
    match round
    case Silent(world, base) => Silent(world, s.(base := base))
    case Emit(world, End(status), base) => Emit(world, End(status), s.(base := base, over := true))
    case Emit(world, Next(value), base) =>
      if s.cont.Some? then Emit(world, End(Error(FAILED_PRECONDITION)), s.(base := base, over := true))
      else
        var subscribed := s.(base := base, contRequested := 0, cont := Some(Subscribed(s.func(world, value))));
        Silent(world, if s.requestBalance > 0 then Request(subscribed, 0) else subscribed)
    case Rest => Rest
    case Abort => Abort
  }

  /** The callback of a flat map for its active continuation. */
  function OnNextCont<W, T>(s: Stream<W, T>, round: Round<W, T>): Round<W, T>
    requires s.FlatMapping?
  {
    match round
    case Silent(world, cont) => Silent(world, s.(cont := Some(cont)))
    case Emit(world, Next(value), cont) =>
      if s.requestBalance == 0 || s.contRequested == 0 then Abort
      else Emit(world, Next(value), s.(requestBalance := Minus(s.requestBalance, 1),
                                       contRequested := Minus(s.contRequested, 1), cont := Some(cont)))
    case Emit(world, End(Done), _) =>
      var done := s.(cont := None);
      Silent(world, if s.requestBalance > 0 then Request(done, 0) else done)
    case Emit(world, End(Error(code)), _) => Emit(world, End(Error(code)), s.(cont := None, over := true))
    case Rest => Rest
    case Abort => Abort
  }

  /** The callback of a map. */
  function OnNextMapped<W, T>(s: Stream<W, T>, round: Round<W, T>): Round<W, T>
    requires s.Mapping?
  {
    match round
    case Silent(world, inner) => Silent(world, s.(inner := inner))
    case Emit(world, Next(value), inner) =>
      var (changed, mapped) := s.action(world, value);
      Emit(changed, Next(mapped), s.(inner := inner))
    case Emit(world, End(status), inner) => Emit(world, End(status), s.(inner := inner))
    case Rest => Rest
    case Abort => Abort
  }

  /** For each element of its base a map calls its action once, in the world that the base has left, and
      delivers the result in the world that the action has left. */
  lemma MapEmits<W, T>(world: W, inner: Stream<W, T>, action: (W, T) -> (W, T), before: W, value: T, next: Stream<W, T>)
    requires Advance(world, inner) == Emit(before, Next(value), next)
    ensures Advance(world, Mapping(inner, action))
         == Emit(action(before, value).0, Next(action(before, value).1), Mapping(next, action))
  {
    assert Advance(world, Mapping(inner, action)) == OnNextMapped(Mapping(inner, action), Advance(world, inner));
  }

  // ----- strict flow control -----

  /** What was requested from the stream and not delivered. */
  function Demanded<W, T>(s: Stream<W, T>): Size {
    match s
    case Generating(source) => source.requested
    case Counting(_, _, requested, _) => requested
    case FlatMapping(_, _, _, balance, _, _, _) => balance
    case Mapping(inner, _) => Demanded(inner)
  }

  /** A callback of the stream's subscriber is in execution: the loop that has made it is running,
      and a request only gives it more to do. */
  predicate Calling<W, T>(s: Stream<W, T>) {
    match s
    case Generating(source) => source.generating && !source.finished
    case Counting(_, _, _, generating) => generating
    case FlatMapping(_, _, _, _, _, cont, over) => !over && cont.Some? && Calling(cont.value)
    case Mapping(inner, _) => Calling(inner)
  }

  /** When the subscriber may request. */
  predicate Callable<W, T>(s: Stream<W, T>) {
    Running(s) ==> Calling(s)
  }

  /** The books of a stream that has not ended, whenever no event is on its way. A stream without
      a running loop has met its demand. */
  predicate Good<W, T>(s: Stream<W, T>) {
    match s
    case Generating(source) => source.Valid() && !source.finished && (source.requested > 0 ==> source.generating)
    case Counting(_, _, requested, generating) => requested > 0 ==> generating
    case FlatMapping(base, _, _, balance, contRequested, cont, over) =>
      && !over && Good(base)
      && (if cont.Some?
          then
            && Good(cont.value) && contRequested == balance == Demanded(cont.value)
            && Demanded(base) == 0 && (Running(cont.value) ==> Callable(base))
          else Demanded(base) == if balance > 0 then 1 else 0)
    case Mapping(inner, _) => Good(inner)
  }

  /** A round delivers an event only if it was requested, charges it to the demand, and leaves the
      subscriber free to request in its callback; the stream rests only if all demand is met. */
  predicate Strict<W, T>(s: Stream<W, T>, round: Round<W, T>) {
    match round
    case Silent(_, next) => Good(next) && Demanded(next) == Demanded(s)
    case Emit(_, event, next) =>
      && Demanded(s) > 0
      && (event.Next? ==> Good(next) && Calling(next) && Demanded(next) == Minus(Demanded(s), 1))
    case Rest => !Running(s) && Demanded(s) == 0
    case Abort => false
  }

  /** A request is added to the demand, and the stream runs; in a callback it can be followed by others. */
  predicate Serves<W, T>(s: Stream<W, T>, tokens: Size, next: Stream<W, T>) {
    && Good(next) && Running(next) && Demanded(next) == Plus(Demanded(s), tokens)
    && (Calling(s) ==> Calling(next))
  }

  predicate MayRequest<W, T>(s: Stream<W, T>, tokens: Size) {
    Good(s) && Callable(s) && (tokens > 0 || Running(s))
  }

  lemma {:induction false} CallingRuns<W, T>(s: Stream<W, T>)
    ensures Calling(s) ==> Running(s)
  {
    match s
    case FlatMapping(_, _, _, _, _, cont, _) =>
      if cont.Some? {
        CallingRuns(cont.value);
      }
    case Mapping(inner, _) => CallingRuns(inner);
    case _ =>
  }

  lemma {:induction false} DemandRuns<W, T>(s: Stream<W, T>)
    requires Good(s) && Demanded(s) > 0
    ensures Running(s)
  {
    match s
    case FlatMapping(base, _, _, _, _, cont, _) =>
      if cont.Some? {
        DemandRuns(cont.value);
      } else {
        DemandRuns(base);
      }
    case Mapping(inner, _) => DemandRuns(inner);
    case _ =>
  }

  lemma {:induction false} SubscribedIsGood<W, T>(publisher: Publisher<W, T>)
    ensures var s := Subscribed(publisher); Good(s) && !Running(s) && Demanded(s) == 0
  {
    match publisher
    case FlatMapped(base, _, _) => SubscribedIsGood(base);
    case Mapped(base, _) => SubscribedIsGood(base);
    case _ =>
  }

  /** Any stream: what its subscriber may request is added to the demand. */
  lemma {:induction false} RequestServes<W, T>(s: Stream<W, T>, tokens: Size)
    requires MayRequest(s, tokens)
    ensures Serves(s, tokens, Request(s, tokens))
  {
    match s
    case FlatMapping(base, _, _, balance, _, cont, _) =>
      FlatMapForwards(s);
      if cont.None? {
        RequestServes(base, 1);
      } else if balance < Plus(balance, tokens) {
        RequestServes(cont.value, Plus(balance, tokens) - balance);
      }
      FlatMapServes(s, tokens);
    case Mapping(inner, _) => RequestServes(inner, tokens);
    case _ =>
  }

  /** A flat map adds a request to its demand if its base and its active continuation do, whatever
      streams they are. */
  lemma FlatMapServes<W, T>(s: Stream<W, T>, tokens: Size)
    requires MayRequest(s, tokens) && s.FlatMapping?
    requires s.cont.None? ==> Serves(s.base, 1, Request(s.base, 1))
    requires s.cont.Some? && s.requestBalance < Plus(s.requestBalance, tokens) ==>
               var delta := Plus(s.requestBalance, tokens) - s.requestBalance;
               Serves(s.cont.value, delta, Request(s.cont.value, delta))
    ensures Serves(s, tokens, Request(s, tokens))
  {
    FlatMapForwards(s);
    if s.cont.Some? {
      FlatMapPassesOn(s, tokens);
    }
  }

  /** The unsigned difference of the two counters does not wrap around: the active continuation is
      asked for exactly what it was not asked for yet. */
  lemma FlatMapPassesOn<W, T>(s: Stream<W, T>, tokens: Size)
    requires s.FlatMapping? && s.cont.Some? && s.contRequested == s.requestBalance
    ensures var balance, total := s.requestBalance, Plus(s.requestBalance, tokens);
            Request(s, tokens)
            == if balance == total then s
               else s.(requestBalance := total, contRequested := total, cont := Some(Request(s.cont.value, total - balance)))
  {
    var delta := Plus(s.requestBalance, tokens) - s.requestBalance;
    assert FromInt(delta) == delta && Plus(s.requestBalance, delta) == Plus(s.requestBalance, tokens);
  }

  lemma FlatMapForwards<W, T>(s: Stream<W, T>)
    requires s.FlatMapping? && Good(s) && Callable(s)
    ensures s.cont.Some? ==> Callable(s.cont.value) && Callable(s.base)
    ensures s.cont.None? ==> !Running(s.base) && Demanded(s.base) == 0 && s.requestBalance == 0
    ensures s.requestBalance > 0 ==> Running(s)
  {
    if s.cont.Some? {
      CallingRuns(s.cont.value);
    }
    if s.requestBalance > 0 {
      DemandRuns(s);
    }
  }

  /** Any stream: each round of its loops obeys strict flow control. */
  lemma {:induction false} AdvanceIsStrict<W, T>(world: W, s: Stream<W, T>)
    requires Good(s)
    ensures Strict(s, Advance(world, s))
  {
    match s
    case FlatMapping(base, _, _, _, _, cont, _) =>
      AdvanceIsStrict(world, base);
      if cont.Some? {
        AdvanceIsStrict(world, cont.value);
      }
      FlatMapIsStrict(world, s);
    case Mapping(inner, _) => AdvanceIsStrict(world, inner);
    case _ =>
  }

  /** A flat map obeys strict flow control if its base and its active continuation do, whatever
      streams they are. */
  lemma FlatMapIsStrict<W, T>(world: W, s: Stream<W, T>)
    requires Good(s) && s.FlatMapping?
    requires Strict(s.base, Advance(world, s.base))
    requires s.cont.Some? ==> Strict(s.cont.value, Advance(world, s.cont.value))
    ensures Strict(s, Advance(world, s))
  {
    if s.cont.Some? && Running(s.cont.value) {
      ContIsStrict(s, Advance(world, s.cont.value));
    } else if Running(s.base) {
      BaseIsStrict(s, Advance(world, s.base));
    } else if s.requestBalance > 0 {
      DemandRuns(s);
      assert false;
    }
  }

  lemma ContIsStrict<W, T>(s: Stream<W, T>, round: Round<W, T>)
    requires Good(s) && s.FlatMapping? && s.cont.Some? && Running(s.cont.value) && Strict(s.cont.value, round)
    ensures Strict(s, OnNextCont(s, round))
  {
    if round.Emit? && round.event == End(Done) {
      RequestServes(s.base, 1);
    }
  }

  /** The flow control error of a flat map never occurs: its base has nothing to deliver while there
      is an active continuation. */
  lemma BaseIsStrict<W, T>(s: Stream<W, T>, round: Round<W, T>)
    requires Good(s) && s.FlatMapping? && Running(s.base) && Strict(s.base, round)
    requires s.cont.Some? ==> !Running(s.cont.value)
    ensures Strict(s, OnNext(s, round))
    ensures round.Emit? ==> s.cont.None? && s.requestBalance > 0
  {
    if round.Emit? && round.event.Next? {
      var publisher := s.func(round.world, round.event.value);
      SubscribedIsGood(publisher);
      RequestServes(Subscribed(publisher), s.requestBalance);
    }
  }
}
