/** FlatMap: every base element is replaced by the stream its continuation produces. */
module FlatMaps {
  import opened RequestBalances
  import opened Events
  import opened Generators

  /** The publisher that replaces a base element. Like the C++ lambda, it may read state that the
      subscriber changes in its callbacks, hence all that has been delivered so far. */
  type Continuation<!T, !R> = (seq<Event<R>>, T) -> Script<R>

  /** The whole output of a flat map that has delivered `before` when it asks for the base element
      at `index`: the continuations' values one after the other, up to the first error. */
  function FlattenFrom<T, R>(base: Script<T>, continuation: Continuation<T, R>,
                             index: nat, before: seq<Event<R>>): seq<Event<R>>
    requires index <= |base.values|
    decreases |base.values| - index, 0
  {
    if index == |base.values| then before + [End(base.end)] else
      Spliced(base, continuation, index + 1, before, continuation(before, base.values[index]), 0)
  }

  /** The same when `before` was delivered and the active continuation goes on at `position`. */
  function Spliced<T, R>(base: Script<T>, continuation: Continuation<T, R>, index: nat,
                         before: seq<Event<R>>, active: Script<R>, position: nat): seq<Event<R>>
    requires index <= |base.values| && position <= |active.values|
    decreases |base.values| - index, 1
  {
    var through := before + Nexts(active.values[position..]);
    if active.end.Error? then through + [End(active.end)]
    else FlattenFrom(base, continuation, index, through)
  }

  function Flatten<T, R>(base: Script<T>, continuation: Continuation<T, R>): seq<Event<R>> {
    FlattenFrom(base, continuation, 0, [])
  }

  /** What replaces a base element is what the continuation returns for it and for exactly what has been
      delivered by then. */
  lemma ReplacedInTurn<T, R>(base: Script<T>, continuation: Continuation<T, R>, index: nat, before: seq<Event<R>>)
    requires index < |base.values|
    ensures var output := continuation(before, base.values[index]);
            FlattenFrom(base, continuation, index, before)
            == if output.end.Error? then before + EventsOf(output)
               else FlattenFrom(base, continuation, index + 1, before + Nexts(output.values))
  {
    var output := continuation(before, base.values[index]);
    assert output.values[0..] == output.values;
    assert before + EventsOf(output) == before + Nexts(output.values) + [End(output.end)];
  }

  /** The output properly extends what was delivered. */
  lemma {:induction false} FlattenExtends<T, R>(base: Script<T>, continuation: Continuation<T, R>,
                                                index: nat, before: seq<Event<R>>)
    requires index <= |base.values|
    ensures before < FlattenFrom(base, continuation, index, before)
    decreases |base.values| - index, 0
  {
    if index < |base.values| {
      SplicedExtends(base, continuation, index + 1, before, continuation(before, base.values[index]), 0);
    }
  }

  lemma {:induction false} SplicedExtends<T, R>(base: Script<T>, continuation: Continuation<T, R>, index: nat,
                                                before: seq<Event<R>>, active: Script<R>, position: nat)
    requires index <= |base.values| && position <= |active.values|
    ensures before < Spliced(base, continuation, index, before, active, position)
    decreases |base.values| - index, 1
  {
    var through := before + Nexts(active.values[position..]);
    if active.end.Done? {
      FlattenExtends(base, continuation, index, through);
    }
  }

  /** Delivering the active continuation's next value changes nothing in the whole output. */
  lemma SplicedStep<T, R>(base: Script<T>, continuation: Continuation<T, R>, index: nat,
                          before: seq<Event<R>>, active: Script<R>, position: nat)
    requires index <= |base.values| && position < |active.values|
    ensures Spliced(base, continuation, index, before + [Next(active.values[position])], active, position + 1)
         == Spliced(base, continuation, index, before, active, position)
    ensures before + [Next(active.values[position])] <= Spliced(base, continuation, index, before, active, position)
  {
    var longer := before + [Next(active.values[position])];
    assert longer + Nexts(active.values[position + 1..]) == before + Nexts(active.values[position..]);
    SplicedExtends(base, continuation, index, longer, active, position + 1);
  }

  /** Once its values are delivered, a continuation that is done leaves the rest of the base; one
      that fails leaves only its error. */
  lemma SplicedEnd<T, R>(base: Script<T>, continuation: Continuation<T, R>, index: nat,
                         before: seq<Event<R>>, active: Script<R>)
    requires index <= |base.values|
    ensures Spliced(base, continuation, index, before, active, |active.values|)
         == if active.end.Error? then before + [End(active.end)] else FlattenFrom(base, continuation, index, before)
  {
    assert before + Nexts(active.values[|active.values|..]) == before;
  }

  /** The next event of the active continuation in the whole output. */
  lemma SplicedEvent<T, R>(base: Script<T>, continuation: Continuation<T, R>, index: nat,
                           before: seq<Event<R>>, cont: Source<R>)
    requires index <= |base.values| && cont.Valid()
    ensures var whole := Spliced(base, continuation, index, before, cont.script, cont.index);
            match cont.Event()
            case Next(value) =>
              && cont.index < |cont.script.values| && |before| < |whole| && whole[|before|] == Next(value)
              && Spliced(base, continuation, index, before + [Next(value)], cont.script, cont.index + 1) == whole
            case End(status) =>
              && cont.index == |cont.script.values| && status == cont.script.end
              && whole == if status.Error? then before + [End(status)] else FlattenFrom(base, continuation, index, before)
  {
    if cont.index < |cont.script.values| {
      SplicedStep(base, continuation, index, before, cont.script, cont.index);
    } else {
      SplicedEnd(base, continuation, index, before, cont.script);
    }
  }

  /** The outputs of a series of publishers one after the other, up to the first error. */
  function Concatenated<R>(outputs: seq<Script<R>>, end: Status): seq<Event<R>> {
    if outputs == [] then [End(end)]
    else if outputs[0].end.Error? then EventsOf(outputs[0])
    else Nexts(outputs[0].values) + Concatenated(outputs[1..], end)
  }

  /** The outputs of a function on the base values from `index` on. */
  function Outputs<T, R>(f: T -> Script<R>, values: seq<T>, index: nat): (outputs: seq<Script<R>>)
    requires index <= |values|
    ensures |outputs| == |values| - index
  {
    seq(|values| - index, k requires 0 <= k < |values| - index => f(values[index + k]))
  }

  /** For a function of the element alone, flat map is map and flatten. */
  lemma {:induction false} FlattenIsConcatenation<T, R>(base: Script<T>, f: T -> Script<R>,
                                                        index: nat, before: seq<Event<R>>)
    requires index <= |base.values|
    ensures FlattenFrom(base, (h: seq<Event<R>>, v: T) => f(v), index, before)
         == before + Concatenated(Outputs(f, base.values, index), base.end)
    decreases |base.values| - index
  {
    if index < |base.values| {
      var outputs := Outputs(f, base.values, index);
      var first := f(base.values[index]);
      assert outputs[0] == first && outputs[1..] == Outputs(f, base.values, index + 1);
      assert first.values[0..] == first.values;
      var through := before + Nexts(first.values);
      if first.end.Done? {
        FlattenIsConcatenation(base, f, index + 1, through);
      }
    }
  }

  class FlatMapStream<T, R> {
    const script: Script<T>
    const continuation: Continuation<T, R>
    const react: Reaction<R>
    const quits: Quitting<R>

    var requestBalance: Size  // requested but not yet delivered
    var contRequested: Size   // requested from the active continuation
    var subscribed: bool      // whether there is an active continuation
    var cont: Source<R>       // its stream
    var base: Source<T>       // the base stream
    var alive: bool

    var delivered: seq<Event<R>>
    ghost var granted: nat
    ghost var outer: nat

    ghost function Whole(): seq<Event<R>> {
      Flatten(script, continuation)
    }

    /** A generating loop that would pick up a request is running further down the call stack. */
    predicate Nested()
      reads this
    {
      if subscribed then cont.generating else base.generating
    }

    /** What holds whenever no event is on its way. */
    ghost predicate Steady()
      reads this
    {
      && alive
      && base.script == script && base.Valid() && !base.finished
      && (subscribed ==>
            && cont.Valid() && !cont.finished
            && Spliced(script, continuation, base.index, delivered, cont.script, cont.index) == Whole())
      && (!subscribed ==> FlattenFrom(script, continuation, base.index, delivered) == Whole())
      && Booked(Whole(), react, quits, outer, granted, delivered)
      && Credit(requestBalance, granted, |delivered|)
    }

    /** The flow control counters of the active continuation agree with the balance. */
    predicate Aligned()
      reads this
    {
      subscribed && contRequested == requestBalance == cont.requested
    }

    /** Moreover nothing is outstanding from the base. */
    predicate Synchronised()
      reads this
    {
      Aligned() && base.requested == 0
    }

    /** The stream deleted itself after its last event or was cancelled. */
    ghost predicate Over()
      reads this
    {
      !alive && Closed(Whole(), react, quits, outer, delivered)
    }

    /** How a call that ran the stream leaves it: all demand is met, or the base was asked for one
        more element and a loop further down the stack will fetch it. */
    ghost predicate Paused()
      reads this
    {
      if !alive then Over()
      else if subscribed then Steady() && Synchronised() && !cont.generating && requestBalance == 0
      else Steady() && base.generating && base.requested == 1 && requestBalance > 0
    }

    /** Inside one of the base stream's callbacks only its credit has changed since; otherwise its loop is left. */
    twostate predicate BaseKept()
      reads this
    {
      if old(base.generating) then base == old(base).(requested := base.requested) else !base.generating
    }

    /** No call is in progress. */
    ghost predicate AtRest()
      reads this
    {
      if !alive then Over()
      else
        && Steady() && requestBalance == 0 && base.requested == 0 && !base.generating
        && (subscribed ==> Synchronised() && !cont.generating)
    }

    constructor (script: Script<T>, continuation: Continuation<T, R>, react: Reaction<R>, quits: Quitting<R>)
      ensures AtRest() && alive && delivered == [] && outer == 0
      ensures this.script == script && this.continuation == continuation
      ensures this.react == react && this.quits == quits
    {
      this.script, this.continuation, this.react, this.quits := script, continuation, react, quits;
      requestBalance, contRequested, subscribed, alive := 0, 0, false, true;
      base := Fresh(script);
      cont := Fresh(Script([], Done));
      delivered, granted, outer := [], 0, 0;
    }

    ghost function BaseLeft(): nat
      reads this
    {
      if base.Valid() then base.Remaining() else 0
    }

    ghost function ContLeft(): nat
      reads this
    {
      if subscribed && cont.Valid() then cont.Remaining() else 0
    }

    // ----- subscription -----

    method Request(tokens: Size)
      requires alive && base.Valid() && (subscribed ==> cont.Valid())
      requires Nested() ==> (subscribed ==> contRequested == requestBalance)
      requires !Nested() ==>
                 && Steady() && (requestBalance > 0 || tokens > 0)
                 && base.requested == 0 && (subscribed ==> contRequested == cont.requested == 0)
      modifies this
      ensures old(Nested()) ==>
                && requestBalance == Plus(old(requestBalance), tokens) && granted == old(granted) + tokens
                && subscribed == old(subscribed) && alive && delivered == old(delivered) && outer == old(outer)
                && base == (if subscribed then old(base) else old(base).Grant(1))
                && (if subscribed
                    then contRequested == requestBalance && cont == old(cont).(requested := cont.requested) &&
                         (old(cont.requested) == old(requestBalance) ==> cont.requested == requestBalance)
                    else contRequested == old(contRequested) && cont == old(cont))
      ensures !old(Nested()) ==>
                && Paused() && outer == old(outer) + tokens
                && (alive ==> BaseKept())
      decreases BaseLeft(), ContLeft(), 5
    {
      ghost var nested := Nested();
      requestBalance := Plus(requestBalance, tokens);
      granted := granted + tokens;
      if !nested {
        BookRequest(Whole(), react, quits, outer, old(granted), delivered, tokens);
        outer := outer + tokens;
      }
      if subscribed {
        var delta := requestBalance - contRequested;
        if delta > 0 {
          contRequested := Plus(contRequested, delta);
          RequestCont(delta);
        }
      } else {
        RequestBase(1);
      }
    }

    method Cancel()
      requires alive
      modifies this`alive
      ensures !alive
    {
      alive := false;
    }

    // ----- the base stream and its subscriber -----

    method RequestBase(count: Size)
      requires alive && base.Valid() && !subscribed && count == 1
      requires !base.generating ==> Steady() && requestBalance > 0 && base.requested == 0
      modifies this
      ensures old(base.generating) ==>
                && base == old(base).Grant(count) && subscribed == old(subscribed) && cont == old(cont)
                && requestBalance == old(requestBalance) && contRequested == old(contRequested)
                && alive && delivered == old(delivered) && granted == old(granted) && outer == old(outer)
      ensures !old(base.generating) ==>
                && Paused() && outer == old(outer) && (alive ==> !base.generating)
      decreases BaseLeft(), ContLeft(), 4
    {
      base := base.Grant(count);
      if !base.generating {
        GenerateBase();
      }
    }

    method GenerateBase()
      requires Steady() && !subscribed && !base.generating && base.requested == 1 && requestBalance > 0
      modifies this
      ensures Paused() && outer == old(outer) && (alive ==> !base.generating)
      decreases BaseLeft(), ContLeft(), 3
    {
      base := base.(generating := true);
      while base.requested > 0
        invariant alive && base.generating && Paused() && outer == old(outer)
        invariant base.Remaining() <= old(BaseLeft())
        decreases base.Remaining()
      {
        var event := base.Event();
        base := base.Advance();
        OnNext(event);
        if !alive {
          return;
        }
        if event.End? {
          alive := false;
          return;
        }
      }
      base := base.(generating := false);
    }

    /** Receives a base event. At most one request was outstanding, so the check for a base that
        produces more than it was asked for never fires. */
    method OnNext(event: Event<T>)
      requires alive && base.script == script && base.Valid() && base.generating && base.requested == 0
      requires !subscribed && requestBalance > 0
      requires Booked(Whole(), react, quits, outer, granted, delivered)
      requires Credit(requestBalance, granted, |delivered|)
      requires match event
               case End(status) => base.finished && Whole() == delivered + [End(status)]
               case Next(value) =>
                 && !base.finished
                 && Spliced(script, continuation, base.index, delivered, continuation(delivered, value), 0) == Whole()
      modifies this
      ensures outer == old(outer)
      ensures event.End? ==> alive && Closed(Whole(), react, quits, outer, delivered)
      ensures event.Next? ==> Paused() && (alive ==> base == old(base).(requested := base.requested))
      decreases BaseLeft() + 1, 0, 0
    {
      if event.End? {
        Send(End(event.status));
        return;
      }
      if subscribed {
        assert false;  // flow control error
        return;
      }
      cont := Fresh(continuation(delivered, event.value));
      subscribed := true;
      contRequested := 0;
      if requestBalance > 0 {
        Request(0);
      }
    }

    // ----- the active continuation and its subscriber -----

    method RequestCont(count: Size)
      requires alive && subscribed && cont.Valid() && base.Valid()
      requires !cont.generating ==>
                 && Steady() && base.requested == 0 && cont.requested == 0
                 && count == contRequested == requestBalance > 0
      modifies this
      ensures old(cont.generating) ==>
                && cont == old(cont).Grant(count) && subscribed && base == old(base)
                && requestBalance == old(requestBalance) && contRequested == old(contRequested)
                && alive && delivered == old(delivered) && granted == old(granted) && outer == old(outer)
      ensures !old(cont.generating) ==>
                && Paused() && outer == old(outer) && (alive ==> BaseKept())
      decreases BaseLeft(), ContLeft(), 4
    {
      cont := cont.Grant(count);
      if !cont.generating {
        GenerateCont();
      }
    }

    method GenerateCont()
      requires Steady() && Synchronised() && !cont.generating
      modifies this
      ensures Paused() && outer == old(outer) && (alive ==> BaseKept())
      decreases BaseLeft(), ContLeft(), 3
    {
      cont := cont.(generating := true);
      while cont.requested > 0
        invariant Steady() && Synchronised() && cont.generating
        invariant outer == old(outer) && base == old(base)
        invariant cont.Remaining() <= old(ContLeft())
        decreases cont.Remaining()
      {
        var event := cont.Event();
        SplicedEvent(script, continuation, base.index, delivered, cont);
        cont := cont.Advance();
        OnNextCont(event);
        if !alive {
          return;
        }
        if event.End? {
          return;  // this stream deletes itself; another one may be active by now
        }
      }
      cont := cont.(generating := false);
    }

    method OnNextCont(event: Event<R>)
      requires alive && base.script == script && base.Valid() && !base.finished && base.requested == 0
      requires subscribed && cont.Valid() && cont.generating
      requires contRequested == requestBalance > 0 && cont.requested == Minus(requestBalance, 1)
      requires Booked(Whole(), react, quits, outer, granted, delivered)
      requires Credit(requestBalance, granted, |delivered|)
      requires match event
               case Next(value) =>
                 && !cont.finished && |delivered| < |Whole()| && Whole()[|delivered|] == event
                 && Spliced(script, continuation, base.index, delivered + [event], cont.script, cont.index) == Whole()
               case End(status) =>
                 && cont.finished && status == cont.script.end
                 && Whole() == if status.Error? then delivered + [event]
                               else FlattenFrom(script, continuation, base.index, delivered)
      modifies this
      ensures outer == old(outer)
      ensures event.Next? ==>
                if alive
                then Steady() && Synchronised() && base == old(base) && cont == old(cont).(requested := cont.requested)
                else Over()
      ensures event.End? ==> Paused() && (alive ==> BaseKept())
      decreases BaseLeft(), ContLeft(), 9
    {
      if event.Next? {
        requestBalance := Minus(requestBalance, 1);
        contRequested := Minus(contRequested, 1);
        Send(event);
      } else if event.status.Done? {
        subscribed := false;
        if requestBalance > 0 {
          Request(0);
        }
      } else {
        Terminate(event.status);
      }
    }

    method Terminate(status: Status)
      requires alive && base.Valid() && subscribed && cont.Valid() && cont.generating
      requires contRequested == requestBalance > 0 && Credit(requestBalance, granted, |delivered|)
      requires Booked(Whole(), react, quits, outer, granted, delivered)
      requires Whole() == delivered + [End(status)]
      modifies this
      ensures Over() && outer == old(outer)
      decreases BaseLeft(), ContLeft(), 8
    {
      Send(End(status));
      alive := false;  // cancels the base, which deletes this stream and cancels the continuation
    }

    /** The downstream subscriber's callback. */
    method Send(event: Event<R>)
      requires alive && base.Valid() && (subscribed ==> cont.Valid() && contRequested == requestBalance) && Nested()
      requires delivered + [event] <= Whole()
      requires Booked(Whole(), react, quits, outer, granted, delivered)
      requires Covers(granted, |delivered|)
      requires event.End? ==> delivered + [event] == Whole()
      requires event.Next? ==>
                 subscribed && cont.requested == requestBalance && Credit(requestBalance, granted, |delivered| + 1)
      modifies this
      ensures delivered == old(delivered) + [event] && outer == old(outer)
      ensures if event.Next? && alive then Booked(Whole(), react, quits, outer, granted, delivered)
              else Closed(Whole(), react, quits, outer, delivered)
      ensures subscribed == old(subscribed) && base == old(base).(requested := base.requested)
      ensures subscribed ==> base == old(base) && cont == old(cont).(requested := cont.requested)
      ensures alive == !(event.Next? && Leaves(quits, delivered))
      ensures event.Next? ==> Aligned() && Credit(requestBalance, granted, |delivered|)
      decreases BaseLeft(), ContLeft(), 7
    {
      Book(Whole(), react, quits, outer, granted, delivered, event);
      delivered := delivered + [event];
      React(Reply(react, delivered));
      if event.Next? && Leaves(quits, delivered) {
        Cancel();
      }
    }

    /** The requests the subscriber makes inside the callback. */
    method React(requests: seq<Size>)
      requires alive && base.Valid() && (subscribed ==> cont.Valid() && contRequested == requestBalance) && Nested()
      modifies this
      ensures granted == old(granted) + Sum(requests)
      ensures alive && delivered == old(delivered) && outer == old(outer)
      ensures subscribed == old(subscribed) && base == old(base).(requested := base.requested)
      ensures subscribed ==> base == old(base) && cont == old(cont).(requested := cont.requested)
      ensures forall used: nat ::
                old(Aligned() && Credit(requestBalance, granted, used)) ==> Aligned() && Credit(requestBalance, granted, used)
      decreases BaseLeft(), ContLeft(), 6
    {
      for i := 0 to |requests|
        invariant granted == old(granted) + SumTo(requests, i)
        invariant alive && Nested() && delivered == old(delivered) && outer == old(outer)
        invariant subscribed == old(subscribed) && base == old(base).(requested := base.requested)
        invariant subscribed ==>
                    base == old(base) && cont == old(cont).(requested := cont.requested) && contRequested == requestBalance
        invariant old(Aligned()) ==> Aligned()
        invariant forall used: nat :: old(Credit(requestBalance, granted, used)) ==> Credit(requestBalance, granted, used)
      {
        Request(requests[i]);
      }
    }
  }

  /** A flat map subscribed by an arbitrary subscriber, then requested from outside an arbitrary
      number of times, each time for at least one element. */
  method Run<T, R>(script: Script<T>, continuation: Continuation<T, R>, react: Reaction<R>, quits: Quitting<R>,
                   requests: seq<Size>)
    returns (delivered: seq<Event<R>>)
    requires forall i :: 0 <= i < |requests| ==> requests[i] > 0
    ensures Settled(Flatten(script, continuation), react, quits, Sum(requests), delivered)
  {
    var stream := new FlatMapStream(script, continuation, react, quits);
    var i := 0;
    while i < |requests| && stream.alive
      invariant i <= |requests| && fresh(stream)
      invariant stream.script == script && stream.continuation == continuation
      invariant stream.react == react && stream.quits == quits
      invariant stream.AtRest() && stream.outer == SumTo(requests, i)
    {
      stream.Request(requests[i]);
      i := i + 1;
    }
    SumGrows(requests, i, |requests|);
    if !stream.alive {
      ClosedGrows(stream.Whole(), react, quits, stream.outer, Sum(requests) - stream.outer, stream.delivered);
    }
    BooksSettle(Flatten(script, continuation), react, quits, Sum(requests), stream.granted, stream.delivered);
    delivered := stream.delivered;
  }
}
