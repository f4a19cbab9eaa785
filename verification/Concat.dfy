/** Concat: the events of one stream, then, if it is done without error, those of another. */
module Concats {
  import opened RequestBalances
  import opened Events
  import opened Generators

  function Append<T>(first: Script<T>, second: Script<T>): seq<Event<T>> {
    if first.end.Error? then EventsOf(first) else Nexts(first.values) + EventsOf(second)
  }

  /** The first stream's error is the end; its Done is not an event of the whole, and what follows are the
      second stream's events. */
  lemma AppendsEvents<T>(first: Script<T>, second: Script<T>)
    ensures first.end.Error? ==>
              |Append(first, second)| == |first.values| + 1 && Append(first, second)[|first.values|] == End(first.end)
    ensures first.end.Done? ==>
              && |Append(first, second)| == |first.values| + |second.values| + 1
              && (forall k :: 0 <= k < |second.values| ==>
                    Append(first, second)[|first.values| + k] == Next(second.values[k]))
              && Append(first, second)[|first.values| + |second.values|] == End(second.end)
    ensures forall k :: 0 <= k < |first.values| ==> Append(first, second)[k] == Next(first.values[k])
  {
  }

  /** The place in the output that a stream has reached by its first `n` events. */
  ghost predicate Places<T>(first: Script<T>, second: Script<T>, isFirst: bool, upstream: Source<T>, n: nat) {
    && upstream.Valid()
    && (if isFirst then upstream.script == first && n == upstream.index
        else first.end.Done? && upstream.script == second && n == |first.values| + upstream.index)
  }

  /** The upstream's next event is the next one of the output, unless it is the first stream's Done. */
  lemma NextInAppend<T>(first: Script<T>, second: Script<T>, isFirst: bool, upstream: Source<T>,
                        delivered: seq<Event<T>>)
    requires Places(first, second, isFirst, upstream, |delivered|) && !upstream.finished
    requires delivered <= Append(first, second)
    ensures var event := upstream.Event();
            match event
            case Next(_) => delivered + [event] <= Append(first, second)
            case End(status) =>
              && upstream.index == |upstream.script.values| && status == upstream.script.end
              && (status.Error? || !isFirst ==> delivered + [event] == Append(first, second))
  {
  }

  class ConcatStream<T> {
    const first: Script<T>
    const second: Script<T>
    const react: Reaction<T>

    var continueWith: Option<Script<T>>  // None once the second publisher is subscribed
    var upstream: Source<T>              // the stream subscribed at present
    var requestBalance: Size
    var alive: bool

    var delivered: seq<Event<T>>
    ghost var granted: nat
    ghost var outer: nat

    predicate IsRunningFirst()
      reads this
    {
      continueWith.Some?
    }

    ghost function Whole(): seq<Event<T>> {
      Append(first, second)
    }

    /** The stream subscribed at present is at the place of the output reached by `n` events. */
    ghost predicate Placed(n: nat)
      reads this
    {
      && (IsRunningFirst() ==> continueWith.value == second)
      && Places(first, second, IsRunningFirst(), upstream, n)
    }

    ghost predicate Accounted()
      reads this
    {
      && alive
      && Booked(Whole(), react, Never, outer, granted, delivered)
      && Credit(requestBalance, granted, |delivered|)
    }

    /** What holds whenever no event is on its way. In particular the balance is what the present
        upstream still owes, also across the switch, where the first Done is not charged. */
    ghost predicate Steady()
      reads this
    {
      Accounted() && Placed(|delivered|) && !upstream.finished && requestBalance == upstream.requested
    }

    ghost predicate Over()
      reads this
    {
      !alive && Closed(Whole(), react, Never, outer, delivered)
    }

    ghost predicate AtRest()
      reads this
    {
      if alive then Steady() && !upstream.generating && requestBalance == 0 else Over()
    }

    constructor (first: Script<T>, second: Script<T>, react: Reaction<T>)
      ensures AtRest() && alive && delivered == [] && outer == 0
      ensures this.first == first && this.second == second && this.react == react
    {
      this.first, this.second, this.react := first, second, react;
      continueWith, upstream := Some(second), Fresh(first);
      requestBalance, alive := 0, true;
      delivered, granted, outer := [], 0, 0;
    }

    ghost function Left(): nat
      reads this
    {
      if upstream.Valid() then upstream.Remaining() else 0
    }

    // ----- subscription -----

    method Request(count: Size)
      requires alive && upstream.Valid()
      requires !upstream.generating ==> AtRest()
      modifies this
      ensures old(upstream.generating) ==>
                && requestBalance == Plus(old(requestBalance), count) && granted == old(granted) + count
                && upstream == old(upstream).Grant(count) && continueWith == old(continueWith)
                && alive && delivered == old(delivered) && outer == old(outer)
      ensures !old(upstream.generating) ==> AtRest() && outer == old(outer) + count
      decreases IsRunningFirst(), Left(), 4
    {
      if !upstream.generating {
        BookRequest(Whole(), react, Never, outer, old(granted), delivered, count);
        outer := outer + count;
      }
      granted := granted + count;
      requestBalance := Plus(requestBalance, count);
      RequestUpstream(count);
    }

    // ----- the upstream -----

    method RequestUpstream(count: Size)
      requires alive && upstream.Valid()
      requires !upstream.generating ==>
                 && Accounted() && Placed(|delivered|)
                 && !upstream.finished && upstream.requested == 0 && count == requestBalance
      modifies this
      ensures old(upstream.generating) ==>
                && upstream == old(upstream).Grant(count) && continueWith == old(continueWith)
                && requestBalance == old(requestBalance) && granted == old(granted)
                && alive && delivered == old(delivered) && outer == old(outer)
      ensures !old(upstream.generating) ==> AtRest() && outer == old(outer)
      decreases IsRunningFirst(), Left(), 3
    {
      upstream := upstream.Grant(count);
      if !upstream.generating {
        Generate();
      }
    }

    method Generate()
      requires Steady() && !upstream.generating
      modifies this
      ensures AtRest() && outer == old(outer)
      decreases IsRunningFirst(), Left(), 2
    {
      upstream := upstream.(generating := true);
      while upstream.requested > 0
        invariant Steady() && upstream.generating
        invariant continueWith == old(continueWith) && outer == old(outer)
        invariant upstream.Remaining() <= old(Left())
        decreases upstream.Remaining()
      {
        var event := upstream.Event();
        NextInAppend(first, second, IsRunningFirst(), upstream, delivered);
        upstream := upstream.Advance();
        OnNext(event);
        if event.End? {
          return;  // this stream deletes itself
        }
      }
      upstream := upstream.(generating := false);
    }

    // ----- the subscriber to the upstream -----

    method OnSubscribe(subscription: Source<T>)
      requires Accounted() && !IsRunningFirst() && requestBalance > 0 && first.end.Done?
      requires subscription == Fresh(second) && |delivered| == |first.values|
      modifies this
      ensures AtRest() && outer == old(outer)
      decreases true, 0, 0
    {
      upstream := subscription;
      if requestBalance > 0 {
        RequestUpstream(requestBalance);
      }
    }

    method OnNext(event: Event<T>)
      requires Accounted() && requestBalance > 0
      requires upstream.Valid() && upstream.generating && upstream.requested == Minus(requestBalance, 1)
      requires match event
               case Next(_) => !upstream.finished && Placed(|delivered| + 1) && delivered + [event] <= Whole()
               case End(status) =>
                 && upstream.finished && Placed(|delivered|)
                 && (status.Error? || !IsRunningFirst() ==> delivered + [event] == Whole())
                 && (status.Done? && IsRunningFirst() ==> |delivered| == |first.values| && first.end.Done?)
      modifies this
      ensures outer == old(outer)
      ensures event.Next? ==>
                && Steady() && upstream == old(upstream).(requested := upstream.requested)
                && continueWith == old(continueWith)
      ensures event.End? ==> AtRest()
      decreases IsRunningFirst(), Left(), 7
    {
      if event.Next? {
        requestBalance := Minus(requestBalance, 1);
        Send(event);
        return;
      }
      if event.status.Error? || !IsRunningFirst() {
        Send(event);
        alive := false;
        return;
      }
      var next := continueWith.value;
      continueWith := None;
      OnSubscribe(Fresh(next));
    }

    /** The downstream subscriber's callback. */
    method Send(event: Event<T>)
      requires alive && upstream.Valid() && upstream.generating
      requires delivered + [event] <= Whole()
      requires Booked(Whole(), react, Never, outer, granted, delivered)
      requires Covers(granted, |delivered|)
      requires event.End? ==> delivered + [event] == Whole()
      requires event.Next? ==> requestBalance == upstream.requested && Credit(requestBalance, granted, |delivered| + 1)
      modifies this
      ensures alive && outer == old(outer) && delivered == old(delivered) + [event]
      ensures if event.Next? then Booked(Whole(), react, Never, outer, granted, delivered)
              else Closed(Whole(), react, Never, outer, delivered)
      ensures upstream == old(upstream).(requested := upstream.requested) && continueWith == old(continueWith)
      ensures event.Next? ==> requestBalance == upstream.requested && Credit(requestBalance, granted, |delivered|)
      decreases IsRunningFirst(), Left(), 6
    {
      Book(Whole(), react, Never, outer, granted, delivered, event);
      delivered := delivered + [event];
      React(Reply(react, delivered));
    }

    /** The requests the subscriber makes inside the callback. */
    method React(requests: seq<Size>)
      requires alive && upstream.Valid() && upstream.generating
      modifies this
      ensures granted == old(granted) + Sum(requests)
      ensures alive && outer == old(outer) && delivered == old(delivered)
      ensures upstream == old(upstream).(requested := upstream.requested) && continueWith == old(continueWith)
      ensures old(requestBalance == upstream.requested) ==> requestBalance == upstream.requested
      ensures forall used: nat :: old(Credit(requestBalance, granted, used)) ==> Credit(requestBalance, granted, used)
      decreases IsRunningFirst(), Left(), 5
    {
      for i := 0 to |requests|
        invariant granted == old(granted) + SumTo(requests, i)
        invariant alive && outer == old(outer) && delivered == old(delivered)
        invariant upstream == old(upstream).(requested := upstream.requested) && continueWith == old(continueWith)
        invariant old(requestBalance == upstream.requested) ==> requestBalance == upstream.requested
        invariant forall used: nat :: old(Credit(requestBalance, granted, used)) ==> Credit(requestBalance, granted, used)
      {
        Request(requests[i]);
      }
    }
  }

  /** Two publishers concatenated, subscribed by an arbitrary subscriber, then requested from
      outside an arbitrary number of times. */
  method Run<T>(first: Script<T>, second: Script<T>, react: Reaction<T>, requests: seq<Size>)
    returns (delivered: seq<Event<T>>)
    ensures Settled(Append(first, second), react, Never, Sum(requests), delivered)
  {
    var stream := new ConcatStream(first, second, react);
    var i := 0;
    while i < |requests| && stream.alive
      invariant i <= |requests| && fresh(stream)
      invariant stream.first == first && stream.second == second && stream.react == react
      invariant stream.AtRest() && stream.outer == SumTo(requests, i)
    {
      stream.Request(requests[i]);
      i := i + 1;
    }
    SumGrows(requests, i, |requests|);
    if !stream.alive {
      ClosedGrows(stream.Whole(), react, Never, stream.outer, Sum(requests) - stream.outer, stream.delivered);
    }
    BooksSettle(Append(first, second), react, Never, Sum(requests), stream.granted, stream.delivered);
    delivered := stream.delivered;
  }
}
