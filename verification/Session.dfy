/** An arbitrary subscriber of an arbitrary pipeline. */
module Sessions {
  import opened RequestBalances
  import opened Events
  import opened Generators
  import opened FlatMaps
  import opened Binds
  import opened P = Pipelines
  import opened PipelineLaws

  class Session<T> {
    const publisher: Publisher<(), T>
    const react: Reaction<T>
    const quits: Quitting<T>

    var stream: Stream<(), T>
    var alive: bool

    var delivered: seq<Event<T>>
    ghost var granted: nat
    ghost var outer: nat
    ghost var undue: bool  // a request of zero has led to one for an element that nobody requested

    ghost function Whole(): seq<Event<T>> {
      EventsOf(Meaning(publisher))
    }

    /** What holds whenever no event is on its way. */
    ghost predicate Steady()
      reads this
    {
      && alive && Ending(stream) && (if undue then Owing(stream) && Demanded(stream) == 0 else Good(stream))
      && delivered + EventsOf(Left(stream)) == Whole()
      && Booked(Whole(), react, quits, outer, granted, delivered)
      && Credit(Demanded(stream), granted, |delivered|)
    }

    /** The stream deleted itself after its last event or was cancelled. */
    ghost predicate Over()
      reads this
    {
      && !alive
      && if undue then EndsEarly(Whole(), react, quits, outer, delivered) else Closed(Whole(), react, quits, outer, delivered)
    }

    /** No call is in progress. */
    ghost predicate AtRest()
      reads this
    {
      if alive then Steady() && !undue && !Running(stream) else Over()
    }

    constructor (publisher: Publisher<(), T>, react: Reaction<T>, quits: Quitting<T>)
      requires Ends(publisher)
      ensures AtRest() && alive && !undue && delivered == [] && outer == 0
      ensures this.publisher == publisher && this.react == react && this.quits == quits
    {
      this.publisher, this.react, this.quits := publisher, react, quits;
      stream, alive := Subscribed(publisher), true;
      delivered, granted, outer, undue := [], 0, 0, false;
      new;
      SubscribedIsGood(publisher);
      SubscribedMeans(publisher);
    }

    /** From outside, a request runs the pipeline until all demand is met; a request of zero may run it
        as well. */
    method Request(tokens: Size)
      requires alive && AtRest()
      modifies this
      ensures AtRest() && outer == old(outer) + tokens && (undue ==> tokens == 0)
    {
      Enter(tokens);
      while alive && Running(stream)
        invariant if alive then Steady() else Over()
        invariant outer == old(outer) + tokens && (undue ==> tokens == 0)
        decreases alive, Work(stream)
      {
        Rounds();
        match Advance((), stream) {
          case Silent(_, next) =>
            stream := next;
            undue := !Good(next);
          case Emit(_, event, next) => OnNext(event, next);
        }
      }
      if alive && undue {
        OwingRepays(stream);
      }
    }

    method RequestAll(requests: seq<Size>)
      requires AtRest() && alive && outer == 0
      modifies this
      ensures AtRest() && outer <= Sum(requests) && (alive ==> outer == Sum(requests))
      ensures undue ==> HasZero(requests)
    {
      var i := 0;
      while i < |requests| && alive
        invariant i <= |requests| && AtRest() && outer == SumTo(requests, i) && (undue ==> HasZero(requests))
      {
        if requests[i] == 0 {
          IsZero(requests, i);
        }
        Request(requests[i]);
        i := i + 1;
      }
      SumGrows(requests, i, |requests|);
    }

    /** The loops that the request enters. */
    method Enter(tokens: Size)
      requires alive && AtRest()
      modifies this
      ensures Steady() && outer == old(outer) + tokens && (undue ==> tokens == 0)
    {
      if tokens > 0 {
        RequestServes(stream, tokens);
        RequestWaits(stream, tokens);
      } else {
        ZeroRequest(stream);
      }
      BookRequest(Whole(), react, quits, outer, granted, delivered, tokens);
      stream := P.Request(stream, tokens);
      granted, outer, undue := granted + tokens, outer + tokens, !Good(stream);
    }

    /** A round of the running loop. */
    lemma Rounds()
      requires Steady()
      ensures if undue then Repays(stream, Advance((), stream))
              else Strict(stream, Advance((), stream)) && Tells(stream, Advance((), stream))
    {
      if undue {
        OwingRepays(stream);
      } else {
        AdvanceIsStrict((), stream);
        AdvanceTells(stream);
      }
    }

    /** What that means, also if more is requested of a stream that is over. */
    lemma Rests(total: nat)
      requires AtRest() && outer <= total && (alive ==> outer == total)
      ensures if undue then EndsEarly(Whole(), react, quits, total, delivered)
              else Settled(Whole(), react, quits, total, delivered)
    {
      if alive {
        if Demanded(stream) > 0 {
          DemandRuns(stream);
        }
        BooksSettle(Whole(), react, quits, total, granted, delivered);
      } else if undue {
        EarnedGrows(Whole(), react, quits, outer, total - outer, |Whole()| - 1);
      } else {
        ClosedGrows(Whole(), react, quits, outer, total - outer, delivered);
        BooksSettle(Whole(), react, quits, total, granted, delivered);
      }
    }

    /** The subscriber's callback; requests made inside it only give the running loop more to do. */
    method OnNext(event: Event<T>, next: Stream<(), T>)
      requires Steady() && if undue then event.End? else Demanded(stream) > 0
      requires event.Next? ==> Good(next) && Calling(next) && Demanded(next) == Minus(Demanded(stream), 1)
      requires match event
               case Next(value) =>
                 && Ending(next) && Left(stream).values != [] && value == Left(stream).values[0]
                 && Left(next) == Tail(Left(stream))
               case End(status) => Left(stream) == Script([], status)
      modifies this
      ensures delivered == old(delivered) + [event] && outer == old(outer) && undue == old(undue)
      ensures if alive then Steady() && event.Next? && Work(stream) <= Work(next) else Over()
    {
      NextLeft(Left(stream), event);
      assert Whole() == (delivered + [event]) + EventsOf(Left(stream))[1..];
      if !undue {
        Book(Whole(), react, quits, outer, granted, delivered, event);
      }
      stream, delivered := next, delivered + [event];
      if event.Next? {
        React(Reply(react, delivered));
      }
      if event.End? || Leaves(quits, delivered) {
        alive := false;
      }
    }

    method React(requests: seq<Size>)
      requires alive && Good(stream) && Calling(stream) && Ending(stream) && Credit(Demanded(stream), granted, |delivered|)
      modifies this`stream, this`granted
      ensures granted == old(granted) + Sum(requests)
      ensures Good(stream) && Ending(stream) && Credit(Demanded(stream), granted, |delivered|)
      ensures Left(stream) == old(Left(stream)) && Work(stream) <= old(Work(stream))
    {
      for i := 0 to |requests|
        invariant granted == old(granted) + SumTo(requests, i)
        invariant Good(stream) && Calling(stream) && Ending(stream) && Credit(Demanded(stream), granted, |delivered|)
        invariant Left(stream) == old(Left(stream)) && Work(stream) <= old(Work(stream))
      {
        CallingRuns(stream);
        RequestServes(stream, requests[i]);
        RequestWaits(stream, requests[i]);
        stream := P.Request(stream, requests[i]);
        granted := granted + requests[i];
      }
    }
  }

  lemma NextLeft<T>(left: Script<T>, event: Event<T>)
    requires match event
             case Next(value) => left.values != [] && value == left.values[0]
             case End(status) => left == Script([], status)
    ensures EventsOf(left) == [event] + EventsOf(left)[1..]
    ensures event.Next? ==> EventsOf(left)[1..] == EventsOf(Tail(left))
    ensures event.End? ==> EventsOf(left)[1..] == []
  {
  }

  predicate HasZero(requests: seq<Size>) {
    0 in requests
  }

  /** All events were delivered, each but the last under strict flow control. */
  ghost predicate EndsEarly<T>(events: seq<Event<T>>, react: Reaction<T>, quits: Quitting<T>, outer: nat,
                               delivered: seq<Event<T>>)
  {
    && delivered == events != []
    && Earned(events, react, quits, outer, |events| - 1) && !Quit(events, quits, |events| - 1)
  }

  /** Any pipeline, subscribed by an arbitrary subscriber and then requested from outside an arbitrary
      number of times. Only a request of zero can deliver anything that was not requested, and that is
      the end marker. */
  method Run<T>(publisher: Publisher<(), T>, react: Reaction<T>, quits: Quitting<T>, requests: seq<Size>)
    returns (delivered: seq<Event<T>>)
    requires Ends(publisher)
    ensures var events := EventsOf(Meaning(publisher));
            || Settled(events, react, quits, Sum(requests), delivered)
            || (0 in requests && EndsEarly(events, react, quits, Sum(requests), delivered))
  {
    var session := new Session(publisher, react, quits);
    session.RequestAll(requests);
    session.Rests(Sum(requests));
    delivered := session.delivered;
  }

  lemma IsZero(requests: seq<Size>, i: nat)
    requires i < |requests| && requests[i] == 0
    ensures HasZero(requests)
  {
  }
}
