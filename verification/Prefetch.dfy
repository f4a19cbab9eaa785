/** Prefetch: a buffer of bounded size between a stream and its subscriber, refilled from upstream
    whenever it has drained to a threshold. */
module Prefetches {
  import opened RequestBalances
  import opened Events
  import opened Generators

  /** Whether an upstream that has sent so many events and owes so many sends one more at once,
      inside the Request that asked for it. Always, for a generated stream; in general the rest
      arrives later. */
  type Eagerness = (nat, nat) -> bool

  /** The `n` events from one place on. */
  function Window<T>(events: seq<Event<T>>, from: nat, n: nat): (window: seq<Event<T>>)
    requires from + n <= |events|
    ensures |window| == n
    decreases n
  {
    if n == 0 then [] else [events[from]] + Window(events, from + 1, n - 1)
  }

  lemma {:induction false} WindowSnoc<T>(events: seq<Event<T>>, from: nat, n: nat)
    requires from + n < |events|
    ensures Window(events, from, n + 1) == Window(events, from, n) + [events[from + n]]
    decreases n
  {
    if n > 0 {
      WindowSnoc(events, from + 1, n - 1);
    }
  }

  lemma {:induction false} WindowIsSlice<T>(events: seq<Event<T>>, from: nat, n: nat)
    requires from + n <= |events|
    ensures Window(events, from, n) == events[from..from + n]
    decreases n
  {
    if n > 0 {
      WindowIsSlice(events, from + 1, n - 1);
    }
  }

  /** What happens to the stream from outside: a request, or the arrival of something owed to it. */
  datatype Stimulus = Demanded(count: Size) | Arrival

  function ReceivedFrom<T>(upstream: Source<T>): nat {
    upstream.index + if upstream.finished then 1 else 0
  }

  /** The buffer holds what was received and not yet delivered, and what it holds and what it has
      asked for fit into it. */
  ghost predicate Fits<T>(upstream: Source<T>, upstreamEnded: bool, bufferSize: Size, buffer: seq<Event<T>>,
                          upstreamRequestBalance: Size, delivered: seq<Event<T>>)
  {
    && 0 < bufferSize < KMAX && upstream.Valid()
    && (upstreamEnded ==> upstream.finished) && (upstream.finished && !upstreamEnded ==> upstream.generating)
    && |buffer| + upstreamRequestBalance <= bufferSize
    && |delivered| + |buffer| == ReceivedFrom(upstream)
    && buffer == Window(EventsOf(upstream.script), |delivered|, |buffer|)
  }

  /** A request to the upstream, with what was in the buffer and what was outstanding when it was made. */
  datatype Refill = Refill(buffered: nat, outstanding: nat, count: nat)

  /** Each request was made when no more was buffered than the refill mark allows, and for exactly what
      was missing. */
  predicate WellTimed(refills: seq<Refill>, bufferSize: nat, mark: nat) {
    refills == [] || (IsWellTimed(refills[|refills| - 1], bufferSize, mark) && WellTimed(refills[..|refills| - 1], bufferSize, mark))
  }

  predicate IsWellTimed(refill: Refill, bufferSize: nat, mark: nat) {
    refill.buffered <= mark && refill.count > 0 && refill.buffered + refill.outstanding + refill.count == bufferSize
  }

  lemma {:induction false} EachIsWellTimed(refills: seq<Refill>, bufferSize: nat, mark: nat)
    ensures WellTimed(refills, bufferSize, mark) <==> forall i :: 0 <= i < |refills| ==> IsWellTimed(refills[i], bufferSize, mark)
  {
    if refills != [] {
      EachIsWellTimed(refills[..|refills| - 1], bufferSize, mark);
    }
  }

  /** What was requested from the upstream in all. */
  function Tally(refills: seq<Refill>): nat {
    if refills == [] then 0 else Tally(refills[..|refills| - 1]) + refills[|refills| - 1].count
  }

  lemma LogMore(refills: seq<Refill>, next: Refill, bufferSize: nat, mark: nat)
    ensures Tally(refills + [next]) == Tally(refills) + next.count
    ensures WellTimed(refills + [next], bufferSize, mark)
            <==> WellTimed(refills, bufferSize, mark) && IsWellTimed(next, bufferSize, mark)
  {
    assert (refills + [next])[..|refills|] == refills;
  }

  class PrefetchingStream<T> {
    const script: Script<T>   // what the upstream sends
    const eager: Eagerness
    const bufferSize: Size
    const refill: nat         // bufferSize times the refill mark, truncated
    const react: Reaction<T>

    var upstream: Source<T>
    var upstreamEnded: bool   // the upstream has deleted itself
    var buffer: seq<Event<T>>
    var requestBalance: Size
    var upstreamRequestBalance: Size
    var delivering: bool
    var alive: bool

    var delivered: seq<Event<T>>
    var refills: seq<Refill>  // the requests to the upstream
    ghost var granted: nat
    ghost var outer: nat

    ghost function Whole(): seq<Event<T>> {
      EventsOf(script)
    }

    function Received(): nat
      reads this
    {
      ReceivedFrom(upstream)
    }

    /** All that was ever requested from the upstream has arrived or is outstanding. */
    ghost predicate Logged()
      reads this
    {
      && WellTimed(refills, bufferSize, refill)
      && Tally(refills) == |delivered| + |buffer| + upstreamRequestBalance
    }

    ghost predicate Shape()
      reads this
    {
      && alive && refill <= bufferSize && upstream.script == script && Logged()
      && Fits(upstream, upstreamEnded, bufferSize, buffer, upstreamRequestBalance, delivered)
    }

    /** Moreover what it has asked for is what the upstream owes. */
    ghost predicate Flow()
      reads this
    {
      Shape() && (!upstream.finished ==> upstreamRequestBalance == upstream.requested)
    }

    /** The buffer is full enough, or has asked for all that would fill it. */
    predicate Filled()
      reads this
    {
      upstreamEnded || |buffer| > refill || |buffer| + upstreamRequestBalance == bufferSize
    }

    ghost predicate Accounted()
      reads this
    {
      && Booked(Whole(), react, Never, outer, granted, delivered)
      && Credit(requestBalance, granted, |delivered|)
    }

    ghost predicate Over()
      reads this
    {
      && !alive && Closed(Whole(), react, Never, outer, delivered)
      && WellTimed(refills, bufferSize, refill) && Tally(refills) >= |delivered|
    }

    /** No delivery is in progress, and none is possible. */
    ghost predicate Drained()
      reads this
    {
      Flow() && Accounted() && !delivering && (requestBalance == 0 || buffer == [])
    }

    ghost predicate Idle()
      reads this
    {
      if alive then Drained() && Filled() else Over()
    }

    /** The upstream has nothing to send at present. */
    predicate UpstreamIdle()
      reads this
    {
      upstreamEnded ||
      (!upstream.generating && (upstream.requested > 0 ==> !eager(upstream.index, upstream.requested)))
    }

    /** Inside one of the upstream's callbacks only its credit has changed since; otherwise it is as it
        was or has become idle. */
    twostate predicate UpstreamKept()
      reads this
    {
      if old(upstream.generating)
      then upstream == old(upstream).(requested := upstream.requested) && upstreamEnded == old(upstreamEnded)
      else (upstream == old(upstream) && upstreamEnded == old(upstreamEnded)) || UpstreamIdle()
    }

    /** No call is in progress at all. */
    ghost predicate AtRest()
      reads this
    {
      Idle() && (alive ==> UpstreamIdle())
    }

    ghost function Left(): nat
      reads this
    {
      |buffer| + if upstream.Valid() then 2 * upstream.Remaining() else 0
    }

    constructor (script: Script<T>, eager: Eagerness, bufferSize: Size, refill: nat, react: Reaction<T>, initial: Size)
      requires 0 < bufferSize < KMAX && refill <= bufferSize
      ensures AtRest() && outer == initial
      ensures this.script == script && this.eager == eager && this.react == react
      ensures this.bufferSize == bufferSize && this.refill == refill
    {
      this.script, this.eager, this.bufferSize, this.refill, this.react := script, eager, bufferSize, refill, react;
      upstream, upstreamEnded, buffer := Fresh(script), false, [];
      requestBalance, upstreamRequestBalance, delivering, alive := 0, 0, false, true;
      delivered, refills, granted, outer := [], [], 0, 0;
      new;
      OnSubscribe(initial);
    }

    // ----- the subscriber to the upstream -----

    /** `initial` is what the downstream subscriber requests when it is subscribed. */
    method OnSubscribe(initial: Size)
      requires Flow() && Accounted() && !delivering && buffer == [] && requestBalance == 0
      requires upstreamRequestBalance == 0 == upstream.requested
      requires !upstream.generating && !upstreamEnded && !upstream.finished
      modifies this
      ensures AtRest() && outer == old(outer) + initial
    {
      outer := outer + initial;
      BookRequest(Whole(), react, Never, old(outer), granted, delivered, initial);
      requestBalance := Plus(requestBalance, initial);
      granted := granted + initial;
      MaybeDeliver();
      MaybeFill();
    }

    method OnNext(event: Event<T>)
      requires alive && 0 < bufferSize < KMAX && refill <= bufferSize
      requires upstream.script == script && upstream.Valid() && upstream.generating && !upstreamEnded
      requires |buffer| + upstreamRequestBalance <= bufferSize && upstreamRequestBalance > 0
      requires !upstream.finished ==> upstreamRequestBalance == upstream.requested + 1
      requires |delivered| + |buffer| + 1 == Received() && Whole()[|delivered| + |buffer|] == event
      requires buffer == Window(Whole(), |delivered|, |buffer|) && Logged()
      requires !delivering ==> Accounted() && Filled()
      modifies this
      ensures outer == old(outer)
      ensures alive ==>
                upstream == old(upstream).(requested := upstream.requested) && !upstreamEnded && Left() <= old(Left()) + 1
      ensures old(delivering) ==>
                && Flow() && buffer == old(buffer) + [event]
                && |buffer| + upstreamRequestBalance == |old(buffer)| + old(upstreamRequestBalance)
                && unchanged(`upstream, `upstreamEnded, `requestBalance, `delivering, `alive, `delivered, `refills, `granted)
      ensures !old(delivering) ==> Idle() && (old(!upstream.finished) ==> alive)
      decreases Left() + 1, !delivering, 2
    {
      if |buffer| >= bufferSize {
        assert false;  // buffer overflow: upstream flow control violation
      } else {
        upstreamRequestBalance := Minus(upstreamRequestBalance, 1);
        WindowSnoc(Whole(), |delivered|, |buffer|);
        buffer := buffer + [event];
      }
      MaybeDeliver();
    }

    // ----- subscription -----

    method Request(count: Size)
      requires alive && (!delivering ==> Idle())
      modifies this
      ensures old(delivering) ==>
                && requestBalance == Plus(old(requestBalance), count) && granted == old(granted) + count
                && unchanged(`upstream, `upstreamEnded, `buffer, `upstreamRequestBalance,
                             `delivering, `alive, `delivered, `refills, `outer)
      ensures !old(delivering) ==>
                && Idle() && outer == old(outer) + count
                && (old(AtRest()) ==> AtRest())
      decreases Left(), !delivering, 4
    {
      requestBalance := Plus(requestBalance, count);
      granted := granted + count;
      if !delivering {
        BookRequest(Whole(), react, Never, outer, old(granted), delivered, count);
        outer := outer + count;
      }
      MaybeDeliver();
    }

    // ----- delivery -----

    method MaybeDeliver()
      requires alive && (!delivering ==> Flow() && Accounted())
      modifies this
      ensures outer == old(outer)
      ensures old(delivering) ==>
                unchanged(`upstream, `upstreamEnded, `buffer, `requestBalance, `upstreamRequestBalance,
                          `delivering, `alive, `delivered, `refills, `granted)
      ensures old(!delivering) ==>
                if alive then Drained() && (old(Filled()) ==> Filled()) && Left() <= old(Left()) else Over()
      ensures alive && old(!delivering) ==> UpstreamKept()
      ensures old(upstream.generating && !upstream.finished) ==> alive
      ensures old(buffer) == [] ==> alive && upstream == old(upstream) && upstreamEnded == old(upstreamEnded)
      decreases Left(), !delivering, 1
    {
      if delivering {
        return;
      }
      Deliver();
    }

    method Deliver()
      requires Flow() && Accounted() && !delivering
      modifies this
      ensures outer == old(outer)
      ensures if alive then Drained() && (old(Filled()) ==> Filled()) && Left() <= old(Left()) else Over()
      ensures alive ==> UpstreamKept()
      ensures old(upstream.generating && !upstream.finished) ==> alive
      ensures old(buffer) == [] ==> alive && upstream == old(upstream) && upstreamEnded == old(upstreamEnded)
      decreases Left(), !delivering, 0
    {
      delivering := true;
      DeliverAll();
      if alive {
        delivering := false;
      }
    }

    /** The delivery loop. */
    method DeliverAll()
      requires Flow() && Accounted() && delivering
      modifies this
      ensures outer == old(outer)
      ensures if alive
              then Flow() && Accounted() && delivering && (requestBalance == 0 || buffer == []) &&
                   (old(Filled()) ==> Filled()) && Left() <= old(Left())
              else Over()
      ensures alive ==> UpstreamKept()
      ensures old(upstream.generating && !upstream.finished) ==> alive
      ensures old(buffer) == [] ==> alive && upstream == old(upstream) && upstreamEnded == old(upstreamEnded)
      decreases Left(), !delivering, 18
    {
      while requestBalance > 0 && |buffer| > 0
        invariant Flow() && Accounted() && delivering && outer == old(outer)
        invariant (old(Filled()) ==> Filled()) && Left() <= old(Left())
        invariant UpstreamKept()
        invariant old(buffer) == [] ==> buffer == [] && upstream == old(upstream) && upstreamEnded == old(upstreamEnded)
        decreases Left()
      {
        DeliverOne();
        if !alive {
          return;
        }
        if buffer == [] {
          break;
        }
      }
    }

    /** The body of the loop: a delivery, after which the buffer is refilled if need be. */
    method DeliverOne()
      requires Flow() && Accounted() && delivering && requestBalance > 0 && buffer != []
      modifies this
      ensures outer == old(outer)
      ensures if alive then Flow() && Accounted() && delivering && Filled() && Left() < old(Left()) else Over()
      ensures alive ==> UpstreamKept()
      ensures old(upstream.generating && !upstream.finished) ==> alive
      decreases Left(), !delivering, 16
    {
      DeliverFront();
      if alive {
        MaybeFill();
      }
    }

    /** Delivers the event at the front of the buffer. */
    method DeliverFront()
      requires Flow() && Accounted() && delivering && requestBalance > 0 && buffer != []
      modifies this
      ensures outer == old(outer) && unchanged(`upstream, `upstreamEnded, `upstreamRequestBalance, `refills)
      ensures alive ==> Flow() && Accounted() && delivering && buffer == old(buffer)[1..]
      ensures !alive ==> Over() && upstream.finished
      decreases Left(), !delivering, 10
    {
      var event := buffer[0];
      requestBalance := Minus(requestBalance, 1);
      buffer := buffer[1..];
      Send(event);
      if event.End? {
        delivering := false;
        alive := false;
      }
    }

    method MaybeFill()
      requires Flow() && (!delivering ==> Drained() && UpstreamIdle())
      modifies this
      ensures outer == old(outer)
      ensures old(delivering) ==>
                && Flow() && Filled() && Left() <= old(Left())
                && unchanged(`requestBalance, `delivering, `alive, `delivered, `granted)
                && UpstreamKept()
      ensures !old(delivering) ==> AtRest()
      ensures old(upstreamEnded || |buffer| > refill || |buffer| + upstreamRequestBalance == bufferSize) ==>
                unchanged(`upstream, `upstreamRequestBalance, `buffer, `refills)
      decreases Left(), !delivering, 10
    {
      if upstreamEnded {
        return;
      }
      if |buffer| > refill {
        return;
      }
      var toFill := bufferSize - |buffer|;
      if upstreamRequestBalance >= toFill {
        return;
      }
      Fill(toFill - upstreamRequestBalance);
    }

    /** Requests what is missing in the buffer. */
    method Fill(request: Size)
      requires Flow() && !upstreamEnded && (!delivering ==> Drained() && UpstreamIdle())
      requires |buffer| <= refill && 0 < request == bufferSize - |buffer| - upstreamRequestBalance
      modifies this
      ensures outer == old(outer)
      ensures old(delivering) ==>
                && Flow() && Filled() && Left() <= old(Left())
                && unchanged(`requestBalance, `delivering, `alive, `delivered, `granted)
                && UpstreamKept()
      ensures !old(delivering) ==> AtRest()
      decreases Left(), !delivering, 9
    {
      refills := refills + [Refill(|buffer|, upstreamRequestBalance, request)];
      LogMore(old(refills), refills[|refills| - 1], bufferSize, refill);
      upstreamRequestBalance := Plus(upstreamRequestBalance, request);
      RequestUpstream(request);
    }

    // ----- the upstream -----

    method RequestUpstream(count: Size)
      requires Shape() && Filled() && !upstreamEnded
      requires !upstream.finished ==> upstreamRequestBalance == upstream.requested + count
      requires refills != [] && refills[|refills| - 1].count == count
      requires !delivering ==> Accounted() && (requestBalance == 0 || buffer == []) && !upstream.generating
      modifies this
      ensures outer == old(outer)
      ensures old(delivering) ==>
                && Flow() && Filled() && Left() <= old(Left())
                && unchanged(`requestBalance, `delivering, `alive, `delivered, `granted)
                && UpstreamKept()
      ensures !old(delivering) ==> AtRest()
      decreases Left(), !delivering, 8
    {
      upstream := upstream.Grant(count);
      if !upstream.generating {
        SendSome();
      }
    }

    /** The upstream sends as much of what it owes as it wants to send at once. */
    method SendSome()
      requires Flow() && Filled() && !upstreamEnded && !upstream.generating
      requires !delivering ==> Drained()
      modifies this
      ensures outer == old(outer)
      ensures old(delivering) ==>
                && Flow() && Filled() && Left() <= old(Left())
                && unchanged(`requestBalance, `delivering, `alive, `delivered, `granted)
                && UpstreamIdle()
      ensures !old(delivering) ==> AtRest()
      decreases Left(), !delivering, 6
    {
      upstream := upstream.(generating := true);
      while !upstreamEnded && upstream.requested > 0 && eager(upstream.index, upstream.requested)
        invariant outer == old(outer)
        invariant upstreamEnded || (upstream.generating && !upstream.finished && Flow() && Filled() && Left() <= old(Left()))
        invariant old(delivering) ==>
                    && Flow() && Filled() && Left() <= old(Left())
                    && unchanged(`requestBalance, `delivering, `alive, `delivered, `granted)
        invariant !old(delivering) ==> Idle()
        decreases !upstreamEnded, if upstream.Valid() then upstream.Remaining() else 0
      {
        SendOne();
      }
      if !upstreamEnded {
        upstream := upstream.(generating := false);
      }
    }

    /** The upstream sends one event, and deletes itself if that was its end. */
    method SendOne()
      requires Flow() && Filled() && !upstreamEnded && upstream.generating && !upstream.finished && upstream.requested > 0
      requires !delivering ==> Drained()
      modifies this
      ensures outer == old(outer)
      ensures upstreamEnded || (upstream.generating && !upstream.finished && Flow() && Filled())
      ensures !upstreamEnded ==> upstream.Remaining() < old(upstream.Remaining()) && Left() <= old(Left())
      ensures old(delivering) ==>
                && Flow() && Filled() && Left() <= old(Left())
                && unchanged(`requestBalance, `delivering, `alive, `delivered, `granted)
      ensures !old(delivering) ==> Idle()
      decreases Left(), !delivering, 4
    {
      var event := upstream.Event();
      upstream := upstream.Advance();
      OnNext(event);
      if event.End? {
        upstreamEnded := true;
      }
    }

    /** Something the upstream owes arrives later. */
    method Arrive()
      requires AtRest() && alive && upstream.requested > 0 && !upstreamEnded
      modifies this
      ensures AtRest() && outer == old(outer)
    {
      upstream := upstream.(generating := true);
      SendOne();
      if !upstreamEnded {
        upstream := upstream.(generating := false);
        SendSome();
      }
    }

    /** What being at rest means for the two sides of the stream. */
    lemma RestMeans()
      requires AtRest() && 0 < bufferSize
      ensures Earned(Whole(), react, Never, outer, |delivered|)
      ensures WellTimed(refills, bufferSize, refill) && Tally(refills) >= |delivered|
      ensures alive ==> delivered + buffer <= Whole() && |buffer| + upstreamRequestBalance <= bufferSize
      ensures alive ==> Tally(refills) == |delivered| + |buffer| + upstreamRequestBalance
      ensures alive && |buffer| <= refill ==> |buffer| + upstreamRequestBalance == bufferSize || delivered + buffer == Whole()
      ensures !alive ==> delivered == Whole()
      ensures || Settled(Whole(), react, Never, outer, delivered)
              || (alive && buffer == [] && upstreamRequestBalance == bufferSize &&
                  exists sent: nat, owed: nat :: !eager(sent, owed))
    {
      if alive {
        WindowIsSlice(Whole(), |delivered|, |buffer|);
        if requestBalance == 0 {
          BooksSettle(Whole(), react, Never, outer, granted, delivered);
        } else if upstreamEnded {
          BooksSettle(Whole(), react, Never, outer, granted, delivered);
        } else {
          assert !eager(upstream.index, upstream.requested);
        }
      } else {
        BooksSettle(Whole(), react, Never, outer, granted, delivered);
      }
    }

    method Serve(stimulus: Stimulus)
      requires AtRest() && alive
      modifies this
      ensures AtRest() && outer == old(outer) + if stimulus.Demanded? then stimulus.count else 0
    {
      if stimulus.Demanded? {
        Request(stimulus.count);
      } else if upstream.requested > 0 && !upstreamEnded {
        Arrive();
      }
    }

    method ServeAll(stimuli: seq<Stimulus>, ghost initial: nat) returns (done: nat)
      requires AtRest() && outer == initial
      modifies this
      ensures AtRest() && done <= |stimuli| && (done < |stimuli| ==> !alive)
      ensures outer == initial + DemandedTo(stimuli, done)
    {
      done := 0;
      while done < |stimuli| && alive
        invariant done <= |stimuli| && AtRest() && outer == initial + DemandedTo(stimuli, done)
        decreases |stimuli| - done
      {
        Serve(stimuli[done]);
        done := done + 1;
      }
    }

    // ----- the downstream subscriber -----

    method Send(event: Event<T>)
      requires alive && delivering
      requires Booked(Whole(), react, Never, outer, granted, delivered) && Covers(granted, |delivered|)
      requires delivered + [event] <= Whole() && (event.End? ==> delivered + [event] == Whole())
      modifies this
      ensures delivered == old(delivered) + [event]
      ensures if event.Next? then Booked(Whole(), react, Never, outer, granted, delivered)
              else Closed(Whole(), react, Never, outer, delivered)
      ensures forall used: nat :: old(Credit(requestBalance, granted, used)) ==> Credit(requestBalance, granted, used)
      ensures unchanged(`upstream, `upstreamEnded, `buffer, `upstreamRequestBalance, `delivering, `alive, `refills, `outer)
      decreases Left(), !delivering, 8
    {
      Book(Whole(), react, Never, outer, granted, delivered, event);
      delivered := delivered + [event];
      React(Reply(react, delivered));
    }

    method React(requests: seq<Size>)
      requires alive && delivering
      modifies this
      ensures granted == old(granted) + Sum(requests)
      ensures forall used: nat :: old(Credit(requestBalance, granted, used)) ==> Credit(requestBalance, granted, used)
      ensures unchanged(`upstream, `upstreamEnded, `buffer, `upstreamRequestBalance,
                        `delivering, `alive, `delivered, `refills, `outer)
      decreases Left(), !delivering, 6
    {
      for i := 0 to |requests|
        invariant granted == old(granted) + SumTo(requests, i)
        invariant forall used: nat :: old(Credit(requestBalance, granted, used)) ==> Credit(requestBalance, granted, used)
        invariant unchanged(`upstream, `upstreamEnded, `buffer, `upstreamRequestBalance,
                            `delivering, `alive, `delivered, `refills, `outer)
      {
        Request(requests[i]);
      }
    }
  }

  function DemandedTo(stimuli: seq<Stimulus>, n: nat): nat
    requires n <= |stimuli|
  {
    if n == 0 then 0
    else DemandedTo(stimuli, n - 1) + if stimuli[n - 1].Demanded? then stimuli[n - 1].count else 0
  }

  /** A prefetched publisher against any upstream that obeys flow control and any subscriber.
      Nothing is requested from the upstream while more is buffered than the refill mark allows.
      Nothing is lost, duplicated or delivered without demand, the buffer never overflows, and the
      stream never stalls: it is settled unless it waits, empty, for a full buffer's worth. */
  method Run<T>(script: Script<T>, eager: Eagerness, bufferSize: Size, refill: nat, react: Reaction<T>,
                initial: Size, stimuli: seq<Stimulus>)
    returns (delivered: seq<Event<T>>, buffered: seq<Event<T>>, outstanding: Size, refills: seq<Refill>, done: nat)
    requires 0 < bufferSize < KMAX && refill <= bufferSize
    ensures done <= |stimuli| && (done < |stimuli| ==> delivered == EventsOf(script))
    ensures delivered + buffered <= EventsOf(script) && |buffered| + outstanding <= bufferSize
    ensures WellTimed(refills, bufferSize, refill)
    ensures if delivered == EventsOf(script) then Tally(refills) >= |delivered|
            else Tally(refills) == |delivered| + |buffered| + outstanding
    ensures |buffered| > refill || |buffered| + outstanding == bufferSize || delivered + buffered == EventsOf(script)
    ensures Earned(EventsOf(script), react, Never, initial + DemandedTo(stimuli, done), |delivered|)
    ensures Settled(EventsOf(script), react, Never, initial + DemandedTo(stimuli, done), delivered)
         || (buffered == [] && outstanding == bufferSize)
    ensures (forall sent: nat, owed: nat :: eager(sent, owed)) ==>
              Settled(EventsOf(script), react, Never, initial + DemandedTo(stimuli, done), delivered)
  {
    var stream := new PrefetchingStream(script, eager, bufferSize, refill, react, initial);
    done := stream.ServeAll(stimuli, initial);
    stream.RestMeans();
    delivered := stream.delivered;
    buffered := if stream.alive then stream.buffer else [];
    outstanding := if stream.alive then stream.upstreamRequestBalance else 0;
    refills := stream.refills;
  }
}
