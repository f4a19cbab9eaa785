/** Generated streams: elements are produced while there are requests for them, and a request
    made inside the subscriber's callback only extends the loop that is already running. */
module Generators {
  import opened RequestBalances
  import opened Events

  class GeneratingStream<T> {
    const script: Script<T>
    const react: Reaction<T>
    const quits: Quitting<T>

    var index: nat        // the generator's state
    var requested: Size
    var generating: bool
    var alive: bool       // false once the stream deleted itself

    var delivered: seq<Event<T>>  // what the subscriber has received
    ghost var granted: nat        // everything ever requested
    ghost var outer: nat          // the part of it requested outside callbacks

    ghost function Whole(): seq<Event<T>> {
      EventsOf(script)
    }

    /** What holds whenever no event is on its way. */
    ghost predicate Steady()
      reads this
    {
      && alive
      && |delivered| == index <= |script.values|
      && Booked(Whole(), react, quits, outer, granted, delivered)
      && Credit(requested, granted, |delivered|)
    }

    /** The stream deleted itself after its last event or was cancelled. */
    ghost predicate Over()
      reads this
    {
      !alive && Closed(Whole(), react, quits, outer, delivered)
    }

    /** No call is in progress. */
    ghost predicate AtRest()
      reads this
    {
      if alive then Steady() && !generating && requested == 0 else Over()
    }

    constructor (script: Script<T>, react: Reaction<T>, quits: Quitting<T>)
      ensures AtRest() && alive && delivered == [] && outer == 0
      ensures this.script == script && this.react == react && this.quits == quits
    {
      this.script, this.react, this.quits := script, react, quits;
      index, requested, generating, alive := 0, 0, false, true;
      delivered, granted, outer := [], 0, 0;
    }

    /** From outside, runs the stream until all demand is met; from inside a callback, only
        records the demand. Generate is thus never re-entered. */
    method Request(count: Size)
      requires alive && (!generating ==> AtRest())
      modifies this
      ensures old(generating) ==>
                && requested == Plus(old(requested), count) && granted == old(granted) + count
                && alive && generating && index == old(index) && delivered == old(delivered) && outer == old(outer)
      ensures !old(generating) ==> AtRest() && outer == old(outer) + count
      decreases |script.values| + 1 - |delivered|, 4
    {
      requested := Plus(requested, count);
      granted := granted + count;
      if !generating {
        BookRequest(Whole(), react, quits, outer, old(granted), delivered, count);
        outer := outer + count;
        Generate();
      }
    }

    method Generate()
      requires Steady() && !generating
      modifies this
      ensures AtRest() && outer == old(outer)
      decreases |script.values| + 1 - |delivered|, 3
    {
      generating := true;
      while requested > 0
        invariant Steady() && generating
        invariant outer == old(outer)
        decreases |script.values| + 1 - |delivered|
      {
        requested := Minus(requested, 1);
        var event := Produce(index, script);
        if index < |script.values| {
          index := index + 1;
        }
        OnNext(event);
        if !alive {
          return;
        }
        if event.End? {
            alive := false;
          return;
        }
      }
      generating := false;
    }

    /** The subscriber's callback. */
    method OnNext(event: Event<T>)
      requires alive && generating
      requires delivered + [event] <= Whole()
      requires Booked(Whole(), react, quits, outer, granted, delivered)
      requires Covers(granted, |delivered|)
      requires Credit(requested, granted, |delivered| + 1)
      modifies this
      ensures delivered == old(delivered) + [event]
      ensures if alive then Booked(Whole(), react, quits, outer, granted, delivered) else Over()
      ensures Credit(requested, granted, |delivered|)
      ensures generating && index == old(index) && outer == old(outer)
      decreases |script.values| + 1 - |delivered|, 2
    {
      Book(Whole(), react, quits, outer, granted, delivered, event);
      delivered := delivered + [event];
      React(Reply(react, delivered));
      if Leaves(quits, delivered) {
        Cancel();
      }
    }

    /** The requests the subscriber makes inside the callback. */
    method React(requests: seq<Size>)
      requires alive && generating && Credit(requested, granted, |delivered|)
      modifies this
      ensures granted == old(granted) + Sum(requests) && Credit(requested, granted, |delivered|)
      ensures alive && generating && index == old(index) && delivered == old(delivered) && outer == old(outer)
      decreases |script.values| + 1 - |delivered|, 5
    {
      for i := 0 to |requests|
        invariant granted == old(granted) + SumTo(requests, i) && Credit(requested, granted, |delivered|)
        invariant alive && generating && index == old(index) && delivered == old(delivered) && outer == old(outer)
      {
        Request(requests[i]);
      }
    }

    method Cancel()
      requires alive
      modifies this`alive
      ensures !alive
    {
      alive := false;
    }
  }

  /** A generated stream as an operator that subscribes to it holds it: the same four fields,
      by value. `finished` is set when it has produced its end marker and is about to delete
      itself. */
  datatype Source<+T> = Source(script: Script<T>, index: nat, requested: Size, generating: bool, finished: bool) {
    predicate Valid() {
      index <= |script.values| && (finished ==> index == |script.values|)
    }

    /** How many more times it can produce. */
    function Remaining(): nat
      requires Valid()
    {
      if finished then 0 else |script.values| - index + 1
    }

    function Event(): Event<T> {
      Produce(index, script)
    }

    /** The source once it has produced its next event. */
    function Advance(): Source<T>
      requires requested > 0
    {
      this.(index := if index < |script.values| then index + 1 else index,
            requested := Minus(requested, 1),
            finished := index >= |script.values|)
    }

    function Grant(count: Size): Source<T> {
      this.(requested := Plus(requested, count))
    }
  }

  function Fresh<T>(script: Script<T>): Source<T> {
    Source(script, 0, 0, false, false)
  }

  /** The generator of a value publisher: the value at the index, then the end marker forever. */
  function Produce<T>(index: nat, script: Script<T>): Event<T> {
    if index >= |script.values| then End(script.end) else Next(script.values[index])
  }

  /** What a source that is not finished produces next continues what it has sent. */
  lemma ContinuesScript<T>(source: Source<T>, sent: seq<Event<T>>)
    requires source.Valid() && !source.finished && |sent| == source.index && sent <= EventsOf(source.script)
    ensures sent + [source.Event()] <= EventsOf(source.script)
    ensures source.Event().End? ==> sent + [source.Event()] == EventsOf(source.script)
  {
  }

  /** A generated stream subscribed by an arbitrary subscriber, then requested from outside an
      arbitrary number of times. */
  method Run<T>(script: Script<T>, react: Reaction<T>, quits: Quitting<T>, requests: seq<Size>)
    returns (delivered: seq<Event<T>>)
    ensures Settled(EventsOf(script), react, quits, Sum(requests), delivered)
  {
    var stream := new GeneratingStream(script, react, quits);
    var i := 0;
    while i < |requests| && stream.alive
      invariant i <= |requests| && fresh(stream)
      invariant stream.script == script && stream.react == react && stream.quits == quits
      invariant stream.AtRest() && stream.outer == SumTo(requests, i)
    {
      stream.Request(requests[i]);
      i := i + 1;
    }
    SumGrows(requests, i, |requests|);
    if !stream.alive {
      ClosedGrows(stream.Whole(), react, quits, stream.outer, Sum(requests) - stream.outer, stream.delivered);
    }
    BooksSettle(EventsOf(script), react, quits, Sum(requests), stream.granted, stream.delivered);
    delivered := stream.delivered;
  }

  /** Towards the subscriber that MakeWithFlowControl makes, whose first request comes in OnSubscribe. */
  method RunWithFlowControl<T>(script: Script<T>) returns (delivered: seq<Event<T>>)
    ensures delivered == EventsOf(script)
  {
    delivered := Run(script, WithFlowControl<T>(), Never, [1]);
    assert Sum([1]) == SumTo([1], 0) + 1;
    FlowControlKeepsUp(script, delivered);
  }
}
