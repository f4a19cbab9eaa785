/** Async streams: a publisher produced on one worker and consumed on another. Each worker executes
    one task at a time; between two steps of one the other may take any number of steps. */
module Asyncs {
  import opened RequestBalances
  import opened Events
  import opened Generators
  import opened SerialWorkers

  /** The tasks of the stream: subscribe to the input, request from it (both for the producer),
      pass on the subscription, and an event (both for the consumer). Anything else that is
      scheduled on the two workers is Other. */
  datatype Task<T> = Subscribe | Ask(tokens: Size) | Open | Deliver(event: Event<T>) | Other(id: nat)

  /** Where the task in execution is. */
  datatype ProducerAt = ProducerOut | Entry | Generating | Deleting | ProducerExit
  datatype ConsumerAt = ConsumerOut | Check | Call | Request(made: nat) | ConsumerExit

  /** The requests the consumer makes in the callback for the last event of its history, one after
      the other; in OnSubscribe the history is empty. */
  type Demands<!T> = seq<Event<T>> -> seq<Size>

  function Requests<T>(demands: Demands<T>, history: seq<Event<T>>): seq<Size> {
    demands(history)
  }

  /** `failed` once a staleness check has aborted the program. */
  datatype Stream<T> = Stream(
    submitted: bool,          // Subscribe was scheduled
    created: bool,            // the stream was created and subscribed to its input
    input: Source<T>,
    ended: bool,              // the stream deleted itself
    producerAt: ProducerAt,
    consumerAt: ConsumerAt,
    greeted: bool,             // the consumer's OnSubscribe was called
    seen: seq<Event<T>>,      // the events it was called with
    failed: bool,
    given: nat,               // the tokens the producer took from its queue
    asked: nat)               // the tokens the consumer requested

  datatype State<T> = State(produce: Serial<Task<T>>, consume: Serial<Task<T>>, stream: Stream<T>)

  datatype Step =
    | Submit                             // someone subscribes to the asynchronous publisher
    | ScheduleOther(onProducer: bool, id: nat)
    | BeginProduce | Produce | EndProduce  // the producer's task: starts, gets on, returns
    | BeginConsume | Consume | EndConsume  // the consumer's task

  predicate Enabled<T>(s: State<T>, demands: Demands<T>, step: Step) {
    !s.stream.failed &&
    match step
    case Submit => !s.stream.submitted
    case ScheduleOther(_, _) => true
    case BeginProduce => CanMove(s.produce, Start)
    case Produce => CanMove(s.produce, Stop) && ProducerGetsOn(s.stream, s.produce.queue[0])
    case EndProduce => CanMove(s.produce, Stop) && s.stream.producerAt.ProducerExit?
    case BeginConsume => CanMove(s.consume, Start)
    case Consume => CanMove(s.consume, Stop) && ConsumerGetsOn(s.stream, demands, s.consume.queue[0])
    case EndConsume => CanMove(s.consume, Stop) && s.stream.consumerAt.ConsumerExit?
  }

  predicate ProducerGetsOn<T>(stream: Stream<T>, task: Task<T>) {
    match stream.producerAt
    case Entry => task.Subscribe? || task.Ask?
    case Generating => true
    case Deleting => true
    case _ => false
  }

  predicate ConsumerGetsOn<T>(stream: Stream<T>, demands: Demands<T>, task: Task<T>) {
    match stream.consumerAt
    case Check => task.Open? || task.Deliver?
    case Call => task.Open? || task.Deliver?
    case Request(made) => made < |Requests(demands, stream.seen)|
    case _ => false
  }

  /** In the callback for the last event of the history, after `made` requests. */
  function Asking<T>(demands: Demands<T>, history: seq<Event<T>>, made: nat): ConsumerAt {
    if made < |Requests(demands, history)| then Request(made) else ConsumerExit
  }

  function Begun<T>(stream: Stream<T>, onProducer: bool, task: Task<T>): Stream<T> {
    if onProducer then stream.(producerAt := if task.Other? then ProducerExit else Entry)
    else stream.(consumerAt := if task.Other? then ConsumerExit else Check)
  }

  function Ended<T>(stream: Stream<T>, onProducer: bool): Stream<T> {
    if onProducer then stream.(producerAt := ProducerOut) else stream.(consumerAt := ConsumerOut)
  }

  /** A step of the producer's task, and what it schedules on the consumer. Requests for a stream
      that has ended are ignored; the generating loop runs while there are requests. */
  function Producing<T>(stream: Stream<T>, task: Task<T>): (Stream<T>, Move<Task<T>>)
    requires ProducerGetsOn(stream, task)
  {
    match stream.producerAt
    case Entry =>
      if task.Subscribe? then (stream.(created := true, producerAt := ProducerExit), Enqueue(Open))
      else if stream.ended then (stream.(producerAt := ProducerExit, given := stream.given + task.tokens), Nothing)
      else
        (stream.(input := stream.input.Grant(task.tokens), given := stream.given + task.tokens, producerAt := Generating),
         Nothing)
    case Generating =>
      if stream.input.requested > 0 then
        var event := stream.input.Event();
        (stream.(input := stream.input.Advance(), producerAt := if event.End? then Deleting else Generating),
         Enqueue(Deliver(event)))
      else (stream.(producerAt := ProducerExit), Nothing)
    case Deleting =>
      (stream.(ended := true, producerAt := ProducerExit), Nothing)
  }

  /** A step of the consumer's task, and what it schedules on the producer. */
  function Consuming<T>(stream: Stream<T>, demands: Demands<T>, task: Task<T>): (Stream<T>, Move<Task<T>>)
    requires ConsumerGetsOn(stream, demands, task)
  {
    match stream.consumerAt
    case Check =>
      // The end marker's task owns the subscriber and does not check.
      (stream.(consumerAt := Call, failed := (task.Open? || task.event.Next?) && stream.ended), Nothing)
    case Call =>
      var seen := if task.Open? then stream.seen else stream.seen + [task.event];
      (stream.(greeted := stream.greeted || task.Open?, seen := seen, consumerAt := Asking(demands, seen, 0)), Nothing)
    case Request(made) =>
      // A request for a stream that has ended aborts.
      if stream.ended then (stream.(failed := true), Nothing)
      else
        var tokens := Requests(demands, stream.seen)[made];
        (stream.(asked := stream.asked + tokens, consumerAt := Asking(demands, stream.seen, made + 1)), Enqueue(Ask(tokens)))
  }

  function After<T>(s: State<T>, demands: Demands<T>, step: Step): State<T>
    requires Enabled(s, demands, step)
  {
    match step
    case Submit => s.(produce := Moved(s.produce, Enqueue(Subscribe)), stream := s.stream.(submitted := true))
    case ScheduleOther(onProducer, id) =>
      if onProducer then s.(produce := Moved(s.produce, Enqueue(Other(id))))
      else s.(consume := Moved(s.consume, Enqueue(Other(id))))
    case BeginProduce => s.(produce := Moved(s.produce, Start), stream := Begun(s.stream, true, s.produce.queue[0]))
    case Produce =>
      var (stream, move) := Producing(s.stream, s.produce.queue[0]);
      s.(stream := stream, consume := Moved(s.consume, move))
    case EndProduce => s.(produce := Moved(s.produce, Stop), stream := Ended(s.stream, true))
    case BeginConsume => s.(consume := Moved(s.consume, Start), stream := Begun(s.stream, false, s.consume.queue[0]))
    case Consume =>
      var (stream, move) := Consuming(s.stream, demands, s.consume.queue[0]);
      s.(stream := stream, produce := Moved(s.produce, move))
    case EndConsume => s.(consume := Moved(s.consume, Stop), stream := Ended(s.stream, false))
  }

  function Unsubscribed<T>(script: Script<T>): Stream<T> {
    Stream(false, false, Fresh(script), false, ProducerOut, ConsumerOut, false, [], false, 0, 0)
  }
}
