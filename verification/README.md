# A verified model of strict-flow-control reactive streams

RxCppUniq is a C++ library of reactive streams in which a producer never sends an event that was not
requested. This project models its stream operators, the thread pool with its serial workers, and the
clients that combine the two, and proves what they promise.

## What the project models

**Streams** (`RequestBalance.dfy`, `Events.dfy`, `Generators.dfy`, `FlatMap.dfy`, `Concat.dfy`,
`Merge.dfy`, `MergeLaws.dfy`, `Prefetch.dfy`, `Chaining.dfy`, `Buffer.dfy`, `Mapping.dfy`, `Binds.dfy`). Every operator is a class with the fields of the C++ class: its credit
counters, lookahead buffers and re-entrancy flags. A subscriber is arbitrary: for every history of events
it makes an arbitrary list of requests inside the callback, and more requests come from outside. A call to
`OnNext` therefore re-enters the operator while its loop is running, just as in C++, and Dafny proves that
all of it terminates.

The contract is the same for all operators. Each has a specification function that says which events it
delivers when demand is unlimited: the values and the end marker, `Flatten`, `Append`, `RoundRobin`, the
chunks, the mapped events. Its `Run` method drives a stream from subscription through any number of
requests and ends in a state that `Events.Settled` describes:

- what was delivered is a prefix of the specified events;
- every event was requested before it was delivered (a demand of `KMAX` or more is infinite);
- the stream stopped for one of three reasons only: all events were delivered, the subscriber cancelled,
  or all demand is met.

`SettledMeans` says the same on the subscriber's own functions, and `SettledIsDeterministic` shows that this
leaves an operator no choice at all. The specification functions
have laws of their own: projections and fairness of the interleaving, conservation of the chunks, the monad
laws of flat map.

**Pipelines** (`Pipelines.dfy`, `PipelineLaws.dfy`, `Session.dfy`, `Single.dfy`, `Primes.dfy`, `Sieve.dfy`).
Publishers are built from publishers: generators, flat maps and maps, the base and the continuations of a flat
map being any of them. Each stream of a subscription deals with its upstream only through a request and a
callback, and strict flow control is proved from one stream to the next: a flat map obeys it if its base and
its active continuation do, whatever streams they are (`Pipelines.FlatMapIsStrict`,
`Pipelines.FlatMapServes`); hence every pipeline does, endless ones and ones whose functions share state
included. A pipeline whose publishers end delivers the composition of what they stand for
(`PipelineLaws.AdvanceTells`, `Sessions.Run`). Chains of singles and the sieve over its endless stream of
numbers are such pipelines.

**Scheduler** (`Scheduler.dfy`, `SchedulerLaws.dfy`, `SchedulerGuarantees.dfy`, `SchedulerOrder.dfy`,
`SerialWorkers.dfy`, `ThreadPool.dfy`). The thread pool and its workers are a transition system with any number of threads and
workers. Its steps are the critical sections, the end of a task, and the spurious wakeups of a condition
variable; a run is any interleaving of them. The classes in `ThreadPool.dfy` are the C++ objects, and each
of their methods is one critical section, proved to be that step.

**Asynchronous streams** (`Async.dfy`, `AsyncLaws.dfy`, `AsyncExactly.dfy`, `AsyncOnPool.dfy`,
`AsyncGuarantees.dfy`, `AsyncProgress.dfy`, `AsyncLifting.dfy`). The stream's tasks are small programs whose steps interleave freely: between two of
them the other worker may take any number. They run first between two serial workers, then on the workers
of the thread pool among everything else the scheduler does. The pool refines the serial workers
(`SerialWorkers.Simulates`), hence the program on the pool refines the program on the serial workers
(`AsyncOnPool.PoolStepRefines` and its siblings). A consumer makes any list of requests in each callback.
Some thread can always get on, each step of work leaves less of it, and a failing run between serial workers
is lifted to the threads of a pool.

## Where the code and its comments part

- Merge counts available elements with a `RequestBalance` and takes one back by adding the `int` -1, which
  saturates the counter (`RequestBalances.MinusOneSaturates`). The model keeps the counter as it is; the
  delivery loop is proved to terminate all the same, because a live source always has its next event at hand.
- Merge promises to cancel the other sources after an error. It aborts instead exactly if another source had
  already ended, with its end marker still in the lookahead (`MergeLaws.CancelClashesExactly`).
- Buffer multiplies requests without a check for overflow. Any subscriber is served exactly if no product
  overflows of the requests it gets to make, or what is left of the products still covers the whole base
  (`Buffers.BufferServesExactly`); requests from outside alone are served exactly if all products fit or what
  is left of them adds up to more than the base has (`Buffers.SilentServedExactly`). 2^63 chunks of two ask for
  nothing (`Buffers.OverflowExample`).
- A flat map that is asked for zero events from outside consumes an element of its base, or delivers the end
  marker without any demand, unless it has an active continuation (`PipelineLaws.ZeroRequest`,
  `PipelineLaws.OwingRepays`); nothing else is ever delivered without demand (`Sessions.Run`).
- Map forwards an error of the mapped function without ending the stream, which is well-formed exactly if the
  function never fails (`Mapping.MapIsWellFormedExactly`).
- A staleness check of an asynchronous stream can fail exactly if the consumer overtakes itself: at some point
  it has asked for the end marker while it still has an element to handle or another request to make in the
  same callback (`AsyncLifting.ChecksFailExactly`). Requesting twice in the callback for the only element, the
  first time for the end marker, is enough (`AsyncLifting.TwiceFails`); one request at a time is safe.

## Model

| member | source | states |
|---|---|---|
| RequestBalances.RequestBalance.constructor | rxcppuniq/reactive/reactive.h:605 | a new balance has no requests |
| RequestBalances.RequestBalance.Add | rxcppuniq/reactive/reactive.cc:23-25 | addition saturates at the maximum of `size_t` |
| RequestBalances.RequestBalance.Remove | rxcppuniq/reactive/reactive.cc:27-35 | removal is exact below the maximum, has no effect at the maximum, and demands a covering balance |
| RequestBalances.RequestBalance.Reset | rxcppuniq/reactive/reactive.h:602 | reset forgets all requests |
| RequestBalances.CounterSimulatesIdealDemand | rxcppuniq/reactive/reactive.cc:23-35 | over any history of covered operations the counter never aborts; it equals the unbounded demand until that first reaches the maximum, and the maximum from then until a reset |
| RequestBalances.DemandIsNeverForgotten | rxcppuniq/reactive/reactive.h:589-598 | positive demand is never reported as having no requests |
| RequestBalances.OnlyTheSumMatters | rxcppuniq/reactive/reactive.cc:23-25 | a series of additions leaves what its sum leaves, so the order of requests is irrelevant wherever saturation strikes |
| RequestBalances.MinusOneSaturates | rxcppuniq/reactive/reactive_impl.inc:857-858 | adding the `int` -1 sends every balance to the maximum instead of taking one back |
| RequestBalances.FromIntWraps | rxcppuniq/reactive/reactive_impl.inc:857-858 | the conversion of a signed number differs from it by a multiple of 2^64 |
| Events.SettledIsDeterministic | rxcppuniq/reactive/reactive.h:186-194 | two streams at rest that obey strict flow control towards the same subscriber delivered the same events |
| Events.SettledGrows | rxcppuniq/reactive/reactive.h:186-194 | further requests only extend what was delivered |
| Events.SettledCount | rxcppuniq/reactive/reactive.h:186-194 | against a subscriber that requests nothing in callbacks, exactly min(total requested, number of events) events are delivered |
| Events.AskedIsTotal | rxcppuniq/reactive/reactive_impl.inc:150-164 | the demand made in callbacks is the total of what the subscriber's function returns in each of them: no request is dropped or counted twice |
| Events.SettledMeans | rxcppuniq/reactive/reactive.h:186-194 | the contract of every operator in terms of the subscriber's functions alone: nothing comes before it was requested or after a cancellation, and the stream stops at its end, at a cancellation or with all demand met |
| Events.NothingFollowsCancel | rxcppuniq/reactive/reactive_impl.inc:176-183 | no event follows a callback in which the subscriber cancelled |
| Events.KeepsUp | rxcppuniq/reactive/reactive.h:186-194 | a subscriber that requests one event from outside and another in the callback for each element receives all events |
| Events.FlowControlKeepsUp | rxcppuniq/reactive/reactive_impl.inc:102-116 | the subscriber that MakeWithFlowControl makes receives all events of any publisher |
| Generators.GeneratingStream.Request | rxcppuniq/reactive/reactive_impl.inc:150-164 | from outside, a request runs the stream until all demand is met; inside a callback it only adds to the balance, so generation is never re-entered |
| Generators.GeneratingStream.Generate | rxcppuniq/reactive/reactive_impl.inc:170-192 | the loop ends with all demand met, with the end marker delivered, or with the subscriber having cancelled |
| Generators.GeneratingStream.OnNext | rxcppuniq/reactive/reactive_impl.inc:176-183 | an event is delivered only when covered by demand; the books of demand and delivery are kept through all re-entrant requests |
| Generators.GeneratingStream.Cancel | rxcppuniq/reactive/reactive_impl.inc:144-148 | cancellation deletes the stream |
| Generators.Run | rxcppuniq/reactive/reactive_impl.inc:227-240 | a value publisher delivers exactly its values and the end marker, as far as they were requested; nothing follows a cancellation in a callback |
| Generators.RunWithFlowControl | rxcppuniq/reactive/reactive_impl.inc:102-116 | towards that subscriber a value publisher delivers its values and the end marker, each requested in the callback for the one before |
| FlatMaps.FlatMapStream.Request | rxcppuniq/reactive/reactive_impl.inc:1191-1205 | a request leaves the credit of the active continuation equal to the undelivered demand; the unsigned difference never underflows; without a continuation one element is requested from the base |
| FlatMaps.FlatMapStream.GenerateBase | rxcppuniq/reactive/reactive_impl.inc:170-192 | at most one request to the base is outstanding whenever its loop goes round |
| FlatMaps.FlatMapStream.OnNext | rxcppuniq/reactive/reactive_impl.inc:1209-1244 | a base event is replaced by the stream of its continuation, whose credit is aligned with the balance; the flow control error branch is unreachable |
| FlatMaps.FlatMapStream.OnNextCont | rxcppuniq/reactive/reactive_impl.inc:1253-1276 | a continuation's element is charged to both counters; its Done leads to the next base element if there is demand, its error ends the whole |
| FlatMaps.FlatMapStream.Terminate | rxcppuniq/reactive/reactive_impl.inc:1278-1281 | an error is delivered as the last event and ends the stream |
| FlatMaps.SplicedEvent | rxcppuniq/reactive/reactive_impl.inc:1253-1276 | the active continuation's next event is the next event of the flattened sequence |
| FlatMaps.FlattenIsConcatenation | rxcppuniq/reactive/reactive_impl.inc:1209-1244 | for a function of the element alone, the output is the concatenation of the continuations' outputs up to the first error |
| FlatMaps.ReplacedInTurn | rxcppuniq/reactive/reactive_impl.inc:1228-1229 | a base element is replaced by what the continuation returns for it at the time when it is fetched, all that was delivered by then included |
| FlatMaps.Run | rxcppuniq/reactive/reactive_impl.inc:1191-1285 | flat map delivers exactly the flattened sequence as far as it was requested, for any base, any continuation (even one that depends on what was delivered) and any re-entrant demand of at least one per outer request |
| Concats.ConcatStream.Request | rxcppuniq/reactive/reactive_impl.inc:1074-1080 | a request leaves the balance equal to the credit of the active upstream, also across the switch |
| Concats.ConcatStream.OnSubscribe | rxcppuniq/reactive/reactive_impl.inc:1084-1097 | the undelivered demand is rolled over to the second stream |
| Concats.ConcatStream.OnNext | rxcppuniq/reactive/reactive_impl.inc:1099-1114 | elements are charged, the first stream's Done is not and switches over, an error ends the whole and the second stream is never subscribed |
| Concats.AppendsEvents | rxcppuniq/reactive/reactive_impl.inc:1099-1114 | event by event: the first stream's values, then its error, or the second stream's values and end |
| Concats.Run | rxcppuniq/reactive/reactive_impl.inc:1055-1117 | concatenation delivers exactly the first stream's values and then the second's events, or ends with the first's error |
| Merges.MergeStream.ConsumeNext | rxcppuniq/reactive/reactive_impl.inc:749-760 | consuming a lookahead requests the next event, which a synchronous source sends at once |
| Merges.MergeStream.MaybeDeliver | rxcppuniq/reactive/reactive_impl.inc:865-916 | the delivery loop terminates although the count of available elements saturates; it leaves all demand met or the stream over |
| Merges.MergeStream.DeliverTurn | rxcppuniq/reactive/reactive_impl.inc:876-913 | one turn of the round-robin delivers what the interleaving says for that turn |
| Merges.MergeStream.Fail | rxcppuniq/reactive/reactive_impl.inc:893-900 | an error is delivered as the last event; the cancellation of the others aborts exactly if one of them has already ended |
| Merges.MergeStream.Finish | rxcppuniq/reactive/reactive_impl.inc:901-913 | Done is delivered once, after all sources have ended |
| Merges.Turn | rxcppuniq/reactive/reactive_impl.inc:865-916 | a turn moves slots, output and position of the interleaving in step |
| Merges.Run | rxcppuniq/reactive/reactive_impl.inc:732-916 | merging delivers exactly the round-robin interleaving as far as it was requested |
| MergeLaws.SharesAreInOrder | rxcppuniq/reactive/reactive_impl.inc:875-890 | of whatever was delivered, each source's share is an in-order prefix of the source; a complete merge without errors loses and duplicates nothing |
| MergeLaws.RoundRobinIsInOrder | rxcppuniq/reactive/reactive_impl.inc:865-916 | round-robin exactly: at every place comes the value whose round and source are next after the values before it, or the error of a source whose turn it is, or Done once all sources are done; the end comes last and only last |
| MergeLaws.Fair | rxcppuniq/reactive/reactive_impl.inc:875-882 | at any time two sources' shares differ by at most one, unless the smaller one is exhausted |
| MergeLaws.CancelClashesExactly | rxcppuniq/reactive/reactive_impl.inc:839-849 | cancelling the others after an error aborts exactly if another source has already ended beside the first error |
| MergeLaws.CancelClashExample | rxcppuniq/reactive/reactive_impl.inc:839-849 | two sources for which the cancellation aborts |
| Prefetches.PrefetchingStream.OnSubscribe | rxcppuniq/reactive/reactive_impl.inc:523-528 | the first fill requests a whole buffer and leaves the stream at rest |
| Prefetches.PrefetchingStream.OnNext | rxcppuniq/reactive/reactive_impl.inc:530-543 | an arriving event finds room: the overflow branch is unreachable; it is appended to the buffer |
| Prefetches.PrefetchingStream.Request | rxcppuniq/reactive/reactive_impl.inc:552-556 | a request runs deliveries and refills until the stream is at rest, or is recorded when a delivery is in progress |
| Prefetches.PrefetchingStream.MaybeDeliver | rxcppuniq/reactive/reactive_impl.inc:565-590 | deliveries go on until demand or buffer is exhausted; re-entrant calls change nothing |
| Prefetches.PrefetchingStream.MaybeFill | rxcppuniq/reactive/reactive_impl.inc:592-612 | above the refill mark, and when nothing is missing, nothing is requested; otherwise buffered and outstanding together are brought up to the buffer size, never above it |
| Prefetches.PrefetchingStream.Arrive | rxcppuniq/reactive/reactive_impl.inc:530-543 | a late arrival leaves the stream at rest |
| Prefetches.PrefetchingStream.RestMeans | rxcppuniq/reactive/reactive_impl.inc:523-612 | at rest, delivered and buffered are a prefix of the upstream's events, buffered plus outstanding is within the buffer size, every delivery was covered, no more than the refill mark is buffered only if the rest is outstanding, and unmet demand means an empty buffer with a whole buffer outstanding |
| Prefetches.Run | rxcppuniq/reactive/reactive_impl.inc:523-612 | prefetching loses and reorders nothing, never overflows, delivers nothing without demand and never stalls, for any upstream that obeys flow control, however late it sends; each request to the upstream is made with no more buffered than the refill mark, for exactly what is missing, and together they are all it was asked for |
| Chains.ChainingStream.Request | rxcppuniq/reactive/reactive_impl.inc:321-324 | a request is mapped and passed to the base |
| Chains.ChainingStream.OnNext | rxcppuniq/reactive/reactive_impl.inc:340-343 | the function's output for a base event is delivered, and its requests reach the base |
| Chains.Chain.AskedStep | rxcppuniq/reactive/reactive_impl.inc:321-343 | what the base is asked for in its callback is the mapping of what downstream asks for in the callbacks for the function's output |
| Chains.Chain.ShowsWhatIsSent | rxcppuniq/reactive/reactive_impl.inc:321-343 | every event that the function sends for a base event is shown, in order, every request is mapped, and the function's state goes from one base event to the next |
| Chains.Run | rxcppuniq/reactive/reactive_impl.inc:303-343 | downstream sees what the function makes of what arrived; towards the base the chain is a subscriber like any other, under its strict flow control |
| Buffers.BufferChunks | rxcppuniq/reactive/reactive_impl.inc:454-481 | after Done the chunks hold all values in order, full but for a non-empty last one; after an error exactly the full chunks; the end marker follows |
| Buffers.ChunksEarnedUpTo | rxcppuniq/reactive/reactive_impl.inc:461-478 | every chunk, that of the final flush included, was requested downstream before it was delivered |
| Buffers.BufferMeetsDemand | rxcppuniq/reactive/reactive_impl.inc:461 | without overflow the stream stops before the end only when exactly as many chunks were delivered as requested, with nothing pending |
| Buffers.WrapsAround | rxcppuniq/reactive/reactive_impl.inc:461 | the base is asked for the product but for a multiple of 2^64 |
| Buffers.BufferServesExactly | rxcppuniq/reactive/reactive_impl.inc:461 | for any requests from outside and in callbacks: the subscriber gets what it requested, or all there is, exactly if no product overflows that it gets to, or the wrapped products still cover the whole base |
| Buffers.SilentServedExactly | rxcppuniq/reactive/reactive_impl.inc:461 | a subscriber that requests from outside only is served exactly if all products fit or the wrapped products add up to more than the base has |
| Buffers.OverflowExample | rxcppuniq/reactive/reactive_impl.inc:461 | a request that overflows to nothing |
| Buffers.Run | rxcppuniq/reactive/reactive_impl.inc:454-481 | buffering against an arbitrary subscriber: chunks are conserved, earned, and without overflow no fewer than requested; chunks of size zero never ask the base for anything |
| Mapping.MapsValues | rxcppuniq/reactive/reactive_impl.inc:420-428 | each value is replaced by what the function returns for it; the end of the base, an error included, is passed on as it is |
| Mapping.MapIsTransparent | rxcppuniq/reactive/reactive_impl.inc:413-429 | whatever the base, its flow control is that of the mapped stream: one event for one event |
| Mapping.MapIsWellFormedExactly | rxcppuniq/reactive/reactive_impl.inc:420-428 | the mapped stream has its end marker last and only last exactly if the function never returns an error |
| Mapping.MapEndsTwice | rxcppuniq/reactive/reactive_impl.inc:422-424 | a function whose error is followed by further events |
| Mapping.Run | rxcppuniq/reactive/reactive_impl.inc:413-429 | a mapped publisher delivers exactly the mapped events as far as they were requested |
| Binds.FlatMapIsBind | rxcppuniq/reactive/single.h:107-115 | what the flat map class delivers is the composition of publishers |
| Binds.FlatMapActsAsPublisher | rxcppuniq/reactive/single.h:107-115 | no subscriber can tell the flat map class from a publisher that generates its events |
| Binds.ErrorIsFinal | rxcppuniq/reactive/single.h:104-105 | an error is propagated and the function not called |
| Binds.LeftIdentity | rxcppuniq/reactive/single.h:107-115 | a single that produces a value continues as the function's single |
| Binds.RightIdentity | rxcppuniq/reactive/single.h:107-115 | continuing with a single of the same value changes nothing |
| Binds.Associativity | rxcppuniq/reactive/single.h:107-115 | composition is associative, for publishers of any number of elements |
| Pipelines.RequestServes | rxcppuniq/reactive/reactive.h:186-197 | a request to any pipeline, however built, is added to its demand; inside a callback it only gives the running loops more to do |
| Pipelines.FlatMapServes | rxcppuniq/reactive/reactive_impl.inc:1191-1205 | a flat map serves a request if its base and its active continuation serve theirs, whatever streams they are |
| Pipelines.FlatMapPassesOn | rxcppuniq/reactive/reactive_impl.inc:1193-1200 | the unsigned difference of the two counters does not wrap around: the continuation is asked for exactly what it was not asked for yet |
| Pipelines.AdvanceIsStrict | rxcppuniq/reactive/reactive.h:186-197 | every pipeline, endless or with shared state, delivers an event only if it was requested, charges it once, and rests only with its demand met; no balance check fails |
| Pipelines.FlatMapIsStrict | rxcppuniq/reactive/reactive_impl.inc:1209-1276 | a flat map obeys strict flow control if its base and its active continuation do, whatever streams they are |
| Pipelines.BaseIsStrict | rxcppuniq/reactive/reactive_impl.inc:1215-1221 | the flow control error never occurs: a base that obeys flow control delivers nothing while there is an active continuation |
| Pipelines.MapEmits | rxcppuniq/reactive/reactive_impl.inc:420-424 | a map calls its action once for each element, with the state that the base has left, and delivers its result |
| PipelineLaws.RequestWaits | rxcppuniq/reactive/reactive_impl.inc:150-164 | a request changes nothing of what a pipeline has yet to deliver and adds at most the round in which a loop ends |
| PipelineLaws.AdvanceTells | rxcppuniq/reactive/reactive_impl.inc:1209-1281 | each round of any pipeline delivers the first of what is left of the composition, and leaves fewer rounds |
| PipelineLaws.FlatMapTells | rxcppuniq/reactive/reactive_impl.inc:1209-1281 | a flat map delivers the composition if its base and its active continuation deliver what they stand for, whatever streams they are |
| PipelineLaws.MapMeans | rxcppuniq/reactive/reactive_impl.inc:420-428 | event by event: a map in a pipeline delivers the action's result for each element of its base, and the end of its base |
| PipelineLaws.MapStreamIsPipeline | rxcppuniq/reactive/reactive_impl.inc:305-351 | over generated streams, the map class and the map of a pipeline deliver the same to any subscriber |
| PipelineLaws.ZeroRequest | rxcppuniq/reactive/reactive_impl.inc:1191-1205 | at rest, a request of zero makes a flat map without an active continuation, and no other pipeline, ask its base for an element that nobody requested |
| PipelineLaws.OwingRepays | rxcppuniq/reactive/reactive_impl.inc:1209-1244 | then the base's next element is subscribed to, nothing is demanded and flow control goes on; or there is none, and the end marker is delivered without demand |
| Sessions.Session.Request | rxcppuniq/reactive/reactive_impl.inc:150-192 | from outside, a request of any size runs any pipeline until all demand is met or the stream is over; it terminates |
| Sessions.Session.OnNext | rxcppuniq/reactive/reactive_impl.inc:176-183 | the callback keeps the books through all requests made inside it, and cancels |
| Sessions.Run | rxcppuniq/reactive/reactive_impl.inc:1340-1346 | any pipeline, flat maps nested on either side included, delivers exactly the composition as far as it was requested, towards any subscriber and for any requests; only the end marker can come without demand, and only after a request of zero |
| Singles.Listener.OnNext | rxcppuniq/reactive/single.h:75-99 | the listener is called for the first event; Done without an element becomes FAILED_PRECONDITION; after an element the subscription is cancelled |
| Singles.OnlyFirst | rxcppuniq/reactive/single.h:68-99 | strict flow control towards a subscriber that requests one event and cancels at an element is to deliver the first event and nothing else |
| Singles.Subscribe | rxcppuniq/reactive/single.h:66-101 | as the subscriber of any pipeline the listener is called exactly once: with the first element, the error, or FAILED_PRECONDITION |
| Singles.SubscribeContinued | rxcppuniq/reactive/single.h:107-115 | a single continued with any list of functions, one flat map being the base of the next, calls its listener exactly once with the outcome of the composition |
| Singles.ChainMeans | rxcppuniq/reactive/single.h:107-115 | a chain of flat maps delivers the composition of its functions from left to right |
| Singles.ContinueInside | rxcppuniq/reactive/single.h:107-115 | continuing a single twice, or once with a function that continues its own single, delivers the same to any subscriber |
| Singles.ErrorPropagates | rxcppuniq/reactive/single.h:104-105 | no function of a chain continues an error |
| Singles.ContinueExample | rxcppuniq/reactive/single_test.cc:46-69 | two functions are applied in their order; after an error none is |
| Singles.FlatMapStreamIsPipeline | rxcppuniq/reactive/reactive_impl.inc:1172-1285 | over generated streams, the flat map class and the flat map of a pipeline deliver the same to any subscriber |
| Sieves.PredicateIsExact | rxcppuniq/example/examples.cc:122-132 | refined with all smaller primes, the evolving predicate accepts exactly the primes |
| Sieves.FilterAdvances | rxcppuniq/example/examples.cc:88-100 | over the endless stream of numbers the filter lets exactly the next prime through; while primes below a bound are missing, each round leaves fewer rounds until the bound |
| Sieves.SieveAdvances | rxcppuniq/example/examples.cc:106-130 | through flat map and map, each event is the next prime, was requested, and has refined the predicate before it is delivered |
| Sieves.PrimeStream.Request | rxcppuniq/example/examples.cc:121-152 | each request over the endless stream returns, all demand being met |
| Sieves.Run | rxcppuniq/example/examples.cc:121-152 | the pipeline of endless generator, flat map and map delivers exactly the first primes in order as far as they were requested, for any subscriber whose demand is met at some number of primes |
| Sieves.OnlyIfSated | rxcppuniq/example/examples.cc:153-155 | a sieve that has come to rest was asked for no more than it delivered: no other demand can be met |
| Sieves.FirstPrimes | rxcppuniq/example/examples.cc:142-151 | after any series of requests exactly so many primes were delivered, the first ones |
| Sieves.FiveRequests | rxcppuniq/example/examples.cc:142-151 | five requests of one deliver 2, 3, 5, 7 and 11 |
| ThreadPools.ThreadPoolScheduler.constructor | rxcppuniq/base/scheduler.cc:97-106 | all threads are counted active before they start |
| ThreadPools.ThreadPoolScheduler.Schedule | rxcppuniq/base/scheduler.cc:125-130 | a task is queued and one waiting thread, if any, is woken |
| ThreadPools.ThreadPoolScheduler.LookForWork | rxcppuniq/base/scheduler.cc:142-161 | the active count never underflows, the check against a destructed pool never fails, and the thread waits, exits or takes the first task |
| ThreadPools.ThreadPoolScheduler.Destroy | rxcppuniq/base/scheduler.cc:108-116 | the destructor wakes all waiting threads of an idle pool |
| ThreadPools.WorkerImpl.constructor | rxcppuniq/base/scheduler.cc:51 | a new worker has nothing to run |
| ThreadPools.WorkerImpl.Schedule | rxcppuniq/base/scheduler.cc:55-59 | a step of the transition system: the task is queued, and run next if the worker is not running |
| ThreadPools.WorkerImpl.MaybeRunNext | rxcppuniq/base/scheduler.cc:62-73 | the next task is wrapped and pushed exactly if the worker is not running and has one |
| ThreadPools.WorkerImpl.AfterTask | rxcppuniq/base/scheduler.cc:77-85 | a step of the transition system: the worker takes its next task when the wrapper ends |
| SchedulerLaws.StepKeeps | rxcppuniq/base/scheduler.cc:55-165 | every step of every interleaving keeps the invariant of pool, workers and jobs |
| SchedulerLaws.RunNextKeeps | rxcppuniq/base/scheduler.cc:62-86 | taking the next step keeps exactly one wrapper per running worker |
| SchedulerLaws.SoleBearer | rxcppuniq/base/scheduler.cc:62-86 | while a thread bears a worker's wrapper no other wrapper of that worker is queued or run |
| SchedulerGuarantees.AnyoneMayBeNext | rxcppuniq/base/scheduler.cc:125-165 | in every reachable state any thread that has not exited may be the next to do something, any waiting thread may be the one woken, and anything may be scheduled |
| SchedulerOrder.FirstInFirstOut | rxcppuniq/base/scheduler.cc:125-161 | in every run the jobs the threads have taken, in the order taken, and then those still queued are the jobs in the order accepted |
| SchedulerOrder.TakenAsScheduled | rxcppuniq/base/scheduler.cc:125-161 | tasks scheduled on the pool are taken in the order in which they are scheduled, none twice and none left out |
| SchedulerOrder.ScheduledInOrder | rxcppuniq/base/scheduler.cc:55-59 | a worker's tasks are those scheduled on it, in the order in which they are scheduled |
| SchedulerOrder.OneThreadInOrder | rxcppuniq/base/scheduler.cc:142-161 | a single thread completes the jobs in the order accepted, and the tasks scheduled on the pool in the order scheduled |
| SchedulerOrder.ScheduleWakesOne | rxcppuniq/base/scheduler.cc:125-130 | scheduling wakes one waiting thread if there is any, and no other |
| SchedulerGuarantees.WorkersAreSerial | rxcppuniq/base/scheduler.cc:55-86 | for any threads and workers: finished tasks, then at most one in flight, then those waiting are all tasks in the order scheduled; at most one wrapper of a worker is queued or run; no two threads execute one worker's tasks; waiting steps imply running |
| SchedulerGuarantees.IdleMeansDone | rxcppuniq/base/scheduler.cc:132-140 | when the idle condition holds, every task ever scheduled on the pool or on a worker has finished exactly once |
| SchedulerGuarantees.IdleStays | rxcppuniq/base/scheduler.h:92-99 | the pool stays idle until a task is scheduled from outside |
| SchedulerGuarantees.SomeoneCanWork | rxcppuniq/base/scheduler.cc:125-165 | unless the pool is idle some thread can get on: queued tasks never coexist with all threads asleep and un-notified |
| SchedulerGuarantees.WorkGetsDone | rxcppuniq/base/scheduler.cc:142-165 | every step of work leaves less of it |
| SchedulerGuarantees.WorkEnds | rxcppuniq/base/scheduler.cc:132-135 | with nothing new scheduled the threads work for boundedly many steps, and can go on until the pool is idle |
| SchedulerGuarantees.ChecksNeverFail | rxcppuniq/base/scheduler.cc:142-161 | the active count is the number of threads starting or busy, and no work is found during destruction |
| SchedulerGuarantees.ThreadsCanBeJoined | rxcppuniq/base/scheduler.cc:108-123 | once the pool is being destroyed every thread has exited or exits when it wakes |
| SerialWorkers.Simulates | rxcppuniq/base/scheduler.h:54-58 | every step of the scheduler is a move of a queue whose head is executed by one thread at a time |
| SerialWorkers.ExecutesHead | rxcppuniq/base/scheduler.h:54-58 | a thread that executes a worker's task executes the first unfinished one |
| AsyncLaws.AsyncStepKeeps | rxcppuniq/reactive/reactive_impl.inc:1365-1496 | every step of producer, consumer or anyone else keeps what is in transit, what was asked and what was sent consistent |
| AsyncLaws.CallKeeps | rxcppuniq/reactive/reactive_impl.inc:1374-1393 | the consumer's callback takes the first event in transit |
| AsyncLaws.AskedInIsTotal | rxcppuniq/reactive/reactive_impl.inc:1428-1437 | what the consumer has asked for is the total of what its function returns in each callback |
| AsyncLaws.OvertakesAtMeans | rxcppuniq/reactive/reactive_impl.inc:1389-1392 | what overtaking is, in terms of the consumer's function alone |
| AsyncExactly.SerialChecksFailExactly | rxcppuniq/reactive/reactive_impl.inc:1389-1392 | between two serial workers, a staleness check fails in some run exactly if the consumer asks for the end marker with an element left to handle or a request left to make in the same callback |
| AsyncExactly.TwiceOvertakes | rxcppuniq/reactive/reactive.h:194-197 | a consumer of one element that requests twice in its callback, the first time for the end marker, overtakes itself |
| AsyncLifting.OccursToo | rxcppuniq/base/scheduler.cc:55-165 | every run between two serial workers is a run of a program on a pool of two threads |
| AsyncLifting.ChecksFailExactly | rxcppuniq/reactive/reactive_impl.inc:1389-1392 | over all pools and all interleavings of their threads, a staleness check fails in some run exactly if the consumer overtakes itself |
| AsyncLifting.TwiceFails | rxcppuniq/reactive/reactive.h:194-197 | for such a consumer of one element some run on a pool fails |
| AsyncOnPool.PoolStepRefines | rxcppuniq/base/scheduler.cc:55-165 | a step of the scheduler is a step of the stream between two serial workers, or nothing to it |
| AsyncOnPool.ProduceRefines | rxcppuniq/reactive/reactive_impl.inc:1428-1456 | a step of the producer's task by a pool thread is the producer's step between serial workers |
| AsyncOnPool.ConsumeRefines | rxcppuniq/reactive/reactive_impl.inc:1374-1393 | a step of the consumer's task by a pool thread is the consumer's step between serial workers |
| AsyncGuarantees.ProgramStepKeeps | rxcppuniq/reactive/reactive_impl.inc:1365-1496 | the combined invariant of scheduler and stream is kept by every step of any thread |
| AsyncGuarantees.AsyncDeliversInOrder | rxcppuniq/reactive/reactive_impl.inc:1441-1456 | over every interleaving, for any consumer with any requests in each callback: OnSubscribe first, then the input's events in order, each requested in the callbacks before, with no two callbacks overlapping |
| AsyncGuarantees.ChecksHold | rxcppuniq/reactive/reactive_impl.inc:1389-1392 | over every interleaving no staleness check fails for a consumer that does not overtake itself |
| AsyncGuarantees.AsyncSettles | rxcppuniq/reactive/reactive_impl.inc:1365-1496 | when the pool is idle again the consumer has seen all events or as many as it asked for |
| AsyncGuarantees.AsyncEndToEnd | rxcppuniq/reactive/reactive_impl.inc:102-116 | with one request at a time nothing ever fails, and once waiting until idle returns the consumer has seen exactly the input's events with the end last |
| AsyncProgress.SomeoneCanAdvance | rxcppuniq/base/scheduler.cc:125-165 | unless a check failed or the pool is idle, some thread of the program can do a step of work |
| AsyncProgress.AdvanceLeavesLess | rxcppuniq/reactive/reactive_impl.inc:1365-1496 | each step of work of scheduler, producer or consumer leaves less of it, for any consumer |
| AsyncProgress.AdvancesEnd | rxcppuniq/base/scheduler.cc:132-135 | a program works for boundedly many steps unless something is scheduled from outside |
| AsyncProgress.ComesToRest | rxcppuniq/base/scheduler.cc:132-140 | from any state a program can go on until the pool is idle or a check fails |
| AsyncProgress.AsyncComesToItsEnd | rxcppuniq/reactive/reactive_impl.inc:102-116 | with one request at a time, from any state after the subscription boundedly many steps lead to an idle pool with exactly the input's events seen |

## Left out

- Lifetimes: `self_lock_`, `delete this`, reference counts and unique pointers are replaced by a flag that says whether a stream is alive.
- Cancellation inside callbacks of Merge, Buffer, Map, Prefetch and Concat, and of any stream in the callback for its end marker: the code defines no clean outcome there. It is modelled for generated streams, flat map and singles.
- Requests made in OnSubscribe are the first of the outer requests (for Prefetch, the initial demand).
- FlatMaps.Run: outer requests are at least one, as rule 3.9 of the Reactive Streams specification for the JVM demands; Sessions.Run has no such restriction.
- FlatMaps.FlatMapStream.Request: the same; a request of zero from outside needs unmet demand.
- Asynchronous sources under flat map, merge and concatenation: their upstreams are synchronous. The classes hold their upstream streams by value, with the loop of the generated stream inlined.
- The streams of a pipeline are values instead of objects, so that a stream may hold streams of any kind; the call stack is the nesting of the running streams. All elements of a pipeline have one type.
- FlatMapped carries a bound on how deeply the publishers are nested that its function returns for the elements of its base; the source has none, and a pipeline without such a bound need not return.
- Pipelines of merges, concatenations, prefetching, buffers and asynchronous streams, and maps that return an error: these operators are modelled on generated streams.
- Sieves.Run: a subscriber whose demand is never met; its request does not return.
- Inputs of 2^64 - 1 or more elements for buffers and asynchronous streams: a demand that large counts as infinite.
- Prefetches.Run: the refill mark is an arbitrary threshold instead of a product of floating point numbers; a buffer size of exactly 2^64 - 1 is excluded.
- Asynchronous streams: one worker both to produce and to consume on, which the code accepts; the two workers are distinct.
- Asynchronous streams: Cancel, several asynchronous streams in one program other than as foreign tasks, and inputs other than generated streams.
- AsyncStream and AsyncPublisher are steps of a transition system on values instead of objects, as their tasks interleave; so are the threads' program counters.
- The sieve's mutable predicate is a function of the primes that got through so far, which is what its reassignments make of it.
- Fairness of the operating system: runs are proved safe, some thread is always able to get on, and work is bounded; that a thread eventually does get on is not stated.
- The critical section of a worker is one step together with that of the pool, which is the last thing it does.
- Creation of workers during a run: their number is arbitrary but fixed.
- PerThreadActivity is not one method: its loop is the repetition of LookForWork and of running the task it took.
- Overflow of the `int` that the sieve's number stream counts with; the numbers are unbounded.
- The type-level variadic parts of Merge: elements carry the index of their source.
- Error messages of statuses: a status is Done or an error with a code.
- PolyValue, protobuf wrappers, StaticCast, logging and file helpers: no behaviour beyond forwarding.
- The coffee machine, the authentication machine, activities and word counting of the examples: instances of flat map, map and asynchronous streams.
