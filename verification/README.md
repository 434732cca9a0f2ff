# Verification of the graph engine, the pipeline, and the link graph

Three components that the crawler and the PageRank calculator rest on, modelled and verified:

* **The bulk-synchronous graph engine** (`Chapter08/bspgraph`). `BspStep` is one superstep as its
  goroutines run it: the caller feeds vertices over a rendezvous channel, any number of workers compute,
  send message by message and count down, and one of them signals the barrier. `BspModel.Pregel` is the
  synchronous superstep that users of such an engine reason with. `BspTheorems` proves that every schedule
  ends in it, `BspRun` lifts this to whole runs, and `BspEngine` holds the classes `Graph` and `Executor`,
  whose methods execute any schedule; `BspMeaning` says what a step does in terms of
  the records and the compute function alone, and `BspComposition` puts runs together. `Queue` is the message queue.
  `Accumulators` has the two lock-free aggregators as one machine, which adds atomically for integers and in a
  compare-and-swap loop for floats; `Retries` bounds such loops, `IntAccumulators` has the 64-bit arithmetic and
  the conservation laws, and `FloatAccumulators` the worst case.
* **The channel pipeline** (`Chapter07/pipeline`). `Pipeline` has the goroutines of one call of `Process` as
  small state machines: source, stage workers, sink, the goroutine behind the wait group, and the caller that
  drains the error channel. A FIFO stage has one worker, a fixed pool several. `PipelineFlow`,
  `PipelineOrder`, `PipelineErrors` and `PipelineTheorems` prove what it delivers and when it fails, `PipelineMeaning` says
  what the composed stages compute in terms of the processors alone, `Broadcast` the safety of the broadcast stage.
* **The link graph** (`Chapter06/linkgraph`) with the updater that drives it (`Chapter07/crawler`), the
  partitioned scans, and the text index with its two paging iterators. `LinkGraph` states the SQL of the
  database store as relations between table contents; `LinkStore` is the in-memory store with its four maps
  over shared records, proved to behave like that SQL; `Updater` is proved against the store.

## How to read it

`dafny verify dfyconfig.toml` checks everything. The definitions that the contracts below rest on are:

* `BspStep.Enabled` and `BspStep.Apply`, the steps of `Chapter08/bspgraph/graph.go:240-306`. `Worker` and
  `Main` list the program points. `BspStep.Inv` is the invariant of every reachable state.
* `BspModel.Pregel`, one synchronous superstep; `PregelRun` iterates it. `Envelope.sentIn`, the superstep in
  which a message was enqueued, is bookkeeping of the model that the theorems on message age speak about.
* `Pipeline.Enabled` and `Pipeline.Apply`, the steps of `Chapter07/pipeline/pipeline.go:10-96` and
  `Chapter07/pipeline/stage.go:13-66`. `All` is the composition of the stages applied to the source.
* `LinkGraph.LinkUpserted`, `EdgeUpserted`, `StaleEdgesRemoved`, `LinkScan` and `EdgeScan`, the statements in
  `Chapter06/linkgraph/store/cdb/cdb.go:13-33`; `LinkGraph.Consistent`, the UNIQUE and foreign key constraints
  of the migrations.
* `Updater.Processed`, what one crawled page does to the tables.
* `BspEngine.RunResult`, how a run of the executor ends and what it leaves; `EndsFor` has the order in which it
  asks for reasons to end.
* `Accumulators.Step`, the atomic steps of `Chapter08/bspgraph/aggregator/accumulator.go:47-75` and `:113-127`.
* `Paging.Paged`, where an iterator stands.

The step machines take the place of the goroutines. A schedule is a sequence of actions, and statements about
every schedule are statements about every interleaving. The methods `BspEngine.Graph.Step`,
`PipelineTheorems.Process` and `Accumulators.Accumulator.RunAll` pick any enabled action in each round of their
loops, so that what they ensure, their termination included, holds for every interleaving.

## Assumptions

* A compute function terminates, writes its own vertex only, and depends on its messages as a multiset and on
  the superstep number. The queues are last-in first-out and the order of enqueuing depends on the schedule,
  so no more can be promised to it. The vertices are not added to or removed during a step.
* A pipeline processor is a function of its stage and the payload, except that a cancellation may make it fail.
  The same holds for the sink. The source is finite.
* The clock does not go back; it may stand still between two readings. A fresh identifier is one that is not in
  use. The retry loops around `uuid.New` end because the tables are not full, which is a precondition.
* The link store and the index are used by one caller at a time; their locks make each operation atomic.

## Where the code and its description differ

* A broadcast stage never ends at the end of its input: the `break` at `Chapter07/pipeline/stage.go:160` leaves
  the `select` and not the loop, which then spins. `Broadcast.EndsIffCancelled` proves that it can end exactly if
  it is cancelled, `Broadcast.LeavesOnlyOnCancel` that a closed input alone never ends it.
* The comment at `Chapter08/bspgraph/graph.go:208-212` mentions a handler for unknown vertices. There is none.
* Upserting a link into the in-memory store leaves the caller's `RetrievedAt` alone, while the database store
  returns the stored one. The contract of `LinkStore.InMemoryGraph.UpsertLink` follows the code.
* `Chapter06/linkgraph/graph/graphtest/suite.go:368-405` works for at most 255 partitions, because leading zero
  bytes are stripped from the boundaries. `Partition.EncodableIff` proves the exact limit. The comment at line 377 gives the size of a
  partition as 2^128/n; the code divides 2^128-1.
* The last range ends at the all-ones identifier and excludes it, as does a full scan.
* The identifier in a crawled payload is not used: upserting the source link overwrites it
  (`Chapter07/crawler/graph_updater.go:23-30`).
* A break after the superstep (`Chapter08/bspgraph/executor.go:98-101`) has changed the vertices but not the
  superstep number; `BspEngine.RunResult` says so.

## Model

| member | source | states |
|---|---|---|
| BspStep.InvKept | Chapter08/bspgraph/graph.go:240-306 | Every step of every goroutine keeps the invariant: each vertex is in exactly one place, the countdown matches, each record is at the stage its computation has reached, no message is lost or doubled, and an error is pending exactly if a computation failed. |
| BspStep.ExecutionInv | Chapter08/bspgraph/graph.go:240-306 | The invariant holds after every schedule. |
| BspStep.ConservedKept | Chapter08/bspgraph/graph.go:213-220 | What a vertex has been sent and what others have still to send it add up to the same multiset in every state. |
| BspTheorems.StepBarrier | Chapter08/bspgraph/graph.go:241-263 | The countdown is the vertices not handed out plus those in workers' hands; at zero, while the caller waits, some worker signals, and whoever signals is the only one, when all vertices are done and everyone else is idle; the caller goes on only then. |
| BspTheorems.StepProgress | Chapter08/bspgraph/graph.go:249-299 | As long as step has not returned, some goroutine can move: no deadlock with any number of workers. |
| BspTheorems.StepDecreases | Chapter08/bspgraph/graph.go:249-299 | Every action decreases a lexicographic measure, so no schedule is infinite. |
| BspTheorems.Isolation | Chapter08/bspgraph/graph.go:213-219 | While a superstep runs, the queues being read hold only messages of the superstep before and the others only messages of this one, and a vertex not started yet still has all its messages. |
| BspTheorems.OutstandingIsMail | Chapter08/bspgraph/graph.go:189-220 | What the workers have to send at the start is the mail of the synchronous superstep, for every receiver. |
| BspTheorems.StepAgrees | Chapter08/bspgraph/graph.go:240-306 | When step returns, under any schedule, it reports an error exactly if some vertex failed in that very step, and a vertex that failed; the error channel is empty again; the count is that of the awake vertices; every vertex is as in the synchronous superstep, failed ones apart from leftovers in the queue they read. |
| BspTheorems.CleanStep | Chapter08/bspgraph/graph.go:240-299 | An error-free step is exactly the synchronous superstep, queues as multisets. |
| BspTheorems.StepConfluence | Chapter08/bspgraph/graph.go:240-299 | Two complete schedules with any two numbers of workers agree on the verdict, the active count and all vertices; where a vertex failed, on all but what failed vertices left in the queue they read. |
| BspMeaning.PregelSpelled | Chapter08/bspgraph/graph.go:284-293 | The synchronous superstep, node by node: one that is active or has messages ends with the body and flag its compute function leaves, any other keeps its own. |
| BspMeaning.ScheduleSpelled | Chapter08/bspgraph/graph.go:282-299 | The same of every schedule of a step, said of the records before and after it and of the compute function alone, and how often each message waits for its receiver: as before, and once for each send. |
| BspMeaning.InboxSpelled | Chapter08/bspgraph/graph.go:213-220 | How often a message waits in a vertex after a step: as often as before it, and once for each send of it by a computed vertex. |
| BspMeaning.DeliverySpelled | Chapter08/bspgraph/graph.go:213-220 | A delivery is one send of that message to that receiver, at one position of what a computed vertex sends. |
| BspMeaning.ReportSpelled | Chapter08/bspgraph/graph.go:241-263 | The reported number is that of the vertices that were active or had messages, and an error is reported if and only if one of these failed to compute or to discard. |
| BspMeaning.MailCounted | Chapter08/bspgraph/graph.go:189-220 | The mail of a set of vertices holds a message as often as they send it. |
| BspRun.StepGenerations | Chapter08/bspgraph/graph.go:213-219 | Whatever a step leaves, failed or not, keeps the two message generations in separate queues; after an error-free one they are those of the next superstep. |
| BspComposition.RunGenerations | Chapter08/bspgraph/graph.go:213-219 | From vertices whose generations are apart, as those of a new or reset graph are, any number of error-free supersteps leads to such vertices. |
| BspComposition.RunIsolation | Chapter08/bspgraph/graph.go:213-219 | In a whole run: after any number of supersteps, and under any schedule of the next one, the queues being read hold only messages of the superstep before, the others only those of this one, and a vertex not started yet has all its messages. |
| BspRun.MessageLifetime | Chapter08/bspgraph/graph.go:199-219 | A message to a local vertex is in its inbox in the next superstep and wakes it; one superstep later it is gone everywhere. |
| BspRun.ExactlyOnce | Chapter08/bspgraph/graph.go:213-219 | The same over schedules of two consecutive supersteps: the multiset given to a compute function is exactly what was addressed to its vertex. |
| BspComposition.TwoRunsAreOne | Chapter08/bspgraph/executor.go:83-106 | A run of a supersteps that completes them and a run of b after it, against a run of a+b with the answers in a row: as many completed supersteps, the same reason for the end, the same vertices (after a failing superstep, but for leftovers). A negative b is a run to completion. |
| BspComposition.RunsCompose | Chapter08/bspgraph/executor.go:83-106 | The two runs together are a possible run of a+b. |
| BspComposition.RunTwice | Chapter08/bspgraph/executor.go:66-106 | RunSteps(a) and, if it is completed, RunSteps(b) on one executor have a result that RunSteps(a+b) may have, the only one it may have. |
| BspComposition.FirstRunDecides | Chapter08/bspgraph/executor.go:83-106 | The run of a+b gets past a supersteps if and only if the run of a completes them; otherwise both end after as many supersteps, for the same reason, with the same vertices. |
| BspComposition.RunDetermined | Chapter08/bspgraph/executor.go:83-106 | The answers and the starting vertices determine the number of completed supersteps, the reason for the end and the vertices, whatever the schedules. |
| BspComposition.OneReason | Chapter08/bspgraph/executor.go:91-102 | Each reason for the end of a run if and only if its condition holds: an expired context first, then the callback before the step, the step, the callback behind it, the error of the last callback, its refusal. |
| BspComposition.ZeroReported | Chapter08/bspgraph/graph.go:263-286 | After a step that reports no active vertex the next step reports none if and only if nothing was sent outside compute functions, and then it leaves values, flags and queues alone. |
| BspComposition.QuietForGood | Chapter08/bspgraph/graph.go:263-286 | A step that starts with no vertex active and no message anywhere reports zero and no error and changes nothing. |
| BspComposition.QuietRun | Chapter08/bspgraph/executor.go:83-106 | So does every superstep of a run that starts like this, which therefore meets no failure. |
| BspRun.IdleStep | Chapter08/bspgraph/graph.go:284-294 | A superstep with no active vertex delivers the outboxes and changes nothing else. |
| BspEngine.Graph.constructor | Chapter08/bspgraph/graph.go:90-104 | A new graph is empty at superstep 0, with at least one worker, and its message generations are apart. |
| BspEngine.Graph.Reset | Chapter08/bspgraph/graph.go:116-128 | No vertices, no aggregators, superstep 0. |
| BspEngine.Graph.AddVertex | Chapter08/bspgraph/graph.go:136-151 | A new vertex is active without edges and messages, an existing one changes its value only, and no other is touched. |
| BspEngine.Graph.AddEdge | Chapter08/bspgraph/graph.go:157-168 | Fails exactly for an unknown source; otherwise appends the edge there and changes nothing else, not even the value of the source. |
| BspEngine.Graph.RegisterAggregator | Chapter08/bspgraph/graph.go:171-179 | Enters the aggregator under its name. |
| BspEngine.Graph.SendMessage | Chapter08/bspgraph/graph.go:213-232 | Appends to the queue of the next superstep and changes nothing else, hands to the relayer, or fails, with the exact condition for each; the relayer is asked exactly about unknown destinations. |
| BspEngine.Graph.BroadcastToNeighbors | Chapter08/bspgraph/graph.go:189-197 | Sends to the edges in order up to the first failure, and succeeds exactly if every one is deliverable; each vertex gets the message once for each attempted edge that leads to it; the relayer is asked about exactly the attempted sends that leave the graph. |
| BspEngine.EnqueueAllOutbox | Chapter08/bspgraph/graph.go:189-220 | A list of sends adds to each outbox exactly the messages addressed to it. |
| BspEngine.Graph.Step | Chapter08/bspgraph/graph.go:240-299 | Executes any schedule and terminates. In terms of the old records and the compute function: body, flag and read queue of every vertex, how often each message waits for its receiver, the reported number, and exactly when an error is reported. It is the result of the synchronous superstep and keeps the message generations apart. |
| BspEngine.Executor.constructor | Chapter08/bspgraph/executor.go:50-57 | A new executor resets the superstep number. |
| BspEngine.Executor.Run | Chapter08/bspgraph/executor.go:62-106 | The superstep number advances by the completed iterations; those were free of errors and breaks; the reason for the end is the first that applies to the next iteration in the order of the loop, or the bound; the vertices are what that many synchronous supersteps make of the first ones, or one more after a break behind the step or a failing step; the message generations stay apart. |
| Queue.InMemoryQueue.Next | Chapter08/bspgraph/message/memory_queue.go:12-22 | Takes the newest message and leaves the rest, which is what a compute function of the step machine does to its queue; or reports that there is none and changes nothing. |
| Queue.InMemoryQueue.Enqueue | Chapter08/bspgraph/message/memory_queue.go:39-44 | Appends the message. |
| Queue.InMemoryQueue.PendingMessages | Chapter08/bspgraph/message/memory_queue.go:46-51 | Says whether there are messages. |
| Queue.InMemoryQueue.DiscardMessages | Chapter08/bspgraph/message/memory_queue.go:53-58 | Empties the queue. |
| Queue.InMemoryQueue.Drain | Chapter08/bspgraph/message/memory_queue.go:12-29 | Reading to the end yields the messages in opposite order, each once, and empties the queue. |
| Queue.ReversedIsPermutation | Chapter08/bspgraph/message/memory_queue.go:12-29 | The opposite order has the same messages as a multiset, which is what a compute function may rely on. |
| Accumulators.RunLinear | Chapter08/bspgraph/aggregator/accumulator.go:47-75 | Under every interleaving of Aggregate and Delta on either accumulator: the sum is the initial one with the arguments of the finished calls added one at a time, in the order of their success; the returned deltas are the differences along a chain from the initial previous sum to the present one; and each was taken at a sum that the accumulator had. |
| Accumulators.WorkBound | Chapter08/bspgraph/aggregator/accumulator.go:47-75 | n looping calls of Aggregate make at most n(n+1)/2 compare-and-swaps under every schedule, none if additions are atomic, and n calls of Delta at most n(n+1)/2, whatever else runs. |
| Accumulators.WorkBoundSpelled | Chapter08/bspgraph/aggregator/accumulator.go:47-75 | The bounds in plain numbers: twice the attempts are at most n(n+1), n being the number of such calls. |
| Accumulators.FoldSpelled | Chapter08/bspgraph/aggregator/accumulator.go:49-50 | Adding no argument leaves the sum, adding one more adds it last. |
| Accumulators.ResultsSpelled | Chapter08/bspgraph/aggregator/accumulator.go:47-75 | Each argument is in the log as often as calls have added it, each delta in the chain as often as calls have returned it, and the chain is the differences between one seen sum and the next. |
| Accumulators.StepNearer | Chapter08/bspgraph/aggregator/accumulator.go:47-75 | Every step of an unfinished call decreases a measure: retries end. |
| Accumulators.StepMoves | Chapter08/bspgraph/aggregator/accumulator.go:47-75 | Each step is, for either sum, a load, a lost or a won compare-and-swap, or no move in that race. |
| Accumulators.Accumulator.Set | Chapter08/bspgraph/aggregator/accumulator.go:26-44 | With no other call under way both sums become the value; the same code for integers at lines 100-110. |
| Accumulators.Accumulator.Get | Chapter08/bspgraph/aggregator/accumulator.go:21-23 | Returns the current sum; the same for integers at lines 95-97. |
| Accumulators.Accumulator.Advance | Chapter08/bspgraph/aggregator/accumulator.go:47-75 | One atomic step of one call on the fields is the step of the machine. |
| Accumulators.Accumulator.RunAll | Chapter08/bspgraph/aggregator/accumulator.go:47-75 | Runs any calls side by side under any schedule: all end, with the results of `RunLinear` and within the bounds of `WorkBound`. |
| Retries.MoveBound | Chapter08/bspgraph/aggregator/accumulator.go:47-59 | Every failed compare-and-swap is paid for by a success of another call since its load: no move raises the attempts made plus those still possible. |
| IntAccumulators.RunConserves | Chapter08/bspgraph/aggregator/accumulator.go:113-126 | Under every interleaving of additions and deltas, overlapping ones included, the current sum is the initial one plus all that was applied, and the previous sum the initial one plus all deltas returned, modulo 2^64. |
| IntAccumulators.TotalsSpelled | Chapter08/bspgraph/aggregator/accumulator.go:113-126 | The two totals start at zero and grow by what a call adds or returns. |
| IntAccumulators.QuiescentDelta | Chapter08/bspgraph/aggregator/accumulator.go:119-126 | A last delta, taken when all other calls are over, makes the deltas total what was aggregated, modulo 2^64. |
| IntAccumulators.RunAll | Chapter08/bspgraph/aggregator/accumulator.go:113-126 | The same for the object under any schedule, with at most n(n+1)/2 compare-and-swaps for n deltas and none for additions. |
| FloatAccumulators.WorstCase | Chapter08/bspgraph/aggregator/accumulator.go:47-59 | The bound is met: for any number of arguments each of which changes the sum, some schedule ends all n calls with exactly n(n+1)/2 compare-and-swaps. |
| Pipeline.InvKept | Chapter07/pipeline/pipeline.go:54-96 | Every step keeps the control invariant on closing, errors and orderly ends. |
| PipelineTheorems.ChannelLifecycle | Chapter07/pipeline/pipeline.go:62-89 | A channel is closed at most once and after all its senders returned, the error channel after every goroutine that may use it; no possible step sends on or closes a closed channel. |
| PipelineTheorems.PipelineProgress | Chapter07/pipeline/stage.go:20-66 | No reachable state is stuck, not after any error or cancellation, and the way on needs nothing from outside. |
| PipelineTheorems.PipelineDecreases | Chapter07/pipeline/pipeline.go:54-96 | Every action decreases a measure: a call always returns. |
| PipelineTheorems.ErrorFaithfulness | Chapter07/pipeline/stage.go:13-18 | The caller gets an error if and only if at least one was attempted, although the channel is bounded and sends do not block. |
| PipelineFlow.ExecutionFlow | Chapter07/pipeline/pipeline.go:54-95 | After every schedule, outputs delivered, on their way and lost add up to those of the composed stages, and, for stages that pass payloads on, the payloads themselves do. |
| PipelineOrder.ExecutionOrdered | Chapter07/pipeline/pipeline.go:54-95 | With FIFO stages, what is consumed followed by what is on its way stays a prefix of the composed output, and equal to it while nothing disturbs the run. |
| PipelineTheorems.FifoDeterminism | Chapter07/pipeline/pipeline.go:54-95 | With FIFO stages the sink has at every moment a prefix of the composed output, in order, and all of it if nil is returned without outside cancellation. |
| PipelineTheorems.PoolDeterminism | Chapter07/pipeline/stage.go:52-66 | With worker pools of any sizes the same as multisets. |
| PipelineTheorems.PayloadOwnership | Chapter07/pipeline/stage.go:29-42 | With processors that return their input or nil, every payload is at every moment in as many places as it occurs in the source; if nil is returned without outside cancellation each has been marked as processed as often. |
| PipelineTheorems.SingleHolder | Chapter07/pipeline/stage.go:25-43 | A payload in the hands of one goroutine is in nobody else's and has not been marked. |
| PipelineTheorems.Process | Chapter07/pipeline/pipeline.go:54-96 | The call under any schedule, cancelled from outside or not: it returns, and all channels are closed once. The sink consumes only what the last processor makes of payloads that every processor passes on, in order with FIFO stages, and all of it if nil is returned without outside cancellation. Without that an error is returned if and only if the source reports one or some payload makes a processor or the sink fail. |
| PipelineErrors.ErrorIffCause | Chapter07/pipeline/pipeline.go:10-42 | The same condition for every schedule: each cause among the payloads leads to an error, and without a cause there is none. |
| PipelineErrors.CausesSpelled | Chapter07/pipeline/stage.go:29-34 | A cause is a report behind a payload, or a payload that the processors pass on to one that fails or to a sink that refuses it. |
| PipelineMeaning.OneTrace | Chapter07/pipeline/stage.go:29-43 | A payload that every processor in turn passes on comes out as what the last one emits, and any other does not come out. |
| PipelineMeaning.AllConcat | Chapter07/pipeline/pipeline.go:54-96 | The output for a source in two parts is that for the first and then that for the second. |
| PipelineMeaning.EndsAreAll | Chapter07/pipeline/pipeline.go:54-96 | The composed output is the list, in source order, of the ends of these traces, and nothing else is. |
| Broadcast.BroadcastSafety | Chapter07/pipeline/stage.go:153-179 | Processor 0 has the inputs themselves and every other one its clones of them, in order without gaps; each clone received was made, once; counts differ by at most one; and whoever has the original comes last. |
| Broadcast.CloneBeforeOriginal | Chapter07/pipeline/stage.go:162-172 | Clone is never called on a payload whose original was handed off. |
| Broadcast.EndsIffCancelled | Chapter07/pipeline/stage.go:153-179 | From every reachable state, and after any schedule from there, the stage can be brought to its end without a further cancellation if and only if it was cancelled before or by that schedule. |
| Broadcast.LeavesOnlyOnCancel | Chapter07/pipeline/stage.go:154-161 | Wherever the loop looks for input with nothing cancelled, the input can close, and from there no schedule without a cancellation ends the stage or moves it on. |
| Uuids.TextOrder | Chapter06/linkgraph/store/memory/memory.go:129-132 | Canonical texts (section 3 of RFC 4122) compare as the 128-bit numbers do, and different identifiers have different texts. |
| Uuids.TextSpelled | Chapter06/linkgraph/store/memory/memory.go:129-132 | The text has 36 characters, dashes at their four places, and two lower-case digits for each byte. |
| Uuids.SixteenBytes | Chapter06/linkgraph/graph/graphtest/suite.go:391-401 | A number has a 16-byte encoding without leading zeros if and only if it fills the first byte. |
| Uuids.Extremes | Chapter06/linkgraph/graph/graphtest/suite.go:373-374 | The nil and the all-ones identifiers are the least and the greatest number. |
| Partition.PartitionRange | Chapter06/linkgraph/graph/graphtest/suite.go:368-405 | Rejects exactly partitions out of range and inner boundaries below 2^120; otherwise the range is from p times (2^128-1)/n to p+1 times that, or to the greatest identifier for the last partition. |
| Partition.PartitionWidth | Chapter06/linkgraph/graph/graphtest/suite.go:377-402 | All partitions have the same width, but the last one is longer by the remainder, less than n. |
| Partition.EncodableIff | Chapter06/linkgraph/graph/graphtest/suite.go:388-402 | All boundaries can be encoded if and only if there are at most 255 partitions. |
| Partition.PartitionCover | Chapter06/linkgraph/graph/graphtest/suite.go:381-402 | The ranges are adjacent, and a number is in exactly one of them if it is below 2^128-1 and in none otherwise. |
| PartitionScan.IteratePartitionedLinks | Chapter06/linkgraph/graph/graphtest/suite.go:340-361 | Fails exactly for more than 255 partitions; otherwise sees no link twice, and sees what a full scan sees, up to links stamped while it runs: every link but one at the all-ones identifier, if stamped before it began, and none stamped at its end or later. |
| PartitionScan.FullScan | Chapter06/linkgraph/graph/graphtest/suite.go:287-297 | If every link is older than the scan, it is every link but one at the all-ones identifier. |
| PartitionScan.UptoNext | Chapter06/linkgraph/graph/graphtest/suite.go:342-361 | One more partition adds exactly the links of its range, none of which was in an earlier one. |
| PartitionScan.MarksNext | Chapter06/linkgraph/graph/graphtest/suite.go:349-354 | Marking by text is marking by identifier. |
| LinkGraph.LinkUpsertKeeps | Chapter06/linkgraph/store/cdb/cdb.go:13-16 | Upserting a link keeps the constraints, all identifiers and URLs, decreases no timestamp, and adds just its URL. |
| LinkGraph.EdgeUpsertKeeps | Chapter06/linkgraph/store/cdb/cdb.go:17-21 | Upserting an edge between known links keeps the constraints and all other edges. |
| LinkGraph.LinkUpsertSpelled | Chapter06/linkgraph/store/memory/memory.go:39-57 | Row by row: the row of the URL keeps its identifier and takes the later timestamp, or one is added; no other row and no edge is touched. |
| LinkGraph.EdgeUpsertSpelled | Chapter06/linkgraph/store/memory/memory.go:84-104 | Row by row: the edge keeps its identifier and is stamped now, or one is added; nothing else is touched. |
| LinkGraph.RemovalSpelled | Chapter06/linkgraph/store/memory/memory.go:112-121 | Exactly the edges of the source stamped strictly before the time are gone, the others unchanged. |
| LinkGraph.LinkHistoryLatest | Chapter06/linkgraph/graph/graphtest/suite.go:23-62 | Upserting one new URL again and again always gives the same identifier, and the row ends with the greatest timestamp. |
| LinkStore.FreshExists | Chapter06/linkgraph/store/memory/memory.go:48-53 | While the table is not full some 128-bit number is not an identifier in use. |
| LinkStore.InMemoryGraph.constructor | Chapter06/linkgraph/store/memory/memory.go:26-33 | An empty store satisfies the invariant. |
| LinkStore.InMemoryGraph.UpsertLink | Chapter06/linkgraph/store/memory/memory.go:35-59 | Keeps the invariant on the four maps and does to the tables what the SQL upsert does, with the greater of the timestamps; the caller's record gets the identifier. |
| LinkStore.InMemoryGraph.FindLink | Chapter06/linkgraph/store/memory/memory.go:61-73 | Returns a copy of the stored record exactly if there is one. |
| LinkStore.InMemoryGraph.UpsertEdge | Chapter06/linkgraph/store/memory/memory.go:75-107 | Fails, changing nothing, exactly if an endpoint is unknown; otherwise does what the SQL upsert does and copies the edge to the caller. |
| LinkStore.InMemoryGraph.FindEdge | Chapter06/linkgraph/store/memory/memory.go:84-91 | Searching the list of the source finds the edge between two links if and only if the table has one. |
| LinkStore.InMemoryGraph.RemoveStaleEdges | Chapter06/linkgraph/store/memory/memory.go:108-123 | Deletes exactly the edges of that source stamped before the given time. |
| LinkStore.InMemoryGraph.Links | Chapter06/linkgraph/store/memory/memory.go:125-137 | The iterator has the stored record of each link from the first identifier on, below the second, and stamped strictly before the time, each once: what the SQL scan selects. |
| LinkStore.InMemoryGraph.Edges | Chapter06/linkgraph/store/memory/memory.go:139-155 | The walk over links and edge lists finds each edge whose source is in the range and which is stamped strictly before the time, once: what the SQL scan selects. |
| LinkStore.LinkIterator.Next | Chapter06/linkgraph/store/memory/iterator.go:11-17 | Advances, or says that there is nothing left. |
| LinkStore.LinkIterator.Current | Chapter06/linkgraph/store/memory/iterator.go:19-27 | A copy of the current record. |
| LinkStore.EdgeIterator.Next | Chapter06/linkgraph/store/memory/iterator.go:45-51 | Advances, or says that there is nothing left. |
| LinkStore.EdgeIterator.Current | Chapter06/linkgraph/store/memory/iterator.go:53-61 | A copy of the current record. |
| LinkStore.LinkUpsertAgrees | Chapter06/linkgraph/store/memory/memory.go:35-59 | The index and the edge lists agree with the tables after a link upsert. |
| LinkStore.EdgeInsertAgrees | Chapter06/linkgraph/store/memory/memory.go:100-104 | Appending the new identifier to the list of its source keeps the lists exact. |
| LinkStore.RemoveAgrees | Chapter06/linkgraph/store/memory/memory.go:112-121 | Replacing the list by the retained identifiers keeps the lists exact. |
| LinkStore.ScanFrom | Chapter06/linkgraph/store/memory/memory.go:144-153 | The edges of the links in a range are the edges whose source is in the range. |
| Updater.GraphUpdater.Process | Chapter07/crawler/graph_updater.go:20-63 | Never fails on a valid store; the tables change as `Processed` says: exact timestamps and URLs of all links, edges to exactly the found URLs and the old ones not older than the cutoff, other sources untouched. |
| Updater.GraphUpdater.UpsertNoFollow | Chapter07/crawler/graph_updater.go:32-38 | No-follow URLs gain links, and no edge changes. |
| Updater.GraphUpdater.UpsertLinks | Chapter07/crawler/graph_updater.go:43-54 | Each URL gains a link and an edge from the source stamped after the cutoff; other edges stay. |
| Updater.RemovalStep | Chapter07/crawler/graph_updater.go:56-60 | Deleting the stale edges leaves an old edge unless it starts at the source, is older than the cutoff, and leads to none of the URLs. |
| Updater.Outgoing | Chapter07/crawler/graph_updater.go:40-60 | The source links to a page if and only if its URL is in the payload or an old edge to it is not older than the cutoff. |
| Updater.LinksSpelled | Chapter07/crawler/graph_updater.go:23-50 | Every row of the links after one payload: which are there, with which URL, and the exact timestamp. |
| Updater.EdgesSpelled | Chapter07/crawler/graph_updater.go:40-60 | The edges after one payload: other sources untouched, one to each link found with a stamp from the cutoff to now, and of the rest exactly those at or after the cutoff, unchanged. |
| Updater.ClockMovedOn | Chapter07/crawler/graph_updater.go:40-60 | If the clock moved before the cutoff the source links to the URLs of the payload and nothing else. |
| Updater.NothingLost | Chapter07/crawler/graph_updater.go:20-63 | Identifiers and URLs stay, no retrieval time goes back, and exactly the found URLs are added. |
| Updater.StampsKept | Chapter07/crawler/graph_updater.go:40-60 | No edge is stamped later than the clock. |
| Updater.LastCrawlWins | Chapter07/crawler/graph_updater.go:20-63 | After any history of crawls, the outgoing links of a page are those found when it was crawled last. |
| TextIndex.InMemoryBleveIndexer.Index | Chapter06/textindexer/store/memory/bleve.go:40-57 | Rejects a missing identifier; otherwise, field by field, the document replaces the stored one except for its score, and the index has its title, its content and that score; or, if the index fails, nothing changes but the caller's time stamp. |
| TextIndex.InMemoryBleveIndexer.UpdateScore | Chapter06/textindexer/store/memory/bleve.go:99-112 | Sets the score of the document, creating an unknown one, and of its entry in the index, and changes nothing else; if the index fails only the document has it. |
| TextIndex.ScoreSpelled | Chapter06/textindexer/store/memory/bleve.go:102-107 | What a score update does to the documents, field by field. |
| TextIndex.InMemoryBleveIndexer.FindByID | Chapter06/textindexer/store/memory/bleve.go:69-76 | The document under the key, if there is one. |
| TextIndex.ScoreAndDocCommute | Chapter06/textindexer/index/indextest/suite.go:19-53 | Indexing a document and updating a score can be done in either order. |
| TextIndex.ScoresCommute | Chapter06/textindexer/store/memory/bleve.go:99-112 | So can updating the scores of two documents. |
| TextIndex.RankedFound | Chapter06/textindexer/store/memory/bleve.go:69-76 | Whatever a search ranks has a document, in every reachable state. |
| TextIndex.InMemoryBleveIndexer.Search | Chapter06/textindexer/store/memory/bleve.go:78-97 | An iterator at the offset with its first page. |
| TextIndex.BleveIterator.Next | Chapter06/textindexer/store/memory/iterator.go:18-36 | Latches the document of the next ranked key, never outside a page and never missing, or stops at the end or at a failed search. |
| TextIndex.BleveIterator.Drain | Chapter06/textindexer/index/indextest/suite.go:270-278 | Reading to the end yields the documents of the ranked list from the offset on, in order, with the least number of searches. |
| Paging.NextHit | Chapter06/textindexer/store/es/iterator.go:31-50 | Within a page the next hit is the next in the ranked list; at its end the page was full and the following one is not empty. |
| Paging.PageSpelled | Chapter06/textindexer/store/memory/bleve.go:13 | A page has the next ten hits, or those that are left. |
| Paging.SearchCount | Chapter06/textindexer/store/es/iterator.go:31-50 | At the end there have been max(1, ceil((n-offset)/10)) searches. |
| Paging.Server.Search | Chapter06/textindexer/store/es/es.go:153-187 | An iterator at the offset with its first page. |
| Paging.EsIterator.Next | Chapter06/textindexer/store/es/iterator.go:31-50 | Latches the next document of the ranked list, or stops at the end or at a failed search. |
| Paging.EsIterator.Drain | Chapter06/textindexer/index/indextest/suite.go:270-278 | The ranked list from the offset on, in order, with the least number of searches; a first part of it after a failure. |

## Left out

- BspStep.InvKept: a compute function is applied to the messages its vertex holds when it is computed and takes effect send by send; that it reads them one by one shows only as messages leaving the queue.
- BspEngine.Graph.Step: vertices are values in a map and not shared records, so aliasing of a `Vertex` kept by user code is not captured; nor is a compute function that changes the set of vertices.
- BspEngine.Graph.Reset: closing the queues cannot fail here. Compute functions do not use the aggregators of the graph, which are proved on their own.
- BspEngine.Graph.SendMessage: enqueuing cannot fail, as in the in-memory queue; the relayer is a function.
- BspEngine.Executor.Run: callbacks answer by iteration number; an unbounded run must be ended by some answer or failure. Resuming a graph after such an end is not covered.
- Accumulators.Accumulator.Set: beside other calls it is two separate swaps that may partly succeed, so it is modelled only with no other call under way.
- Accumulators.RunLinear: for floats the addition is any function and values are compared as the bit patterns they are; rounding is not modelled, so there is no conservation law for them.
- PipelineTheorems.Process: a source whose `Next` stops because of an error is a shorter source; its `Error` is only looked at after a payload was sent.
- Broadcast.BroadcastSafety: the processors of a broadcast are receivers that may be ready or not; termination, channel lifecycle and error return do not hold for this stage.
- PipelineTheorems.PayloadOwnership: payloads have identities and no contents, so the clone of a crawled page, which drains the original buffer, is not compared with it.
- LinkStore.InMemoryGraph.UpsertLink: the caller's record is not one that the store holds, which is so because the store hands out copies only; the lock is not modelled.
- PartitionScan.IteratePartitionedLinks: edges can be scanned by partition in the same way; that helper is not modelled.
- LinkStore.InMemoryGraph.Links: `Error` and `Close` of the iterators, which do nothing, are left out.
- TextIndex.InMemoryBleveIndexer.Index: documents are values; the index hands out copies, so no sharing is lost. The ranking is any function that ranks indexed keys; sorting, matching and analysis are not modelled. Scores are reals.
- Paging.EsIterator.Next: closing an iterator early and the total count are left out; after a failed search both would follow a missing result.
- `dynamicWorkerPool`: it returns without waiting for its workers, so what is proved of fixed pools does not hold for it.
- `retryingProcessor`: not used by anything.
- `link_extractor.go`: regular expressions and URL resolution.
- Fetching, sanitising, the wire formats of Elasticsearch and the database drivers.
