# Verification of the Kafka to Elasticsearch batching pipeline

The program reads messages in the Elasticsearch bulk format from Kafka, glues them together into
larger bulk bodies, sends these to Elasticsearch, cuts the documents that were refused back out of
the body, and writes those to an error topic. This project models that core in Dafny and proves
what it is for.

| file | content |
|---|---|
| `Lines.dfy` | `bytes.SplitAfter` on newlines: a verified loop, and what splitting means |
| `Documents.dfy` | two-line bulk documents, and the extraction of failed ones (`parseESErrors`) |
| `IndexerSpec.dfy` | one indexer as functions on values: bulk, flush, the select loop over a schedule |
| `Indexing.dfy` | the `Bulker` and `Indexer` classes with in-place updates, proved against `IndexerSpec` |
| `Batching.dfy` | concatenation, metrics, size bounds, and how close to the shortest cut the batches are |
| `Rejections.dfy` | batching does not change which documents are republished |
| `Reasons.dfy` | why and when the bulker flushes, the byte cap, the closing of the error channel |
| `Staleness.dfy` | how long a message can stay buffered, with the clock |
| `Buckets.dfy` | `computeBuckets` |
| `Pipeline.dfy` | the whole concurrent program as a labelled transition system |
| `Ownership.dfy`, `Exclusive.dfy` | single ownership of pooled buffers over all interleavings |
| `Outcomes.dfy`, `Dropping.dfy` | the fate of every document, read off the steps of a run |
| `Conservation.dfy` | an account of every document over all interleavings |
| `Discipline.dfy`, `Channels.dfy` | closing, capacities, fan-in order, backpressure |
| `BulkSizes.dfy` | the batch limits in the concurrent program |
| `Streams.dfy` | document order through an indexer, and exactly what it republishes, over all interleavings |
| `Minimality.dfy` | exactly which message streams are always cut as short as possible |
| `Stepwise.dfy`, `Refinement.dfy` | every indexer of the pipeline is a sequential indexer, step by step |
| `Unfolding.dfy`, `Realization.dfy` | the converse: what the sequential indexer does, an indexer of the pipeline can do |
| `LaneBatching.dfy` | how the indexers of the pipeline cut what they take, in every interleaving |
| `Verdicts.dfy`, `Delivery.dfy` | what becomes of each document, and what the producer takes, end to end |
| `Shutdown.dfy` | termination measure, progress, the end state |
| `Failures.dfy` | exactly when the pipeline gets stuck, and runs that do |

The pipeline has any number of indexers and any channel capacities, zero included. A buffer is an
address into a memory, so aliasing is visible: all indexers share one bulk pool, and `b.buffer`
stays stale between the flush callback and the next `Get`. A pool hands out any pooled buffer or
a new one. Channel steps follow the Go Programming Language Specification, sections "Send
statements", "Receive operator", "Select statements" and "Close". No guard excludes a send on or a
close of a closed channel; that neither happens is a theorem.

Properties the code does not have are stated as such:

- A message can stay buffered for two flush intervals, not one (`Staleness.TwoIntervalsReached`);
  one interval is kept exactly when `msgLimit` is 1.
- `parseESErrors` indexes out of range exactly when an item past the last line pair failed
  (`Documents.PanicsExactly`).
- Batching is not minimal over every run: a time flush cuts a batch short, and if the first message
  after start-up stays buffered, the next message or tick is sure to flush it, because the last
  flush is then the zero time (`Batching.StartUpCostsOne`). A stream is batched minimally on every
  schedule exactly when no two consecutive messages fit one batch (`Minimality.MinimalExactly`).
  In any run batching is optimal up to the number of time flushes (`Batching.GreedyOptimal`) and
  between two of them (`Batching.StretchOptimal`).
- Shutdown does not complete when every indexer has failed and the consumer still has a message to
  send on a full channel (`Failures.AbandonedForever`, `Failures.AbandonedReachable`), nor after a
  producer failure when a forwarder holds a buffer and the merged channel is full
  (`Failures.CloggedForever`, `Failures.CloggedReachable`). `Failures.StuckExactly` says exactly
  where a run can end. One surviving indexer and a producer that has not failed are enough
  (`Shutdown.RunsToEnd`).
- `computeBuckets` ends exactly when the density is at most the largest bucket, or, without buckets,
  when that is negative and the density at least two (`Buckets.TerminatesExactly`).

## Model

| member | source | states |
|---|---|---|
| Lines.Split | es/indexer.go:362 | the splitting loop yields the pieces of the body cut after every newline |
| Lines.SplitInverts | es/indexer.go:362 | the pieces glue back to the body; each has at most one newline, only at its end |
| Lines.SplitUnique | es/indexer.go:362 | they are the only pieces with that shape: splitting a glued list of such pieces gives the list back |
| Lines.SplitGlues | es/bulker.go:93 | the pieces of two bodies appended are those of both, with the last of the first and the first of the second joined |
| Lines.SplitComposes | es/bulker.go:93 | after a newline-terminated body, the non-empty pieces of the first are followed by the pieces of the second |
| Documents.ParseESErrors | es/indexer.go:359-394 | the two nested loops write, for each failed action of item i, lines 2i and 2i+1, in item order, or index past the lines |
| Documents.CopyFailed | es/indexer.go:365-390 | whatever order the item map is ranged over, one copy of the pair per failed action |
| Documents.PanicsExactly | es/indexer.go:370-375 | extraction indexes out of range iff some failed item has no complete line pair |
| Documents.ParsePanicsExactly | es/indexer.go:370-375 | on a body of n documents: iff an item past the n-th failed |
| Documents.ParseFilters | es/indexer.go:362-391 | on a body of n documents and at most n items the output is the bulk body of exactly the failed documents, in order |
| Documents.ParseFiltersOpen | es/indexer.go:362-391 | the same without final newline; the output lacks its own exactly when the last document failed |
| Documents.FailedIsFilter | es/indexer.go:364-368 | with one action per item the failed documents are the filter of the documents by the items' verdicts |
| Documents.FilterPartitions | es/indexer.go:364-391 | failed and passed documents together are the documents, none lost or doubled |
| Documents.LineIndexShifts | es/bulker.go:93 | document i of a message appended after k documents has its two lines at 2(k+i) and 2(k+i)+1 |
| Documents.Reingest | es/indexer.go:359-394 | filtering the failed documents by a second verdict list is one filter by the combined list |
| Documents.ReingestBodies | es/indexer.go:359-394 | the error body is a well-formed bulk body; extracting from it again gives the documents failed by both responses |
| Indexing.Bulker.constructor | es/bulker.go:57-76 | nothing buffered, no flush yet, last flush at the zero time |
| Indexing.Bulker.Bulk | es/bulker.go:80-107 | the in-place object takes exactly the step of the reference: time test, byte test, append, count test |
| Indexing.Bulker.FlushNow | es/bulker.go:111-125 | one flush: metrics, callback, new buffer, flush time, count |
| Indexing.Bulker.FinalFlush | es/bulker.go:127-129 | an unconditional flush with reason shutdown |
| Indexing.Indexer.SendToES | es/indexer.go:307-347 | nil exactly for a body under 5 bytes, a call without a decoded answer, or an answer without errors; else the extracted errors; a call is made iff the body has 5 bytes |
| Indexing.Indexer.SendErrors | es/indexer.go:191-207 | only a non-empty buffer, and only with an error channel, is sent |
| Indexing.Indexer.FlushBuffer | es/indexer.go:209-213 | bulk call, errors onwards, ticker reset |
| Indexing.Indexer.Turn | es/indexer.go:182-255 | one turn of the select loop takes exactly the step of the reference, says whether and how the loop returns, and leaves the error channel closed if it does |
| Indexing.Indexer.Start | es/indexer.go:175-257 | for every schedule of messages, ticks and close, the loop's outcome, sends, ticker and metrics are those of the reference run; the error channel, if there is one, is closed exactly when the loop has returned |
| Batching.NothingLostOrReordered | es/bulker.go:80-125 | after every schedule, flushed batches followed by the buffer are the received messages, in order |
| Batching.MetricsAddUp | es/bulker.go:111-120 | reported message and byte counts sum to the messages and bytes flushed |
| Batching.ShutdownMetrics | es/bulker.go:111-129 | after the final flush they count everything received exactly once |
| Batching.BatchesBounded | es/bulker.go:89-104 | between calls fewer than msgLimit messages; every buffer and batch is within bytesLimit or a single message |
| Batching.BulkBodiesCapped | es/indexer.go:99 | with the configured cap, multi-message bodies have at most 90 MiB |
| Batching.GreedyStaysAhead | es/bulker.go:89-104 | greedy batches of a suffix are no more than those of any feasible cut of the whole, plus one per time flush before the last batch |
| Batching.RunGreedy | es/bulker.go:80-107 | in every run, a batch that was not cut by time could not have taken the first message of the next one |
| Batching.GreedyOptimal | es/bulker.go:80-129 | over every run that ends with the final flush, no cut into feasible batches is shorter by more than the number of time flushes before the last batch |
| Batching.StretchOptimal | es/bulker.go:89-104 | from any flush up to and including the next time flush, or to any later flush before it, no cut of the same messages has fewer batches |
| Batching.StartUpCostsOne | es/bulker.go:65-81 | the zero flush time makes the second message after start-up flush the first: whenever both fit one batch, two batches are made, so the bound is reached |
| Minimality.MinimalExactly | es/bulker.go:80-107 | a message stream is batched minimally on every schedule iff no two consecutive messages fit one batch: iff msgLimit is 1 or each such pair exceeds bytesLimit |
| Reasons.EventFlushes | es/bulker.go:80-129 | every event flushes exactly when and for the reasons it has to, in order: time, bytes, count, and unconditionally at the end |
| Reasons.FlushesJustified | es/bulker.go:80-129 | in every run each flush was made with the condition its reason names holding: buffered messages and a last flush long ago, a next message that exceeds the byte limit, a full count, the shutdown as the very last one |
| Reasons.ClosedExactly | es/indexer.go:182-184 | for every schedule the error channel is closed iff there is one and the loop has returned, by the final flush or by an error |
| Reasons.SentIsWanted | es/indexer.go:191-207 | nothing is sent without an error channel, and never an empty buffer |
| Reasons.CapIsGreatest | es/options.go:117-121 | the configured byte limit is the greatest that is neither above the setting nor above 90 MiB |
| Reasons.CapCausesFlush | es/bulker.go:89-91 | with that limit, a flush for bytes is made only when the batch and the message after it exceed the setting or 90 MiB |
| Reasons.ShortestBody | es/indexer.go:106 | the shortest bulk body, two empty objects with a line feed between, has the five bytes below which nothing is sent |
| Rejections.FlushRejects | es/indexer.go:191-213 | one flush sends the bulk body of exactly the rejected buffered documents |
| Rejections.BatchingKeepsMeaning | es/indexer.go:191-256 | up to the nil return, the buffers sent are back to back the body of the rejected documents of the stream, for all limits and schedules |
| Rejections.SentIsPrefix | es/indexer.go:191-256 | at any earlier point they are a prefix of it |
| Rejections.LimitsDoNotMatter | es/bulker.go:80-129 | indexers with different limits and schedules republish the same bytes for the same stream |
| Staleness.StalenessBound | es/bulker.go:81-83 | no message is buffered longer than twice the flush interval, at any moment or flush |
| Staleness.TwoIntervalsReached | es/indexer.go:245-254 | for every message and every configuration with msgLimit other than 1, a schedule on which the message waits the full two intervals |
| Staleness.ImmediateWhenOne | es/bulker.go:102-104 | with msgLimit 1 every message is flushed at once |
| Buckets.ComputeBuckets | metrics/metrics.go:303-313 | the strictly increasing multiples of the step, their exact number, its bounds, and the last within one step of the maximum |
| Buckets.CountIsExact | metrics/metrics.go:306-310 | the number of multiples of the step up to the maximum is density + (max mod density)/step, between density and 2 density - 1 |
| Buckets.TerminatesExactly | metrics/metrics.go:306-308 | the loop variable passes the maximum iff density is at most the maximum, or the maximum is negative and density at least 2 (Go's division truncates toward zero) |
| Ownership.StepMoves | es/bulker.go:98 | each step takes at most one buffer from a pool, empties at most one, and otherwise only hands buffers on |
| Ownership.StepWrites | es/bulker.go:93-98 | the exact content of every buffer after every step |
| Ownership.StepKeepsSingleOwner | es/bulker.go:121-122 | single ownership is inductive over every step |
| Ownership.ReachableSingleOwner | kafka/consumer.go:164-174 | in every reachable state each allocated buffer has exactly one owner and pooled buffers are empty |
| Ownership.OwnersOnly | es/indexer.go:308 | a step neither reads nor writes a buffer its goroutine does not hold: with other content there it does the same |
| Exclusive.OnePlace | kafka/producer.go:137 | no buffer is in two places: hands, channel slots, pools |
| Exclusive.SomePlace | es/indexer.go:191-207 | and every allocated one is in some place |
| Exclusive.ElsewhereUntouched | es/indexer.go:360 | a buffer in a channel, another hand or a pool is not touched by a step |
| Exclusive.StaleAliasReachable | es/bulker.go:121-122 | the stale b.buffer really can name another indexer's live buffer |
| Conservation.StepConserves | es/indexer.go:307-347 | every step keeps the account of every document and books each fate exactly as often as it happens in the step |
| Conservation.RunConserves | kafka/producer.go:135-183 | in every run, by its own steps: the copies of a document that were consumed are those in flight and those accepted, republished, or lost in a failed bulk call, a failed produce, for want of a producer or with a failed indexer |
| Outcomes.LedgerIsExact | es/indexer.go:307-347 | in every run, the ledger counts exactly: accepted and lost in a bulk call by body and response, dropped by the buffers dropped, republished and lost in producing by the answers of Kafka, lost with an indexer by the buffer at a failed tick |
| Outcomes.QueueFullRetriesOnce | kafka/producer.go:151-183 | a full producer queue keeps the same buffer in hand for exactly one retry, which settles it as a first attempt would have |
| Dropping.DropsTheReported | es/indexer.go:196-199 | without a producer, the copies dropped and those in the indexers' hands are exactly those reported as failed |
| Dropping.DropsNothing | es/indexer.go:201-206 | with one, none is dropped |
| Discipline.StepKeepsDiscipline | main.go:231-260 | capacities, who has closed what, and the fan-in history are inductive |
| Discipline.ReachableDisciplined | main.go:224-261 | and hold in every reachable state |
| Channels.NoPanicOnClosed | kafka/consumer.go:106 | no reachable step sends on or closes a closed channel |
| Channels.ChannelStep | main.go:235-239 | a send adds exactly the sender's buffer at the end, a receive takes the oldest into the receiver's hand, a hand-over goes through an empty channel, every other step leaves the channel alone; only the closes named close |
| Channels.TaggedInterleaves | main.go:235-239 | a history with each entry tagged by its input is an interleaving of the inputs' subsequences |
| Channels.FanInCorrect | main.go:231-260 | all that was sent on out interleaves prefixes of the N inputs; the rest of each is in its forwarder's hand and channel |
| Channels.OutClosedLast | main.go:249-258 | out is closed only when all inputs are closed, drained and forwarded |
| Channels.ProducerEndsLast | kafka/producer.go:135 | when the producer loop ends every indexer has ended and every error buffer has been taken |
| Channels.BacklogBounded | kafka/consumer.go:174 | consumed messages not yet in a bulk call: at most 1 + capacity + N msgLimit |
| Channels.ErrorsBounded | main.go:179-183 | error buffers not yet produced: at most N (capacity + 2) + merged capacity + 1 |
| BulkSizes.BulkCallsWithinLimits | es/bulker.go:89-104 | every bulk call of every interleaving is within the message and byte limits |
| Streams.BatchesInOrder | es/bulker.go:80-125 | over every interleaving, what left an indexer's buffer, then what waits there and in its hand, is what it received, in order |
| Streams.CallIsSendToES | es/indexer.go:307-347 | the bulk call of the transition system yields byte for byte what sendToES yields on the buffer |
| Streams.RepublishesExactlyTheRejected | es/indexer.go:191-256 | over every interleaving, an indexer that has made its final flush has sent exactly the rejected documents it received, in order |
| Stepwise.StepsAreARun | es/indexer.go:226-256 | an indexer taken apart into its separate steps does, on some schedule in the order of time, what the select loop does event by event: same messages, bodies, flush metrics with the reasons of the tests taken, error buffers and end |
| Refinement.StepActs | es/bulker.go:80-125 | every step of the pipeline is, for each indexer, one of its own steps or none, on the bytes it holds |
| Refinement.LaneIsAnIndexer | es/indexer.go:175-257 | in every interleaving each indexer takes the messages, flushes the bodies for the reasons, sends the error buffers and closes its error channel as in a run of the sequential indexer |
| Unfolding.RunDoes | es/indexer.go:226-256 | conversely, what the select loop does on any schedule, its separate steps can do one after the other |
| Realization.IndexerIsALane | main.go:162-215 | and whatever the sequential indexer does on any schedule of bulk bodies, with any responses that fit their documents, an indexer of the pipeline does in some run, with any number of indexers and any capacities |
| LaneBatching.LaneBatchesOptimally | es/bulker.go:89-104 | in every interleaving, an indexer that has made its final flush has made no more bulk calls than any feasible cut of its messages has batches, plus its time tests that fired before the last call |
| LaneBatching.LaneStretchOptimal | es/bulker.go:89-104 | at any moment, for any of its consecutive calls of which at most the last was due to time: no feasible cut of their messages has fewer batches |
| LaneBatching.UntimedLaneOptimal | es/bulker.go:81-104 | if no time test of the indexer fires before its last batch, no feasible cut has fewer batches at all |
| LaneBatching.LaneCutsMessages | es/bulker.go:111-125 | its bulk bodies are those of consecutive messages, as many as its metrics report, within the limits, and together all it has taken |
| Verdicts.VerdictsDecide | main.go:162-215 | over the whole pipeline, by the steps of the run: when all has finished, each rejected document was produced or lost in producing, each counted by the answers of Kafka, together exactly as often as it was consumed, and each other one accepted exactly as often |
| Delivery.ProducerTakesTheRejected | main.go:231-260 | the buffers the producer takes interleave those the indexers have sent, each list in order, and those of an indexer hold exactly the rejected ones of the documents it received, in order |
| Shutdown.StepDescends | es/indexer.go:226-256 | once stopping, each step but a tick strictly lowers a measure over all stages and channels, and ticks never raise it |
| Shutdown.WorkBounded | kafka/consumer.go:126-134 | so a run takes at most that many steps other than ticks |
| Shutdown.EndlessRunsOnlyTick | es/indexer.go:245-254 | and an endless run does nothing but tick from some point on |
| Shutdown.EndlessRunsStarve | es/indexer.go:226-256 | every endless run, failures or not, starves a step: one and the same useful step is enabled for ever while only ticks are taken; so runs in which ticks do not pre-empt for ever end |
| Shutdown.Progress | main.go:235-258 | no deadlock in any state, for any N at least 1 and any capacities, while the producer has not failed and some indexer has not, or the consumer can move |
| Shutdown.RunsToEnd | kafka/consumer.go:106-145 | from every stopping state with a surviving indexer the pipeline can run to its end, within the measure |
| Shutdown.EndToEnd | kafka/producer.go:135-183 | when all has finished nothing is in flight and every document was, by the steps of the run, accepted, republished, or lost for a named reason exactly as often as it was consumed |
| Shutdown.EveryAnswerPossible | kafka/consumer.go:137-183 | wherever a goroutine waits for Kafka, Elasticsearch or a pool, every answer is possible in the model |
| Shutdown.CancelledExactly | main.go:125-128 | the context is cancelled by the signal and by the error of any goroutine, and by nothing else |
| Failures.StuckExactly | kafka/consumer.go:174 | nothing useful can happen iff: all has finished; or all indexers failed and the consumer waits on a full channel; or, after a producer failure, every goroutine has ended or waits behind a full channel, and out is closed or some forwarder waits |
| Failures.AbandonedForever | kafka/consumer.go:174 | a consumer left with a message after all indexers failed waits for ever, cancelled or not |
| Failures.AbandonedReachable | es/indexer.go:246-248 | a run that gets there, for any number of indexers, any capacities and any message |
| Failures.CloggedForever | main.go:235-239 | after a producer failure with out full, a forwarder holding a buffer keeps it and out is never closed |
| Failures.CloggedReachable | kafka/producer.go:111-114 | a run that gets there, for any number of indexers, any limits and any capacities |

## Left out

- Kafka, Elasticsearch and HTTP calls are open outcomes: polling, producing and bulk calls return any of the results the code distinguishes, and each call is taken to return. The delivery-report goroutine, rebalancing, TLS, environment parsing, the HTTP server and the SIGHUP reload are not modelled.
- The percentage of `CheckESStatus`: a tick may end an indexer with an error, and that is all.
- Retry backoff, Prometheus collectors other than the flush metrics (so not the failed-session sizes), logging and its trace-level reads of buffers, and JSON decoding: the decoded items are an input.
- `bytebufferpool`: `Get` yields an empty buffer nobody owns and `Put` gives it up and empties it. `ByteBuffer.Write` and `WriteTo` cannot fail, so the branches for a short or failed write are absent.
- Panics inside the forwarding goroutines of `merge`.
- `Consumer.Start`, `Producer.Start` and `merge` are stages of the transition system, not methods: their loops have no result of their own, only steps between other goroutines' steps.
- The transition system carries documents, not bytes; messages are well-formed bulk bodies (two newline-terminated lines and at least 5 bytes per document, no one-line actions such as delete) and responses have at most one single-action item per document. `Documents` treats the bytes and the out-of-range case.
- Indexing.Indexer.Start: the responses given must not make `parseESErrors` index out of range; the time of an event is the time at which it is handled; channels are histories here, and blocking and pooled buffers are those of `Pipeline`.
- The transition system leaves the outcome of a time test open after the first flush, which covers every clock; the clock itself is in `IndexerSpec` and `Staleness`.
- Refinement.LaneIsAnIndexer: for a flush interval that is not negative (a ticker needs a positive one), and stated where the indexer is between two events or has returned; in between, `Refinement.StepActs` follows it step by step.
- An error status leads to a nil result because its body is drained before the decode; such a batch, like one with a transport error or an undecodable answer, is counted as lost with the batch.
- Conservation.RunConserves: republished means handed to the Kafka client without an error; whether the broker gets it is up to the client.
- Shutdown.Progress: needs at least one indexer, since with none the consumer's send or the producer's receive blocks for ever; after a producer failure `Failures.StuckExactly` takes its place.
- Verdicts.VerdictsDecide: for runs in which every bulk call is answered document by document and no indexer fails; `Shutdown.EndToEnd` accounts for the others.
- Rejections.BatchingKeepsMeaning: needs an error channel and bulk calls that do not fail as a whole; the documents of a failed call are neither confirmed nor republished.
- Streams.RepublishesExactlyTheRejected: likewise, and the indexer must not be ended by a failed status check, which drops its buffer.
- Buckets.ComputeBuckets: no 64-bit wrap-around of the loop variable (it needs a maximum within one step of the largest integer) and buckets are integers, not float64; densities below one, which panic, are not treated.
- Reasons.CapIsGreatest: the minimum with the cap is taken on integers, not through float64.
- Realization.IndexerIsALane: the run found gives all messages to one indexer; the times of the schedule are matched by the outcomes of its time tests.
