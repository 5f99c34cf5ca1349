# Loggregator: a verified model

Loggregator routes log envelopes. This project models the four parts of it that carry hard state or a
real translation, and proves what they promise for every input, every run and every interleaving.

**The connector** (`ClientList`, `ConnectorProtocol`, `ConnectorSafety`, `ConnectorCoverage`,
`ConnectorRuns`, `ConnectorTheorems`, `ConnectorStarts`, `ConnectorProgress`, `ConnectorFlap`, `FanIn`). A connector keeps every consumer
attached to every known router. A finder announces routers as events; consumers publish themselves in
an array of slots by compare-and-swap; one goroutine per consumer and router counts itself on the
router's record, refuses to run twice for the same URI, retries, and tears down under a lock. The v1
and v2 copies of this code take the same steps and are modelled once. `ConnectorProtocol` is the step
system: one step per atomic access, spawn, or stretch under a lock that nobody can look into, with the
finder's scan split into one load per slot and one load per dead flag, the claim of a slot split into
load, check and compare-and-swap, and the teardown split into lock, decrement, close and forget. The
slot array has any size; the source's is `MAX_CONNECTIONS`. `ClientList` holds the list work itself,
in place on the slice's backing array, and proves it equal to the functions the step system uses.
`FanIn` is the data path from the router streams through the bounded channel to the consumer.

**The v2 selector compiler** (`EnvelopeTraverser`, `PubSub`, `SelectorBuilder`). A gateway query becomes
selectors, a selector becomes a filter, a filter becomes a path of numbers with 0 as the wildcard, and
an envelope is matched by walking a tree. CRC-64 is a function parameter, so every statement holds for
every hash function, collisions included. The tree library is a stated contract: visit a node, deliver to
everything stored there, then descend into the children numbered 0, 1, ... until there is none.

**The v1 subscription index** (`RouterV1`). A map of maps of slices that must agree with the plain list
of registrations.

**Accounting and egress** (`Averager`, `MetricEmitter`, `EgressAdmission`, `EgressPipeline`,
`EgressTags`). Two counters packed in one word under compare-and-swap, a counter whose delta is swapped
out while it is sent, a gauge that subtracts by complement, stream admission, the bounded egress buffer,
and tag conversion.

`Base` holds shared vocabulary: options, 64-bit words, sums over sequences, removal.

## What turned out not to hold

- A goroutine having been *started* for every consumer and router (`NoLostPair`) does not mean one is
  still *there*. A router announced less often than before, whose goroutine is then overtaken by later
  announcements between leaving its loop and its teardown, stays listed and unmarked, nothing is started,
  and the consumer is no longer served. `ConnectorFlap.ServedExactly` says for which histories of
  announcements this can happen: an announced URI is served in every run of a history if and only if no
  event of it announces the URI less often than an earlier one. `RelistedUriUnserved` is the shortest case.
- The averager's `deltaTotal` is not masked to 48 bits. It is always right modulo 2^48; `TickTotal` gives
  the exact condition under which it is the interval's total, `TickTotalWraps` a run in which it is not. The
  callback is told 0 for any interval of a multiple of 65536 envelopes, not only for an empty one
  (`TickAverage`; `IntervalUnreported` is such a run).
- A batched egress stream can lose a batch and still end without an error: its error is dropped when the
  Send fails after the source has ended (`BatchLostSilently`), and also when it fails earlier but the loop
  notices the end of the source first (`BatchLostEarly`). `SuccessfulEnd` gives the exact condition: a stream
  that ended without an error has sent or dropped all it received if and only if none of its Sends failed,
  which for a plain stream is always so.
- The gateway documentation says that `counter.name` and `gauge.name` filter on names. In the code an empty
  `counter.name=` asks for every counter, and one `gauge.name=a,b` asks for gauges whose whole key set has
  the same wrapped sum of hashes as {a, b}, not for gauges that contain a or b (`EmptyCounterName`,
  `GaugeListIsWholeKeySet`). The model follows the code.
- The comment on the v1 `SendTo` promises every registered buffer; with a shard ID only one member of the
  group is written. All matching registrations are written if and only if no two of them share a filter and
  a shard ID (`AllWrittenExactly`). The model follows the code.

## Model

| member | source | states |
|---|---|---|
| `ClientList.DeltaIsDifference` | src/plumbing/grpc_connector.go:157-179 | the URIs to add and the dead clients are the two multiset differences between announced and known URIs, duplicates included |
| `ClientList.SubtractClient` | src/plumbing/grpc_connector.go:171-179 | the first client of the URI is spliced out in place and unmarked, no other mark changes, the rest keeps its order |
| `ClientList.GRPCConnector.Delta` | src/plumbing/grpc_connector.go:157-169 | the delta is computed on a copy, the client list itself is untouched, and a client stays marked only if it is dead |
| `ClientList.GRPCConnector.Close` | src/plumbing/grpc_connector.go:181-187 | exactly the one client leaves and order is kept, although the slice is spliced while the loop ranges over its old extent |
| `ClientList.GRPCConnector.AddConsumerState` | src/plumbing/grpc_connector.go:267-281 | the first empty or dead slot is taken, no live one is overwritten, and refusal means that all slots are live |
| `ClientList.GRPCConnector.Subscribe` | src/plumbing/grpc_connector.go:83-109 | an admitted consumer is published and gets one goroutine per listed client in order, a refused one gets none |
| `ClientList.ConsumerState.TryAddDoppler` | src/plumbing/grpc_connector.go:311-322 | succeeds exactly when the URI is not yet recorded, and records it |
| `ClientList.ConsumerState.ForgetDoppler` | src/plumbing/grpc_connector.go:324-329 | exactly this URI is forgotten |
| `ConnectorCoverage.EventLive` | src/plumbing/grpc_connector.go:119-179 | after the delta, the clients left live and the URIs to add make up the announcement, duplicates included |
| `ConnectorCoverage.FinderLost` | src/plumbing/grpc_connector.go:125-154 | no access of the finder inside the lock makes a consumer miss a client: it has a goroutine or the scan has yet to reach its slot |
| `ConnectorSafety.SlotSearch` | src/plumbing/grpc_connector.go:267-281 | load, check and compare-and-swap as separate steps keep every live owner in its slot, and who is about to overwrite one expects a dead owner |
| `ConnectorCoverage.VisitLost` | src/plumbing/grpc_connector.go:102-108 | under the read lock, every client already passed has its goroutine |
| `ConnectorSafety.EnterDopplers` | src/plumbing/grpc_connector.go:189-194 | the duplicate check keeps one active goroutine per consumer and URI, and `dopplers` exact |
| `ConnectorCoverage.ExitZombie` | src/plumbing/grpc_connector.go:195-206 | no access of the teardown leaves a marked client without a goroutine, except the one it is about to close |
| `ConnectorCoverage.LoopServed` | src/rlp/internal/ingress/grpc_connector.go:214-248 | for a live consumer, no move of the retry loop gives up a URI that was never announced less often |
| `ConnectorRuns.RunInv` | src/plumbing/grpc_connector.go:83-206 | every reachable state satisfies every invariant of the protocol |
| `ConnectorTheorems.NoLostPair` | src/plumbing/grpc_connector.go:92-141 | once Subscribe has returned and no event is being handled, a live consumer has had a goroutine started for every listed client |
| `ConnectorTheorems.ListFollowsAnnouncement` | src/plumbing/grpc_connector.go:119-206 | with the lock free, the unmarked clients are the last announcement as a multiset of URIs, and the list has no duplicates |
| `ConnectorTheorems.NoZombieClients` | src/plumbing/grpc_connector.go:143-206 | with the lock free, a listed client marked for disconnection has a goroutine counted on it that is left to close it |
| `ConnectorTheorems.FinderRetires` | src/plumbing/grpc_connector.go:143-154 | a client declared dead has been marked, and the finder takes it off the list if and only if no goroutine is counted on it |
| `ConnectorTheorems.ClosedOnlyUnused` | src/plumbing/grpc_connector.go:149-153 | whoever the finder takes off the list is marked and has no goroutine counted on it |
| `ConnectorTheorems.LastOneCloses` | src/plumbing/grpc_connector.go:195-203 | a goroutine giving up its count closes its client if and only if the client is marked and nobody else is counted on it at that moment |
| `ConnectorTheorems.OnlyTheseClose` | src/plumbing/grpc_connector.go:149-204 | only the finder and such a goroutine take a client off the list, and each takes only its own |
| `ConnectorProgress.ListKeepsOrder` | src/plumbing/grpc_connector.go:125-187 | clients arrive at the end of the list, leave it one by one and never change places |
| `ConnectorProgress.LockExcludes` | src/plumbing/grpc_connector.go:102-121 | a writer shuts out events, teardowns, visits and polls, and a visiting call shuts out events and teardowns |
| `ConnectorTheorems.ReferencesCounted` | src/rlp/internal/ingress/grpc_connector.go:193-223 | the reference count is the number of counted goroutines and never negative; each goroutine that left its loop counted one disconnect |
| `ConnectorTheorems.OneRoutinePerUri` | src/plumbing/grpc_connector.go:189-206 | at most one goroutine is active per consumer and URI, and `dopplers` holds exactly those URIs |
| `ConnectorTheorems.SlotsExclusive` | src/plumbing/grpc_connector.go:267-281 | a live admitted consumer is in the slot it won and no other live admitted consumer has that slot |
| `ConnectorTheorems.SlotKept` | src/plumbing/grpc_connector.go:267-281 | no step of anybody overwrites a live admitted consumer |
| `ConnectorTheorems.ConnectionLimit` | src/plumbing/grpc_connector.go:17-19 | at most as many admitted consumers are live at once as there are slots, 2000 in the source (`SourceConnectionLimit`) |
| `ConnectorStarts.AtMostTwoStarts` | src/plumbing/grpc_connector.go:102-139 | in every run at most two goroutines are started for a consumer and a client, none before its admission and at most one before its own visit |
| `ConnectorStarts.ScanStartsLive` | src/plumbing/grpc_connector.go:132-139 | the finder starts goroutines one at a time, for an admitted consumer just seen alive |
| `ConnectorProgress.EventsAreAnnounced` | src/plumbing/grpc_connector.go:111-123 | the history the theorems speak about is the sequence of events handled |
| `ConnectorFlap.Completed` | src/plumbing/grpc_connector.go:119-154 | from any point inside an event the finder reaches its end, having marked every client it had declared dead, and has done nothing to consumers and goroutines but start new ones |
| `ConnectorProgress.SearchAdvances` | src/plumbing/grpc_connector.go:267-281 | the slot search never waits: whatever the others do each access brings it nearer its end, it is refused only behind the last slot, and a lost race moves it on by one slot |
| `ConnectorProgress.SearchAlone` | src/plumbing/grpc_connector.go:267-281 | left alone, a search takes the first slot that is empty or held by a dead consumer |
| `ConnectorProgress.SearchRefused` | src/plumbing/grpc_connector.go:267-281 | left alone, a search is refused when there is no such slot |
| `ConnectorProgress.CancelledMakesRoom` | src/plumbing/grpc_connector.go:93-100 | after a consumer's context is cancelled, a new call left alone is admitted |
| `ConnectorProgress.PollDecides` | src/plumbing/grpc_connector.go:214-223 | a goroutine leaves exactly when its consumer is dead, or its client is marked and it has made an attempt |
| `ConnectorProgress.AttemptStreams` | src/plumbing/grpc_connector.go:224-243 | an attempt that succeeds streams, and every attempt leads back to the head of the loop as tried |
| `ConnectorProgress.FirstAttemptStreams` | src/plumbing/grpc_connector.go:189-243 | the first goroutine for a live consumer and URI attempts to connect even when its client is marked |
| `ConnectorProgress.TearsDown` | src/plumbing/grpc_connector.go:194-206 | the whole teardown: the count falls by one, exactly this URI is forgotten, and the client goes exactly when marked and unused |
| `ConnectorProgress.Departs` | src/plumbing/grpc_connector.go:189-223 | a goroutine whose consumer is dead, or whose client is marked after an attempt, ends and frees the URI |
| `ConnectorTheorems.SteadyUriServed` | src/plumbing/grpc_connector.go:189-243 | while no event announces a URI less often than an earlier one, every live subscribed consumer has a goroutine that serves it or is about to |
| `ConnectorFlap.UnsteadyUriUnserved` | src/plumbing/grpc_connector.go:119-206 | every other history has a run that ends with a live subscribed consumer without such a goroutine, although the router is listed and unmarked if announced last |
| `ConnectorFlap.ServedExactly` | src/plumbing/grpc_connector.go:83-243 | an announced URI is served in all runs of a history if and only if its multiplicity never decreases |
| `ConnectorFlap.RelistedUriUnserved` | src/plumbing/grpc_connector.go:171-206 | in particular a withdrawn and re-announced router can be listed, unmarked and unserved |
| `FanIn.StreamsArriveInOrder` | src/plumbing/grpc_connector.go:245-265 | read and buffered payloads of a stream are in order a prefix of what it received, short only of the pending part, which is no longer than the batch in hand and empty for a stream that ended without cancellation; nothing comes from elsewhere; the buffer keeps its bound |
| `FanIn.ReceivedIsDelivered` | src/plumbing/grpc_connector.go:247-258 | what a stream received is the payloads of all its batches, whole and in order |
| `FanIn.CanDeliver` | src/plumbing/grpc_connector.go:245-265 | from every point of every run and for every buffer size, 0 included: while the consumer reads, an open stream can get its batch through and count it |
| `FanIn.CanStop` | src/plumbing/grpc_connector.go:247-256 | between batches a stream can fail, in the middle of one it can stop after cancellation |
| `FanIn.IngressCountsBatches` | src/plumbing/grpc_connector.go:259-263 | the ingress counter is the payloads of finished batches, and all payloads when no batch is open |
| `EnvelopeTraverser.SumMetrics` | src/router/internal/server/v2/envelope_traverser.gen.go:267-271 | the summing loop gives the same wrapped sum in whatever order the map yields its keys |
| `EnvelopeTraverser.SumKeysAnyOrder` | src/router/internal/server/v2/envelope_traverser.gen.go:267-271 | any key may be summed last |
| `EnvelopeTraverser.SumNamesOfSet` | src/router/internal/server/v2/envelope_traverser.gen.go:651-655 | the sum over a filter's distinct names is the sum over an envelope's key set, for any number of names |
| `EnvelopeTraverser.CreateGaugePath` | src/router/internal/server/v2/envelope_traverser.gen.go:614-661 | the gauge part of a path, with the names summed in a wrapping loop |
| `EnvelopeTraverser.CreatePath` | src/router/internal/server/v2/envelope_traverser.gen.go:459-515 | the compiler with its counting, appending and trimming loop builds the path the meaning theorem speaks about, or panics on two messages |
| `EnvelopeTraverser.PanicsExactly` | src/router/internal/server/v2/envelope_traverser.gen.go:464-488 | the compiler panics if and only if two of the five messages are set |
| `EnvelopeTraverser.PathsAreTrimmed` | src/router/internal/server/v2/envelope_traverser.gen.go:459-515 | a compiled path starts with the source field and has no trailing wildcard behind it; a nil filter has the path every walk visits |
| `EnvelopeTraverser.Paths` | src/router/internal/server/v2/envelope_traverser.gen.go:40-409 | every child leads to a traverser whose type assertions hold, and the walk goes down |
| `EnvelopeTraverser.VisitField` | src/router/internal/server/v2/envelope_traverser.gen.go:29-59 | because hashes are never 0, a level with a wildcard and a hash child is passed at most once |
| `EnvelopeTraverser.PathMeaning` | src/router/internal/server/v2/envelope_traverser.gen.go:40-515 | the walk reaches the compiled path exactly once when every set field's hash equals the envelope's, and never otherwise |
| `PubSub.WalkDelivers` | src/router/internal/server/v2/pubsub.go:53-55 | the tree walk delivers to a subscription as often as it visits its path, whatever else is stored |
| `PubSub.BuildFilterCompiles` | src/router/internal/server/v2/pubsub.go:116-151 | a built filter has at most one message, so compiling it never panics |
| `PubSub.SetOnce` | src/router/internal/server/v2/pubsub.go:101-151 | unsharded, a selector's setter is called exactly once per selected envelope and never otherwise: source and type exact, names up to hashes |
| `PubSub.BareSetOnce` | src/router/internal/server/v2/pubsub.go:101-151 | for a bare type no hash appears in the condition at all |
| `PubSub.GuardNeeded` | src/router/internal/server/v2/pubsub.go:105-110 | with colliding source IDs the path is visited, and only the guard stops the call |
| `PubSub.RequestReceives` | src/router/internal/server/v2/pubsub.go:60-77 | a request registered as Subscribe leaves it has its own setter called once per selector of the request that selects the envelope |
| `PubSub.RegisteredFields` | src/router/internal/server/v2/pubsub.go:71-76 | every subscription of a request holds the request's setter, the selector's source ID and its compiled path |
| `PubSub.PubSub.Subscribe` | src/router/internal/server/v2/pubsub.go:60-77 | makes one new subscription for each selector that has a message, equal selectors included; taking them away restores the store |
| `PubSub.PubSub.Unsubscribe` | src/router/internal/server/v2/pubsub.go:79-83 | removes exactly the given subscriptions |
| `SelectorBuilder.SplitJoin` | src/rlp-gateway/internal/web/selector_builder.go:123-131 | splitting a gauge name list at commas loses nothing and leaves no comma |
| `SelectorBuilder.BuildSelector` | src/rlp-gateway/internal/web/selector_builder.go:16-61 | the loops build the selector list the query theorems speak about, with the checks in their order |
| `SelectorBuilder.AddCounterSelector` | src/rlp-gateway/internal/web/selector_builder.go:80-107 | appends one selector per counter name, or a bare one |
| `SelectorBuilder.AddGaugeSelector` | src/rlp-gateway/internal/web/selector_builder.go:109-135 | appends one selector per gauge name list, or a bare one |
| `SelectorBuilder.HasEnvelopeType` | src/rlp-gateway/internal/web/selector_builder.go:161-177 | the loop finds a type or name key exactly when there is one |
| `SelectorBuilder.QueryMeaning` | src/rlp-gateway/internal/web/selector_builder.go:33-61 | some built selector selects an envelope exactly when the query asks for its type, name and source |
| `SelectorBuilder.QueryDelivers` | src/rlp-gateway/internal/web/selector_builder.go:16-135 | end to end: after Subscribe with an accepted query's selectors, none is skipped, and publishing an envelope calls the setter if and only if the query asks for it |
| `SelectorBuilder.QueryReceives` | src/rlp-gateway/internal/web/selector_builder.go:16-135 | the exact number of setter calls: the given source IDs that are empty or the envelope's (1 if none is given), times 1 for a type asked for by its key or the number of listed names that match |
| `SelectorBuilder.GaugeListSelects` | src/rlp-gateway/internal/web/selector_builder.go:109-135 | `gauge.name` with any number of distinct names selects the gauge with exactly these metrics, whatever the hash |
| `SelectorBuilder.GaugeListMeaning` | src/rlp-gateway/internal/web/selector_builder.go:109-135 | among gauges it selects by the hash sums of the two name sets |
| `SelectorBuilder.JoinSplit` | src/rlp-gateway/internal/web/selector_builder.go:123-131 | joining parts without commas and splitting again is the identity |
| `SelectorBuilder.AcceptedExactly` | src/rlp-gateway/internal/web/selector_builder.go:16-31 | which of the four errors a query gets, or none, as conditions on its keys |
| `SelectorBuilder.EmptyCounterName` | src/rlp-gateway/internal/web/selector_builder.go:80-107 | an empty `counter.name` selects every counter, named or not |
| `SelectorBuilder.CounterNamedExactly` | src/router/internal/server/v2/envelope_traverser.gen.go:539-560 | a counter name fits that name, its CRC collisions, and the coincidence of CRCs 0 and 1, nothing else |
| `SelectorBuilder.GaugeListIsWholeKeySet` | src/rlp-gateway/internal/web/selector_builder.go:109-135 | `gauge.name=a,b` selects a gauge with exactly these two metrics, and one with a third metric only in two exactly given coincidences of hashes |
| `RouterV1.RunLeavesSurvivors` | src/router/internal/server/v1/router.go:99-135 | after any registrations and cleanups the index is the one built from the survivors in order, with no empty bucket or map |
| `RouterV1.RepresentsUnique` | src/router/internal/server/v1/router.go:31-34 | a list of registrations has only one index |
| `RouterV1.InsertRepresents` | src/router/internal/server/v1/router.go:99-109 | registering in the index is appending to the list |
| `RouterV1.DeleteRepresents` | src/router/internal/server/v1/router.go:111-135 | a cleanup in the index takes the registration off the list and nothing else |
| `RouterV1.Router.Register` | src/router/internal/server/v1/router.go:46-53 | the index goes on representing the list with the new registration at its end (`RegistrationWants` says what that registration matches) |
| `RouterV1.Router.CleanUp` | src/router/internal/server/v1/router.go:111-135 | the index goes on representing the list without this registration, also when repeated or unknown |
| `RouterV1.RegistrationWants` | src/router/internal/server/v1/router.go:146-169 | a registration matches exactly the envelopes its request asks for: application unset or equal, a metric filter everything but log messages, a log filter only log messages, metric before log |
| `RouterV1.RequestWritten` | src/router/internal/server/v1/router.go:56-84 | an unsharded request's setter is written once per registration if the request asks for the envelope, never otherwise |
| `RouterV1.CleanupTakesBack` | src/router/internal/server/v1/router.go:111-135 | a cleanup takes back its registration as often as it was made, and no other |
| `RouterV1.TypedFiltersMatch` | src/router/internal/server/v1/router.go:86-97 | the filters looked up are exactly the matching ones, each once, also for an empty application ID |
| `RouterV1.Router.WriteToShard` | src/router/internal/server/v1/router.go:75-84 | everybody without a shard ID, exactly one member with one; the pick is never from an empty group |
| `RouterV1.Router.SendTo` | src/router/internal/server/v1/router.go:56-73 | each matching group is served as its shard ID asks, no other group is written, and nothing on a marshalling error |
| `RouterV1.UnshardedWrittenOnce` | src/router/internal/server/v1/router.go:56-84 | an unsharded registration is written once per time it was registered if it matches, never otherwise |
| `RouterV1.WritesAreRegistered` | src/router/internal/server/v1/router.go:56-84 | every write is on behalf of a registration that matches |
| `RouterV1.AllWrittenExactly` | src/router/internal/server/v1/router.go:55-84 | all matching registrations are written if and only if no two of them share a filter and a shard ID |
| `Averager.EncodeKeepsLanes` | src/plumbing/envelope_averager.go:71-83 | no carry passes between count and total |
| `Averager.WordHoldsBothSums` | src/plumbing/envelope_averager.go:27-36 | after any interleaving of retries the word holds both sums, modulo 2^16 and 2^48 |
| `Averager.TrackedConserved` | src/plumbing/envelope_averager.go:27-36 | at every point of every run, what was tracked is in the sums or with a call that still retries |
| `Averager.AllTrackedArrives` | src/plumbing/envelope_averager.go:27-36 | when all calls have returned, the word holds everything tracked, modulo each lane's width |
| `Averager.RetriesAlone` | src/plumbing/envelope_averager.go:27-36 | a call that lost a race gets its whole amount through as soon as nobody comes in between |
| `Averager.TickCount` | src/plumbing/envelope_averager.go:45-51 | a tick's count is the interval's count modulo 2^16, however often it wrapped |
| `Averager.TickTotal` | src/plumbing/envelope_averager.go:45-51 | a tick's total is right modulo 2^48, and exact if and only if the 48-bit lane has not wrapped since the last tick, or has wrapped exactly 2^16 times with a smaller remainder |
| `Averager.TicksAddUp` | src/plumbing/envelope_averager.go:43-51 | the reports of all ticks and the one to come add up to everything counted, modulo each lane's width |
| `Averager.TickTotalWraps` | src/plumbing/envelope_averager.go:45-51 | a run in which one byte is reported as 2^64 - 2^48 + 1 |
| `Averager.TickAverage` | src/plumbing/envelope_averager.go:53-58 | nothing is reported exactly for intervals of a multiple of 2^16 envelopes; the interval's own total and count are reported exactly when it has 1 to 65535 envelopes and its total is exact |
| `Averager.IntervalUnreported` | src/plumbing/envelope_averager.go:45-58 | a run in which 65536 envelopes are reported as none |
| `Averager.EnvelopeAverager.Track` | src/plumbing/envelope_averager.go:27-36 | adds one envelope of this size to both sums |
| `Averager.EnvelopeAverager.TickOnce` | src/plumbing/envelope_averager.go:45-51 | reports the two differences and remembers the current lanes |
| `MetricEmitter.CounterConserved` | src/metricemitter/counter.go:48-71 | for any interleaving of increments and overlapping sends, delta plus amounts in flight plus amounts acknowledged is all increments modulo 2^64, exactly while below |
| `MetricEmitter.NothingLostToFailures` | src/metricemitter/counter.go:57-71 | once every call is over, what was not acknowledged is still in the delta |
| `MetricEmitter.HistoryIsTrue` | src/metricemitter/counter.go:48-71 | what the conservation law calls added and acknowledged are all increments and the amounts of exactly the calls whose callback succeeded |
| `MetricEmitter.SwapTakesAll` | src/metricemitter/counter.go:62-63 | a call is given everything that is neither acknowledged nor with another call, and leaves 0 |
| `MetricEmitter.CallsSettle` | src/metricemitter/counter.go:62-71 | a failed call adds its amount to what came in meanwhile, a successful one leaves the delta alone |
| `MetricEmitter.Counter.WithEnvelope` | src/metricemitter/counter.go:62-71 | reports the delta, and restores it on failure |
| `MetricEmitter.ComplementNegates` | src/metricemitter/gauge.go:50-52 | the complement of the predecessor is the negation, at 0 as well |
| `MetricEmitter.Gauge.Decrement` | src/metricemitter/gauge.go:50-52 | subtracts modulo 2^64, and an increment of the same amount undoes it |
| `EgressAdmission.AdmissionHolds` | src/rlp/internal/egress/server.go:110-120 | over every run at most `maxStreams` streams are admitted, the count is the calls in flight, the gauge 100 times the calls between its updates modulo 2^64 |
| `EgressAdmission.RejectedExactly` | src/rlp/internal/egress/server.go:113-120 | a call is rejected if and only if at least `maxStreams` other calls are in flight when it counts itself in |
| `EgressAdmission.CanLeave` | src/rlp/internal/egress/server.go:110-120 | every call, admitted or rejected, can go on to its end and give back its place |
| `EgressAdmission.AllReturned` | src/rlp/internal/egress/server.go:180-190 | when all calls are over, count and gauge are back at 0 |
| `EgressPipeline.EgressConserved` | src/rlp/internal/egress/server.go:122-174 | at every step each received envelope is in exactly one place, the buffer holds at most 10000, and the sent sequence is a subsequence of the received one |
| `EgressPipeline.ReceivedIsPulled` | src/rlp/internal/egress/server.go:354-368 | what counts as received is what the source yielded, in order |
| `EgressPipeline.DroppedExactly` | src/rlp/internal/egress/server.go:370-376 | something is dropped if and only if an envelope has found 10000 others in the buffer |
| `EgressPipeline.CanFinish` | src/rlp/internal/egress/server.go:160-174 | from every point of every run: if the source ends and no further Send fails, the stream ends without error and has sent all that was buffered, in order |
| `EgressPipeline.SuccessfulEnd` | src/rlp/internal/egress/server.go:160-174 | on a return without error received is sent plus dropped plus lost; it is sent plus dropped if and only if no Send failed; a plain stream has had no failure |
| `EgressPipeline.LostExactly` | src/rlp/internal/egress/server.go:251-303 | at every point of every run, something is lost if and only if a Send has failed |
| `EgressPipeline.ErrorsAreSends` | src/rlp/internal/egress/server.go:160-174 | a plain stream has returned an error if and only if a Send has failed, a batched one only if one has |
| `EgressPipeline.BatchFailureReported` | src/rlp/internal/egress/server.go:251-253 | a batched stream that has not noticed the end of the source can still report a failed Send |
| `EgressPipeline.BatchLostSilently` | src/rlp/internal/egress/server.go:254-261 | a batched stream can lose its envelope to a Send after the end of the source and still return without error |
| `EgressPipeline.BatchLostEarly` | src/rlp/internal/egress/server.go:250-261 | it can also lose it to a Send before the end of the source and still return without error |
| `EgressTags.Envelope.ConvergeTags` | src/rlp/internal/egress/server.go:380-412 | the loops give the same maps in whatever order they visit them |
| `EgressTags.PreferredByName` | src/rlp/internal/egress/server.go:381-399 | name by name: each kind of value is printed as its kind and wins, one without data is passed over, other tags stay |
| `EgressTags.DeprecatedByName` | src/rlp/internal/egress/server.go:401-412 | name by name: a tag becomes a text and wins, other values stay |
| `EgressTags.ConvergeIdempotent` | src/rlp/internal/egress/server.go:380-412 | converting twice in one mode is converting once |
| `EgressTags.PreferredRoundTrip` | src/rlp/internal/egress/server.go:380-412 | preferred, then deprecated, then preferred is preferred once |
| `EgressTags.DetourAgrees` | src/rlp/internal/egress/server.go:380-412 | preferred directly and by way of deprecated agree if and only if the two maps agree on every shared name that carries data |

## Left out

- The connection pool: RegisterDoppler, Close and Subscribe on it are not modelled, so nothing is said about which connections are open. A connection attempt succeeds or fails arbitrarily.
- handleFinderEvent and consumeSubscription are steps of the protocol, not methods; the list operations, the slot search and Subscribe are also methods on the real slice and array, as a single goroutine runs them.
- The connect counter of the v2 connector, log lines, sleeps and back-off delays; a retry is an arbitrary later step.
- Integer overflow of `refCount` and `subscriptions`, which would need 2^63 goroutines or calls.
- Sharded and deterministic delivery in the v2 store, and `hashEnvelope`: decided inside the pub-sub library, which is not part of this model.
- CRC-64 itself, protobuf marshalling and the number formatting of tag values: parameters of the model.
- The payload bytes of v1 writes; a write is recorded by the registration it serves.
- Floating point in the gauge and the averager: hundredths, and the two sides of the quotient.
- The batching library's timers: a batch may be flushed at any time, oldest envelopes first and all at once.
- convergeSelectors, the argument checks of the two egress calls, and `rejectedMetric`: one branch each.
- Diodes, gRPC, HTTP and websocket handlers, authentication, configuration and main packages: wiring.
