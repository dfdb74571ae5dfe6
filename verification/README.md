# Verified models of the supply-chain intelligence platform

This project models the four parts of the platform whose behaviour spans many steps or many
inputs, and proves what they keep:

- the Go scraping gateway: a bounded worker pool, a fan-out and a retrying gRPC sender that pass
  work along three bounded channels, until a signal shuts them down, and the parser of its seed list;
- the Scala ingestion service: whitespace normalisation, sliding-window chunking, batches that span
  payloads, and a fold that isolates failed batches;
- the real-time channel: the browser's reconnecting `WSClient`, and the backend's bounded-queue
  broadcaster that evicts slow subscribers;
- the life of an intelligence document: triage, deduplicated insert, escalation, analysis,
  vector index, and the dashboard's counts.

`dafny verify dfyconfig.toml` checks everything.

## How the files fit together

| Dafny file | what it models |
|---|---|
| `Channels`, `Gateway` | the gateway as a transition system: one program counter per goroutine, channels as bounded FIFO sequences with a closed flag, `select` as a choice among the enabled steps |
| `GatewayInvariant`, `GatewayTheorems`, `GatewayStatus`, `GatewayShutdown` | what each step keeps, and what follows for whole runs: accounting, order, the outcome of each scrape, termination, loss at shutdown |
| `GatewayProcess` | `NewPool`, `Submit`, `Stop` and `StartHopping` as methods that block while an arbitrary scheduler moves everybody else |
| `GrpcClient` | `Connect`, `StartStream`, `sendWithRetry` with its 64-bit back-off |
| `SeedParser` | `parseSeeds` and `trimEach` |
| `Chunking`, `Normalise`, `Ingestion` | `chunkText` with 32-bit arithmetic, `trim` and `replaceAll`, and `streamScrapeData` |
| `WsState`, `WsTheorems`, `WsBackoff`, `WsSockets`, `WsClient` | the client's operations on values, what every order of events keeps, the reconnect delays and connections read off the events, and the class itself, whose public methods keep that invariant and say what they achieve |
| `BroadcastThreads`, `BroadcastHistory`, `BroadcastEviction` | publishing threads interleaved with the event loop, one program counter per publish and a live index into the list; exactly when a queue's history and its eviction are what they should be |
| `BroadcastOverlaps` | runs in which overlapping steps break them |
| `Broadcast`, `BroadcastAlone` | the broadcaster while nothing overlaps a publish, on values and as a class, and why it is a special case of the threads |
| `Triage`, `IntelStore`, `Lifecycle` | scores, the two stores, and every interleaving of ingestion, expiry and one analysis runner with crashes |
| `IntelAgent` | the ingestion cycle and the analysis runner as loops over the stores |

The scraping engine, timers, signals, the outcome of each `Send`, upsert and analysis, and the hash
that names documents are parameters, or are decided by the step that is taken. A property holds for
all of them.

## Where the code and its documentation differ

The models follow the code. Most of these differences are results below.

- `scrapers/README.md:49` says the pool drains on shutdown. `Stop` cancels before it closes, so idle
  workers may leave queued work behind: it drains exactly when nothing is queued
  (`GatewayShutdown.StopDrainsIffNothingQueued`). How much can be lost is bounded, and the bound is
  reached (`GatewayTheorems.ShutdownLossBounded`, `GatewayShutdown.LossBoundIsReached`).
- `scrapers/README.md:58` says the stream is closed at once on an end of file from the server. The
  code drops that payload and goes on with the next (`GrpcClient.GRPCClient.StartStream`).
- The doubling back-off is 500 ms * (2^k - 1) in total only up to 35 failures, where the 64-bit
  duration turns negative (`GrpcClient.TotalBackoff`). `MAX_SEND_RETRIES` is not validated at start-up;
  zero or less means that every payload is dropped without an attempt.
- Joining two seed lists with `;` is not the same as joining what they parse to when one of them is
  empty, because an empty list means the default seed (`SeedParser.ParseOfConcatenation`).
- The ingestion service's start-up validation does not require the overlap to be below the chunk size.
  With a larger overlap a long text yields no chunk at all and success is still reported
  (`Ingestion.SuccessCanHideLoss`); with an equal one the chunker throws
  (`Ingestion.EqualOverlapThrows`). The `Int` that holds the end of a window can also overflow for
  enormous texts (`Chunking.EndCanOverflow`). The exact conditions are `Ingestion.SuccessMeansRecoverable`
  and `Chunking.RoundTrip`.
- `trim` removes all control characters while `\s` matches only six characters, so normalisation can
  delete control characters at the ends and keep them in the middle (`Normalise.WordsSurviveIff`,
  `Normalise.WordsCanBeLost`).
- `WSClient.close()` does not cancel a pending reconnect
  (`WsTheorems.CloseIsFinalIffNoReconnectPending`, `WsTheorems.CloseCanBeUndone`), nor does calling it inside a close handler
  (`WsTheorems.OnCloseReconnects`).
- `publish_agent_result` is an ordinary function that a background worker thread runs
  (`backend/gateway/api/agents/agent_router.py:12-22`, line 39), while the event loop registers, reads and
  removes queues. The list it iterates can shift under it, so a connection that ends can make its
  neighbour miss a result, two publishes can be in different orders in two queues, a queue can be
  evicted although it has room again, an evicted queue can hold something else than a prefix of what was
  published, and a second removal of one queue raises and turns a finished pipeline into a published
  failure (`BroadcastOverlaps`). The exact conditions are `BroadcastHistory.HistoryIsExactIff`,
  `BroadcastHistory.PrefixIff`, `BroadcastEviction.EvictsIff`, `BroadcastEviction.EvictedWithRoomIff` and
  `BroadcastEviction.FrozenIff`.
- A refused upsert is only logged and the document is marked processed all the same, so its chunks may
  be missing for good (`Lifecycle.IndexAgreementIff`, `Lifecycle.RefusedUpsertIsLost`). Chunks of an
  expired document are never deleted (`Lifecycle.OldChunkRemains`).
- `intelligence_agent/README.md:88-92` gives scores from 0 to 100, a threshold of 30 and a top-level
  `rag_chunks`. The code scores 0, 3, 4 or 5, escalates from 3, and stores the chunks inside
  `llm_analysis`. Hence whatever is not discarded as noise is escalated (`Triage.TriageIsAllOrNothing`).

## Model

| member | source | states |
|---|---|---|
| `GatewayTheorems.NothingLostOrDuplicated` | scrapers/cmd/api/main.go:134-173 | In every reachable state each accepted item of work is in exactly one place, and the accepted count is the sum of what is queued, executing or being reported, panicked, dropped on time-out, in `Results`, held, abandoned or skipped by the fan-out, in `payloads`, held by the sender, sent and dropped. |
| `GatewayTheorems.NoChannelMisuse` | scrapers/cmd/api/main.go:136-192 | In every interleaving nobody sends on a closed channel or closes one twice, `Results` is never closed, and no channel exceeds its capacity. |
| `GatewayTheorems.SentInOrderAtMostOnce` | scrapers/internal/service/grpc_client.go:94-114 | What was counted as sent is an order-preserving subsequence of the SUCCESS results in the order they entered `Results`; nothing is delivered or counted twice; sent plus dropped is the number of payloads dealt with; the fan-out skipped exactly the failed results. |
| `GatewayStatus.OnlySuccessIsSent` | scrapers/internal/service/scraper_service.go:40-65 | Over the steps of every run: a result carries the outcome its scrape had, and a task has one outcome at most; what was sent, or is on the way behind the fan-out, was scraped successfully; what failed never gets there and is skipped once it is taken; a task that panicked has no outcome. |
| `GatewayTheorems.ShutdownLossBounded` | scrapers/cmd/api/main.go:189-200 | After `Stop`, the accepted work that no counter or log line accounts for is at most 2*concurrency + 100 + 1 + payload buffer, plus the one payload the sender may still hold. |
| `GatewayInvariant.StepKeeps` | scrapers/pkg/workerpool/pool.go:44-82 | Every step of every goroutine keeps the invariant: one place for each accepted item, order along the channels, counters equal to the record, channels open and closed by their owners only. |
| `GatewayInvariant.ReachableInv` | scrapers/cmd/api/main.go:122-192 | That invariant holds in every reachable state. |
| `GatewayShutdown.EveryRunEnds` | scrapers/pkg/workerpool/pool.go:54-82 | However it is scheduled, a run has at most (attempts + 8) * selectors + concurrency + 10 steps. |
| `GatewayShutdown.NeverStuck` | scrapers/pkg/workerpool/pool.go:54-82 | No reachable state before the exit is a deadlock, and after the signal a step other than the signal is always possible, even if the sender died and all channels are full; where workers are busy that step may be the scraping engine returning or the one-second timer firing. |
| `GatewayShutdown.CompletedRunsExit` | scrapers/cmd/api/main.go:189-200 | A run that cannot be continued has ended with the exit of the process and with every worker gone. |
| `GatewayShutdown.SubmitIsNotWedged` | scrapers/pkg/workerpool/pool.go:44-51 | A full queue never blocks `Submit` for good: it can go on, or some worker can. |
| `GatewayShutdown.WorkerLeavesAlone` | scrapers/pkg/workerpool/pool.go:60-82 | After the cancellation a worker in any phase can exit within three steps of its own, with no help from the other goroutines. |
| `GatewayShutdown.StopCanSkipTheQueue` | scrapers/pkg/workerpool/pool.go:63-80 | From any state in which `Stop` starts, it can return with the queue as it was. |
| `GatewayShutdown.StopDrainsIffNothingQueued` | scrapers/pkg/workerpool/pool.go:53-58 | Every run of `Stop` leaves an empty queue if and only if the queue was empty when `Stop` began. |
| `GatewayShutdown.LossBoundIsReached` | scrapers/cmd/api/main.go:145-173 | The loss bound is tight: with enough selectors some run loses exactly that much. |
| `GatewayShutdown.LossInHandIsReached` | scrapers/internal/service/grpc_client.go:94-114 | The bound for a sender that still holds a payload is tight too. |
| `GatewayShutdown.NothingEndsBeforeSignal` | scrapers/cmd/api/main.go:145-173 | Before the signal the fan-out forwards on, the payload channel is open, and a stream that has dealt with a payload has not ended. |
| `GatewayShutdown.FanLeavesAlone` | scrapers/cmd/api/main.go:146-170 | After the signal the fan-out can end in one step of its own, whatever it is doing, and closes the payload channel behind it. |
| `GatewayShutdown.PanicIsContained` | scrapers/pkg/workerpool/pool.go:68-77 | A panic in the scraping engine can always be recovered from, and its only effects are that the worker is free again and the task is among the panicked ones. |
| `GatewayShutdown.ClosedLetsGo` | scrapers/pkg/workerpool/pool.go:63-67 | A closed and empty task queue lets an idle worker exit, cancelled or not. |
| `GatewayShutdown.ClosedMeansDrained` | scrapers/internal/service/grpc_client.go:101-105 | If the stream ends because the payload channel was closed, no payload is left in it, then or at any later time. |
| `GatewayProcess.Process.Submit` | scrapers/pkg/workerpool/pool.go:43-51 | Under every scheduling `Submit` returns, and adds exactly its own outcome to the run; if it succeeds its item is last in the queue, and it fails only after the cancellation, with nothing accepted. |
| `GatewayProcess.Process.StartHopping` | scrapers/internal/service/scraper_service.go:92-112 | For every selector, in order, the outcome that `Submit` had in the run is returned; the accepted ones are exactly as many as the pool accepted, none is refused before the cancellation, and the loop always finishes. |
| `GatewayProcess.Process.Stop` | scrapers/pkg/workerpool/pool.go:53-58 | Under every scheduling `Stop` returns within a number of steps given by the measure; then the channel is closed, every worker has exited and nothing was added to the queue. |
| `GrpcClient.SendWithRetry` | scrapers/internal/service/grpc_client.go:117-137 | No error exactly if a `Send` succeeds within the allowed attempts after only transient errors; an end of file ends it at once; all attempts failed exactly if it is exhausted; the time slept is that of the failed attempts. |
| `GrpcClient.TotalBackoff` | scrapers/internal/service/grpc_client.go:119-135 | k failed attempts sleep 500 ms * (2^k - 1) in total if and only if k <= 35. |
| `GrpcClient.GRPCClient.StartStream` | scrapers/internal/service/grpc_client.go:83-115 | It refuses without a connection or a stream; otherwise each payload received is counted once, the delivered ones are, in order, exactly those whose own attempts get through, and a missing final response is reported. |
| `GrpcClient.StepsFollowTheLoop` | scrapers/internal/service/grpc_client.go:117-137 | The gateway's step-by-step sender settles a payload as the retry loop does. |
| `GrpcClient.SenderLeavesAlone` | scrapers/internal/service/grpc_client.go:96-114 | After the signal a sender with a payload in hand settles it as the retry loop does, whatever `Send` returns, and ends, within the attempts and two more steps of its own. |
| `SeedParser.TrimEach` | scrapers/cmd/api/main.go:27-33 | A fresh array holds each string with the whitespace around it removed; the argument is unchanged. |
| `SeedParser.ParseSeeds` | scrapers/cmd/api/main.go:55-77 | The loop that appends seeds computes the parser's specification, the default for an empty input included. |
| `SeedParser.RoundTrip` | scrapers/cmd/api/main.go:53-77 | Parsing a printed non-empty list of seeds with trimmed, separator-free fields gives the list back. |
| `SeedParser.PaddedRoundTrip` | scrapers/cmd/api/main.go:55-77 | Any list written with whitespace around every field, and with parts that are blank or have no selector anywhere, parses to its seeds if and only if it is not the empty text, which gives the default seed. |
| `SeedParser.ParseIsStable` | scrapers/cmd/api/main.go:55-77 | For any input the seeds have trimmed, separator-free fields and a selector each, and printing and parsing them again changes nothing. |
| `SeedParser.ParseOfConcatenation` | scrapers/cmd/api/main.go:55-77 | Parsing `a;b` gives the seeds of a followed by those of b if and only if neither is empty. |
| `Chunking.RoundTrip` | ingestion/src/main/scala/streams/RiskIntelPipeline.scala:13-19 | For all settings that start-up admits: the chunks put together, dropping the shared characters, are the text if and only if it fits in one chunk, or the overlap is below the chunk size and the end of the last window fits in 32 bits. |
| `Chunking.EndCanOverflow` | ingestion/src/main/scala/streams/RiskIntelPipeline.scala:15-17 | A text of the greatest length, cut into chunks one shorter, makes the end of the second chunk overflow. |
| `Chunking.ChunksAre` | ingestion/src/main/scala/streams/RiskIntelPipeline.scala:15-18 | A longer text is cut into the windows of unbounded arithmetic exactly if that end fits, and fails otherwise. |
| `Chunking.RoomForOneMoreSuffices` | ingestion/src/main/scala/streams/RiskIntelPipeline.scala:14-18 | No end overflows whenever the length plus the chunk size is at most 2^31 - 1. |
| `Chunking.ChunkArithmetic` | ingestion/src/main/scala/streams/RiskIntelPipeline.scala:13-19 | One chunk, or ceil(n / (chunkSize - overlap)) of them, each non-empty and at most chunkSize long, together at most n + (count - 1) * overlap characters. |
| `Chunking.CoverageIsTight` | ingestion/src/main/scala/streams/RiskIntelPipeline.scala:15-18 | In a text longer than a chunk, every stretch of a given length lies inside some chunk if and only if that length is at most overlap + 1. |
| `Chunking.CharacterMultiplicity` | ingestion/src/main/scala/streams/RiskIntelPipeline.scala:15-18 | Each character lies in a consecutive range of chunks, at least one and at most ceil(chunkSize / step). |
| `Normalise.NormalisedIsJoin` | ingestion/src/main/scala/service/IngestionService.scala:25 | The normalised text is the words of the trimmed text joined by single spaces. |
| `Normalise.NormalisationProperties` | ingestion/src/main/scala/service/IngestionService.scala:23-25 | Normalising is idempotent, never lengthens, leaves no two whitespace characters in a row and none at the ends, keeps the words in order, and is empty exactly for a blank text. |
| `Normalise.TrimIsExact` | ingestion/src/main/scala/service/IngestionService.scala:23-25 | `trim` cuts off exactly the code units up to 32 at both ends, and leaves nothing exactly if there are no others. |
| `Normalise.VisibleSurvives` | ingestion/src/main/scala/service/IngestionService.scala:25 | Every unit of the trimmed text that is not one of the six that `\s` matches survives, in order; the result has none of the other five and no two spaces in a row. |
| `Normalise.WordsSurviveIff` | ingestion/src/main/scala/service/IngestionService.scala:25 | All words of the raw text survive if and only if what `trim` cut off was whitespace in the sense of `\s`. |
| `Normalise.WordsCanBeLost` | ingestion/src/main/scala/service/IngestionService.scala:25 | A text whose words do not survive. |
| `Ingestion.GroupedProperties` | ingestion/src/main/scala/service/IngestionService.scala:31 | The batches put together are the chunks in order; none is empty, and all but the last are full. |
| `Ingestion.FoldCounts` | ingestion/src/main/scala/service/IngestionService.scala:40-43 | As no batch is empty, the fold's pair is the number of stored chunks, as it comes round in 32 bits, and the number of failed batches. |
| `Ingestion.ResponseIsRight` | ingestion/src/main/scala/service/IngestionService.scala:20-50 | The batches are the chunks of all payloads that are not blank, in order; `processedCount` counts the chunks of the batches that were stored, exactly up to 2^31 - 1 and coming round in 32 bits beyond, and `success` holds exactly if every upsert worked, when everything is stored. |
| `Ingestion.AnsweredIff` | ingestion/src/main/scala/service/IngestionService.scala:20-56 | The call is answered if and only if the stream ended properly and no payload's chunking threw, whatever the store did; otherwise it fails with the chunker's exception if there was one, and with the stream's error if not. |
| `Ingestion.ThrowsIff` | ingestion/src/main/scala/streams/RiskIntelPipeline.scala:13-18 | Chunking a payload throws if and only if it is not blank, does not fit in one chunk, and the step is zero or the end of the last window does not fit in 32 bits. |
| `Ingestion.BlankIff` | ingestion/src/main/scala/service/IngestionService.scala:23 | A payload is left out if and only if it has no code unit above 32. |
| `Ingestion.AttemptedIsPrefix` | ingestion/src/main/scala/service/IngestionService.scala:52-56 | Whatever was handed to the store when the stream broke or a chunking threw is a prefix of what the whole input would have given. |
| `Ingestion.FullBatchesAreAttempted` | ingestion/src/main/scala/service/IngestionService.scala:31-39 | However a stream fails, every full batch of the chunks received before was handed to the store: less than one batch is missing. |
| `Ingestion.SuccessMeansRecoverable` | ingestion/src/main/scala/service/IngestionService.scala:20-50 | After a reported success the stored documents rebuild the normalised text of every payload that is not blank and carry its metadata, if and only if each fits in one chunk or the overlap is below the chunk size. |
| `Ingestion.RecoverableInAnyOrder` | ingestion/src/main/scala/service/IngestionService.scala:20-50 | After a reported success, if no other payload has its metadata, a text is rebuilt by `chunkIndex` from the documents with that metadata in whatever order they come back, if and only if it could be chunked. |
| `Ingestion.SuccessCanHideLoss` | ingestion/src/main/scala/config/AppConfig.scala:36-43 | With an overlap above the chunk size, any text longer than a chunk is lost while success is reported. |
| `Ingestion.EqualOverlapThrows` | ingestion/src/main/scala/config/AppConfig.scala:36-43 | With an overlap equal to the chunk size, any such text makes the request die. |
| `WsTheorems.StepKeeps` | frontend/src/lib/ws.ts:19-122 | Every event, with handlers that call back into the client in any way, keeps the invariant on sockets, timers, destruction and back-off, and keeps a connected client alive unless it is closed or destroyed. |
| `WsTheorems.NothingLeaks` | frontend/src/lib/ws.ts:19-56 | In every run only the client's own socket has live callbacks, at most one reconnect timer and one heartbeat are armed and the fields know them, and a destroyed client has none of these. |
| `WsTheorems.ConnectIsForGood` | frontend/src/lib/ws.ts:19-51 | From `connect()` on, as long as nobody closes or destroys the client, it has a socket that will still report its end, or an armed reconnect timer. |
| `WsTheorems.DestroyIsFinal` | frontend/src/lib/ws.ts:85-94 | After `destroy()` no sequence of events makes a socket, arms a timer or sends a frame again. |
| `WsTheorems.OnCloseReconnects` | frontend/src/lib/ws.ts:47-51 | Whatever the close handlers call, a reconnect is pending afterwards unless the client is destroyed. |
| `WsTheorems.CloseIsFinalIffNoReconnectPending` | frontend/src/lib/ws.ts:72-83 | After `close()` no socket is ever made again without a call of `connect()`, if and only if no reconnect was pending. |
| `WsTheorems.CloseCanBeUndone` | frontend/src/lib/ws.ts:72-83 | A run after which `close()` does not stop the client from opening another socket. |
| `WsTheorems.BackoffOverRuns` | frontend/src/lib/ws.ts:100-108 | In every run the k-th reconnect since the recorded open waits min(1000 * 2^(k-1), 30000) ms, and the waits that are over fit one after the other into the time since then. |
| `WsBackoff.RecordIsRight` | frontend/src/lib/ws.ts:31-35 | The recorded open is the last event at which the client's own socket opened, or its creation, and the recorded waits are as many as the reconnects that the events since then scheduled. |
| `WsBackoff.ReconnectIsDue` | frontend/src/lib/ws.ts:31-35 | A reconnect scheduled after k others since the client's own socket last opened is due in min(1000 * 2^k, 30000) ms, counted over the events of any run. |
| `WsBackoff.FirstReconnectAfterOpen` | frontend/src/lib/ws.ts:31-35 | The first reconnect scheduled after such an open is due in exactly one second, however many failed before it. |
| `WsSockets.OneConnectionWithHeartbeat` | frontend/src/lib/ws.ts:19-35 | In every run a socket that is connecting or open is the client's own; when it is open a heartbeat runs, and each beat sends one frame on it, and none otherwise. |
| `WsSockets.ConnectMakesUsable` | frontend/src/lib/ws.ts:19-29 | `connect()` leaves a connection in use alone, and otherwise makes a new one, or schedules a reconnect if the constructor throws. |
| `WsSockets.GivenUpIsInert` | frontend/src/lib/ws.ts:72-83 | Events of a socket the client gave up change nothing but that socket. |
| `WsSockets.RegisteredIff` | frontend/src/lib/ws.ts:58-64 | After any call a handler is registered if and only if the call registered it, or it was and the call removed neither it nor all. |
| `WsSockets.HandlersAreHeard` | frontend/src/lib/ws.ts:37-55 | A registered handler that sends when a message or an error arrives puts its frame on the open connection. |
| `WsSockets.OpensAreHeard` | frontend/src/lib/ws.ts:31-35 | A handler of opens that sends when the client's socket opens puts its frame on that socket. |
| `WsSockets.ClosesAreHeard` | frontend/src/lib/ws.ts:47-51 | A handler of closes that destroys the client when its socket closes has destroyed it. |
| `WsSockets.TypeComesFirst` | frontend/src/lib/ws.ts:37-45 | The handlers of a message's own type run before those of every message, which do not run if the former remove them. |
| `WsTheorems.TotalWait` | frontend/src/lib/ws.ts:100-108 | k waits total 1000 * (2^k - 1) ms for k <= 5 and 31000 + 30000 * (k - 5) from then on. |
| `WsClient.WSClient.Connect` | frontend/src/lib/ws.ts:19-29 | Called by anybody in any state, it keeps the invariant, makes at most one socket, leaves a connection in use alone, and leaves a client that is not destroyed with a usable connection or, if the constructor throws, with something that will reconnect. |
| `WsClient.WSClient.ScheduleReconnect` | frontend/src/lib/ws.ts:100-108 | Afterwards exactly one reconnect is armed unless the client is destroyed; one armed by this call is due in min(1000 * 2^attempts, 30000) ms. |
| `WsClient.WSClient.Close` | frontend/src/lib/ws.ts:72-83 | Afterwards no socket can call back, and a pending reconnect and the heartbeat are untouched; the invariant is kept. |
| `WsClient.WSClient.Destroy` | frontend/src/lib/ws.ts:85-94 | Afterwards no socket can call back, no timer is armed and no handler is left, which is the state that is final. |
| `WsClient.WSClient.StartHeartbeat` | frontend/src/lib/ws.ts:110-115 | Afterwards exactly one heartbeat runs, a new one. |
| `WsClient.WSClient.Emit` | frontend/src/lib/ws.ts:96-98 | The calls that an event's handlers make take effect one after the other, and none without a handler; each keeps the invariant. |
| `WsClient.WSClient.Fire` | frontend/src/lib/ws.ts:31-55 | Any event the browser can produce leads to the specified next state, and the invariant holds there. |
| `BroadcastThreads.StepKeeps` | backend/gateway/api/ws/ws_router.py:12-31 | Whatever thread makes the next step, the list stays sorted by age, no publish comes back to a queue it has passed, and what a publish found full it neither gave its result nor forgets. |
| `BroadcastThreads.NothingTwice` | backend/gateway/api/ws/ws_router.py:18-20 | In no interleaving does a queue get a publish twice. |
| `BroadcastHistory.HistoryIsExactIff` | backend/gateway/api/ws/ws_router.py:15-31 | In every interleaving, the history of a queue that stays registered is, once no publish is under way, exactly the publishes whose first loop ended since it registered, in that order, if and only if no publish had run off the list when it registered and since then none found it full, none was moved past it by a removal, and none overtook another in it. |
| `BroadcastHistory.AloneOnlyFullSpoils` | backend/gateway/api/ws/ws_router.py:15-24 | If publishes do not overlap each other or a removal, the only thing that spoils a history is a full queue. |
| `BroadcastHistory.PrefixIff` | backend/gateway/api/ws/ws_router.py:15-31 | In every interleaving, what a queue holds, be it evicted, left or still registered, is a prefix of what was published since it registered, once no publish is under way, if and only if no publish ended its first loop while another was in its place in the queue, and none was appended while an earlier one was missing. |
| `BroadcastHistory.StepFitsIff` | backend/gateway/api/ws/ws_router.py:18-20 | A step keeps the queue and the published order in agreement if and only if they agreed and it is neither of these two. |
| `BroadcastEviction.EvictsIff` | backend/gateway/api/ws/ws_router.py:21-24 | A publish that found a queue full removes it if and only if it was still in the list and nobody else removed it; otherwise it raises, and its caller publishes the fallback if it has one. |
| `BroadcastEviction.ReturnMeansEvicted` | backend/gateway/api/ws/ws_router.py:21-24 | When a publish returns, every queue it found full is out of the list and has not got the result. |
| `BroadcastEviction.EvictedWithRoomIff` | backend/gateway/api/ws/ws_router.py:21-24 | Only its own listener can leave an evicted queue with room: it is not full at its removal if and only if the listener, still reading at the failed offer, has since taken more than others appended and it had in excess. |
| `BroadcastEviction.FrozenIff` | backend/gateway/api/ws/ws_router.py:18-24 | A removed queue never gets anything again if and only if no publish is about to append to it, and none is about to test it unless it is full and its listener is over. |
| `BroadcastEviction.CleanupIff` | backend/gateway/api/ws/ws_router.py:73-76 | The end of a connection removes its queue and no other, if and only if no publish removed it between the test and the removal; otherwise the removal raises. |
| `BroadcastEviction.CleanedUpTakesNothing` | backend/gateway/api/ws/ws_router.py:70-77 | Once the endpoint starts to clean up, its listener takes nothing in any run. |
| `BroadcastEviction.UnreadIsBounded` | backend/gateway/api/ws/ws_router.py:30 | A queue never has more unread results than 255 and the most publishes that were at once between their test and their append. |
| `BroadcastOverlaps.CleanupCanSkip` | backend/gateway/api/ws/ws_router.py:73-76 | A run in which a connection that ends makes another one miss a result. |
| `BroadcastOverlaps.OrdersCanDiffer` | backend/gateway/api/ws/ws_router.py:18-20 | A run in which two publishes are in opposite orders in two queues. |
| `BroadcastOverlaps.EvictedWithRoom` | backend/gateway/api/ws/ws_router.py:46-54 | A run in which a queue is evicted although it is not full any more. |
| `BroadcastOverlaps.EvictedWithoutPrefix` | backend/gateway/api/ws/ws_router.py:18-24 | A run in which an evicted queue does not hold a prefix of what was published. |
| `BroadcastOverlaps.SizeCanBeExceeded` | backend/gateway/api/ws/ws_router.py:30 | A run in which a queue of size 256 has 257 unread results. |
| `BroadcastOverlaps.CompletedBecomesFailed` | backend/gateway/api/agents/agent_router.py:12-22 | A run in which a finished pipeline's publish raises and a failure is published. |
| `BroadcastAlone.AlonePublishIsAtomic` | backend/gateway/api/ws/ws_router.py:15-24 | The steps of a publish that nothing overlaps have the effect of the one atomic publish. |
| `BroadcastAlone.SequentialRuns` | backend/gateway/api/ws/ws_router.py:12-76 | Every run with atomic publishes is a run of the threads, so what follows for the former is the special case without overlaps. |
| `Broadcast.HistoryIsExact` | backend/gateway/api/ws/ws_router.py:12-31 | In every run without overlaps, what a connection has taken followed by what is unread is exactly what was published since it registered, up to its removal if it was removed; never more than 256 are unread. |
| `Broadcast.EvictionIsExact` | backend/gateway/api/ws/ws_router.py:15-24 | A publish that nothing overlaps evicts exactly the registered queues with 256 unread results, and every other one gets the result at its end. |
| `Broadcast.UnregisteredIsFrozen` | backend/gateway/api/ws/ws_router.py:15-24 | Without overlaps, a removed queue is never offered anything and never registered again. |
| `Broadcast.CleanupRemovesOnlyItsOwn` | backend/gateway/api/ws/ws_router.py:73-76 | Without overlaps, the end of a connection removes its queue and no other, and no queue at all after an eviction. |
| `Broadcast.Broadcaster.Connect` | backend/gateway/api/ws/ws_router.py:30-31 | A new empty queue is registered last, and the invariant is kept. |
| `Broadcast.Broadcaster.PublishAgentResult` | backend/gateway/api/ws/ws_router.py:15-24 | The two loops, offering and then removing, with nothing in between, amount to one simultaneous publish to the queues that are not full. |
| `Broadcast.Broadcaster.Get` | backend/gateway/api/ws/ws_router.py:46-54 | The listener takes the oldest unread result, or nothing changes. |
| `Broadcast.Broadcaster.StopListening` | backend/gateway/api/ws/ws_router.py:46-54 | The listener takes nothing any more; all else is unchanged. |
| `Broadcast.Broadcaster.Disconnect` | backend/gateway/api/ws/ws_router.py:73-76 | Without overlaps, the connection's queue is unregistered if it still was registered, and not listened to any more. |
| `Triage.CalculateIntelRisk` | intelligence_agent/intelligence_logic/risk_scorer.py:11-26 | The running maximum is the greatest weight of a keyword that occurs in the lower-cased text, or 0. |
| `Triage.RiskValues` | intelligence_agent/intelligence_logic/risk_scorer.py:1-26 | A score is 0, 3, 4 or 5, and 0 exactly if no keyword occurs. |
| `Triage.RiskIsMonotone` | intelligence_agent/intelligence_logic/risk_scorer.py:11-26 | More text around a text never lowers its score. |
| `Triage.RiskLevels` | intelligence_agent/intelligence_logic/risk_scorer.py:1-26 | Read off the characters: 5 if the text has fire or explosion in any case, else 4 for strike, riot or conflict, else 3 for shutdown or flood, else 0. |
| `Triage.ContainsIff` | intelligence_agent/intelligence_logic/risk_scorer.py:19-23 | Searching the lower-cased text for a word is finding its letters in either case, with the Kelvin sign as a k. |
| `Triage.TriageIsAllOrNothing` | intelligence_agent/intelligence_logic/escalation_planner.py:1-17 | A text is escalated exactly if it is not noise, and then its priority is never low. |
| `Triage.DecisionsAre` | intelligence_agent/intelligence_logic/escalation_planner.py:1-17 | High from 4 on, medium for 2 and 3, low below; escalated from 3 on. |
| `IntelStore.IngestAdds` | intelligence_agent/ingestion/news_fetcher.py:59-104 | Ingestion never changes a stored document and adds exactly the ids of the acceptable articles. |
| `IntelStore.StoredIff` | intelligence_agent/ingestion/news_fetcher.py:59-104 | An article is stored if and only if it has a URL, a valid date and a title that is not null, its id is free, and its title or description has a keyword in any case; the stored document has the article's own fields, the level of its strongest keyword and the decisions that follow from it, and nothing else changes. |
| `IntelStore.IngestConcat` | intelligence_agent/ingestion/news_fetcher.py:59-104 | Running over two lists together is running over one after the other. |
| `IntelStore.NewCountIsGrowth` | intelligence_agent/ingestion/news_fetcher.py:57-106 | `new_count` is the growth of the collection. |
| `IntelStore.IngestIsIdempotent` | intelligence_agent/ingestion/news_fetcher.py:89-104 | Fetching known articles again changes nothing as long as their documents have not expired, whatever else has become of them. |
| `IntelStore.ChunkIdInjective` | intelligence_agent/db/chroma_client.py:33 | `doc_id-i` determines both the document and i, as a hexadecimal id has no dash. |
| `IntelStore.UpsertIsExact` | intelligence_agent/db/chroma_client.py:26-36 | An upsert writes every chunk with its source and title under `doc-0`, `doc-1`, ... and touches no other id. |
| `IntelStore.UpsertKeepsOthers` | intelligence_agent/db/chroma_client.py:26-36 | Another document's chunks are in the index after an upsert if and only if they were before. |
| `IntelStore.UpsertHasOnlyIff` | intelligence_agent/db/chroma_client.py:26-36 | After an upsert the index has no further chunks of the document if and only if it had none with higher numbers before. |
| `Lifecycle.StepKeepsFiled` | intelligence_agent/db/mongo_service.py:28-31 | Every step keeps each document either escalated or processed, never both, with a score from 3 to 5 and the matching priority, and the runner's remaining ids unprocessed. |
| `Lifecycle.ContentNeverChanges` | intelligence_agent/db/mongo_service.py:61-70 | In every run, as long as a document is stored, what was ingested is never changed, and a processed one stays processed. |
| `Lifecycle.IndexAgreement` | intelligence_agent/pipeline_runner.py:43-55 | In every run without a refused upsert, with crashes between upsert and mark and with expiries, the recorded chunks of each processed document are in the index under its ids. |
| `Lifecycle.IndexAgreementIff` | intelligence_agent/pipeline_runner.py:49-55 | In every run and for each document: from its mark until it expires its recorded chunks are in the index if and only if its own upsert was accepted or they had been there before, whatever happens to others. |
| `Lifecycle.AgreementAfterProcessing` | intelligence_agent/db/chroma_client.py:31-38 | The same at the moment of the mark, in any state that is in order. |
| `Lifecycle.RefusedUpsertIsLost` | intelligence_agent/pipeline_runner.py:51-55 | There is a run with one refused upsert after which a processed document's chunks are missing. |
| `Lifecycle.OldChunkRemains` | intelligence_agent/db/chroma_client.py:32-35 | A run in which a document that expired comes back with fewer chunks and the index keeps one that it does not record. |
| `Lifecycle.DashboardAddsUp` | backend/core/db/dashboard_queries.py:13-28 | In every run total = escalated + processed, no priority is low, and the average score lies between 3 + share and 3 + 2 * share of high priorities, so in 3 to 5 also when rounded to two places, or is 0 for an empty collection. |
| `Lifecycle.ScoreSumAny` | backend/core/db/dashboard_queries.py:18-20 | The sum behind the average counts every document's score once, in whatever order. |
| `Lifecycle.DashboardDrifts` | backend/core/db/dashboard_queries.py:13-15 | When the three counts are queried one after the other, they miss adding up by at most the number of events in between, so by nothing if there are none. |
| `Lifecycle.DashboardCanDisagree` | backend/core/db/dashboard_queries.py:13-15 | A run in which a mark between two queries counts one document twice. |
| `IntelAgent.IntelAgent.RunIngestionCycle` | intelligence_agent/ingestion/news_fetcher.py:49-106 | The loop computes the specified collection, and its count is the collection's growth. |
| `IntelAgent.IntelAgent.IngestArticle` | intelligence_agent/ingestion/news_fetcher.py:59-104 | One article is inserted exactly if it has a URL, is not noise, is valid and not yet known. |
| `IntelAgent.IntelAgent.UpsertChunks` | intelligence_agent/db/chroma_client.py:26-38 | The index is that of the specified upsert, or unchanged if it is refused. |
| `IntelAgent.IntelAgent.ProcessOne` | intelligence_agent/pipeline_runner.py:38-55 | A document whose analysis fails is left alone; any other gets its analysis and chunks recorded, is marked processed and no longer escalated, and one that expired in the meantime is indexed but not stored again. |
| `IntelAgent.OutcomeIs` | intelligence_agent/pipeline_runner.py:43-55 | A failed analysis changes nothing; a successful one records analysis and chunks, files the document as processed and not escalated, and leaves every other field alone. |
| `IntelAgent.IntelAgent.RunAnalysisPipeline` | intelligence_agent/pipeline_runner.py:24-57 | A run visits the documents of its query up to the shutdown; `processed` is by how many more documents are processed now, `failed` the rest of the visited; the visited have their outcome and all others are unchanged; for ids without a dash, each chunk of a document whose analysis succeeded and whose upsert was accepted is under its id with that document's URL as source and its title, and no other entry of the index has changed. |
| `IntelAgent.AcceptedRunAgrees` | intelligence_agent/pipeline_runner.py:33-55 | After a run in which, as ever before, no upsert was refused, every processed document's chunks are in the index. |
| `IntelAgent.StillWaiting` | intelligence_agent/pipeline_runner.py:33-55 | After a run exactly those documents wait for analysis whose analysis failed or that were not reached. |
| `IntelAgent.CompleteRunLeavesNothing` | intelligence_agent/pipeline_runner.py:33-57 | A run to the end of its query leaves nothing for the next one if and only if no analysis failed. |

## Left out

- Goroutines other than main are steps of a transition system on values, not methods on shared
  channels; aliasing and the Go memory model are not captured.
- Real time: a time-out, a timer or the shutdown grace period is an event that may happen at any
  moment once it is armed. Only the client's reconnect delays and the sender's back-off are measured.
- The scraping engine with its rate limiter and jitter, the HTTP servers, gRPC connection set-up and
  keepalive, and the generated protocol code.
- The contents of a payload (URL, domain entity, metadata, time stamp) and the mapping from seeds to
  identifiers in the gateway; work is named by the order of acceptance.
- The polling of the connection state in `GRPCClient.Connect`; whether it becomes ready in time is a parameter.
- Text that is not valid UTF-8 in the seed list.
- The vector store of the ingestion service beyond each batch's success, and its random document ids.
- `Ingestion.ResponseIsRight`: the number of failed batches is unbounded, where the code's `Int` comes round to 0 after 2^32 of them.
- Handlers of the WebSocket client that throw, and the contents of messages beyond their type.
- `BroadcastHistory.HistoryIsExactIff`: speaks of queues that stay registered; for the others see
  `PrefixIff`. One append to a queue, one removal from the list and one step of its iterator
  are taken as indivisible, as they are under the interpreter's global lock, and a result counts as
  taken when it leaves the queue, even if sending it to the browser then fails.
- When a listener that waits for an empty queue notices a result put by another thread; and that waking a
  listener whose wait is cancelled at that very moment can raise in the publishing thread after the result
  is in the queue, which ends that publish in its first loop and makes its caller publish the fallback.
- The reader and polling loops of the WebSocket endpoint, and the cancellation of a pending `get`.
- `Triage.CalculateIntelRisk`: lower-casing covers ASCII and the two other characters that can turn into a keyword's letters,
  not all of Unicode.
- `Lifecycle.DashboardAddsUp`: the counts and the average are taken in one state; for counts taken one after the other
  see `DashboardDrifts`.
- `IntelAgent.IntelAgent.RunAnalysisPipeline`: nothing else changes the collection during this run; runs with
  inserts and expiries in between are those of `Lifecycle`.
- `fetch_recent`, the two prompts and their validation, and the LangGraph and Neo4j services.
- Two runners at once over the same collection; documents inserted by scripts outside the ingestion cycle.
- Hash collisions are allowed by the ingestion lemmas; the index lemmas ask only that ids contain no dash.
