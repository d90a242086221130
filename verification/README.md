# Verification of the aggregation engine

A Dafny model of the query aggregation engine: a client asks for several SWAPI resource paths in one query,
the query manager answers from the cache or sends one token per missing path through request scheduler,
delayed queue, traffic controller and connector, and the answers come back to the cache manager and to the
query manager, which completes the query and notifies the client.

Each service file is short; what is hard is how the services compose. The project therefore has three layers.

1. **Pieces.** `RateLimiter` (the Redis sorted set, pruned on write, counted without pruning, expired as a
   whole), `WindowBound` (the check-then-log gate), `Cache` (documents under a unique path index, written by
   find-then-save) and `Planner` (the filter and the reduce over path-keyed properties).
2. **The protocol.** `Protocol` is one state machine over all services. Every handler is split at its awaits,
   messages wait in unordered inboxes, a deferred job is not delivered before it is due, and any enabled step
   of any service may come next. `Reachable` means reachable by any such run. Fields marked "history" are
   written and never read by a handler. `Frames`, `Conservation`, `References`, `Handlers`, `Presence`,
   `Completion`, `Announcements`, `Provenance` and `Invariants` prove what every step keeps; `Guarantees`,
   `Fates`, `Rows`, `Callbacks`, `Bodies`, `Completers`, `Notifications`, `Resubmission`, `Upstream`, `RoundTrip`,
   `Replies`, `Lookup`, `Traffic` and `RetryQueue` are the results about all reachable states and all runs, with
   `Origins` reading what upstream answered off the steps of a run; `Stuck`, `Rest` and `CallbackStatus` are
   those about results taken up in order; `Realization`, `Sharpness`, `Congestion` and `Drain` construct runs:
   bounds are attained, and the pipeline can always drain. `Stranding`, `Steady`, `Reverting` and `Gaps` say
   exactly which new queries can be left PENDING for good, can go back from COMPLETED, or can be COMPLETED for
   good without a result.
3. **The services as objects.** `RateLimiter`, `Cache` and `Services` hold the classes with the source's
   methods and mutable fields. `Atomic` shows that an uninterrupted handler is a run of the protocol's smaller
   steps, `Order` that runs of such handlers are in order if the cache manager is first, and each method is
   proved to do what the uninterrupted handler does.

`Witnesses` holds concrete runs for what the services do *not* promise. Each contract says which discipline its
run obeys, so that it shows that a hypothesis of another result is needed, or that a comment or document says
more than the code does.

## Hypotheses

- *Fault-free*: no lost messages, no RPC, database or HTTP errors, fresh uuids. All steps of the protocol are.
- *Truthy upstream* (`TruthyUpstream`): where a result needs it, every upstream answer so far was truthy.
- *In order* (`Order.InOrder`): the query manager begins a RECEIVE after the cache manager has finished it, and
  handles one result of a query at a time. Uninterrupted handlers with the cache manager first satisfy it
  (`Order.WholeRunsAreInOrder`). The results that need it say so; `TruthfulRevertsIff` says what
  each half is worth alone.
- *A new query*, in the results of `Sharpness`, `Stranding`, `Reverting` and `Gaps`, is one whose creation runs
  uninterrupted, in any reachable state; everything before it and after it may interleave.
- One clock for Node and Redis that never runs backwards. `REQUEST_LIMIT` is an `int`; the bounds on windows
  and on deferrals need it to be at least 1, and `Witnesses.RequeueWithoutEnd` shows why.

## Where the code and its documentation differ

The model follows the code.

- README.md:62 speaks of a sliding window. The set is pruned only when a usage is logged, so a read may count
  usages that have left the window. `ExactIffNothingStale` says exactly when the count is the window's, and
  `NeverUnderCounts` that it errs only upwards; `CountLags` is an instance.
- README.md:61 gives cache entries a life of 24 hours. The index is on `createdAt`
  (db/localdev/mongo/init-db/mongo-init.js:6), which the entity never writes
  (lib/common/modules/mongo/entities/swapi-resource.entity.ts:6-15), so no step removes a document.
- lib/common/dto/query.dto.ts:36-40 says COMPLETED means that all results are available. A stored row may have
  none for good exactly if two rows of the query miss one when it is created (`GapIffTwoRowsMissing`;
  `CompletedWithoutResult` is an instance); `CompletedMeansCachedOrComing` and `EveryRowClassified` say what does
  hold.
- lib/common/dto/query.dto.ts:36-40 says COMPLETED means that the query is finished. It can go back to PENDING
  exactly if two different paths are missing, as far as upstream may answer falsily (`RevertsIffTwoMissing`);
  with truthy answers that depends on the order in which results are taken up (`TruthfulRevertsIff`;
  `StatusReverts` and `StatusRevertsInterleaved` are instances).
- lib/common/dto/query.dto.ts:25-28 says the callback is notified once the query has finished, with the query in
  its body. It can be posted more than once exactly if two different paths are missing
  (`MoreThanOnceIffTwoMissing`), and once per missing path at most (`CallbacksBounded`, attained by
  `CallbacksAttained`). The body carries the status that was loaded before the update: in order, the first body
  always says PENDING and every later one COMPLETED (`FirstPendingThenCompleted`).
- README.md:53 says the consumer is notified when a request is eventually fulfilled. No stored query is
  safe: it can be left PENDING and silent for good exactly if one of its paths is not cached when it is created
  (`StrandsIffSomethingMissing`; `StuckPending` is an instance). In order, a last token that meets a connector
  cache hit is the only way (`PendingAtRestWasDropped`, `CanComplete`), and asking again helps
  (`ResubmissionHeals`).

## Model

| member | source | states |
|---|---|---|
| RateLimiter.RedisRepository.MultiExec | lib/common/modules/redis/redis.repository.ts:15-17 | The commands take effect in order and at one moment, on the key as it is alive at that moment. |
| RateLimiter.TrafficController.GetUsageCount | apps/traffic-controller/src/traffic-controller.service.ts:57-60 | The count read is the number of usages in the window that ended at the last log while the key lives, 0 afterwards, and never below the true window's. |
| RateLimiter.LogRefines | apps/traffic-controller/src/traffic-controller.service.ts:35-55 | Logging a usage keeps the stored set equal to the history of usages after lastLog - W; right after it the count is exact; it grows by at most one. |
| RateLimiter.CountIsLastWindow | apps/traffic-controller/src/traffic-controller.service.ts:57-60 | The count read is the number of usages in the window that ended at the last log while the key lives, and 0 afterwards. |
| RateLimiter.NeverUnderCounts | apps/traffic-controller/src/traffic-controller.service.ts:20-26 | The count is never below the true sliding window's. |
| RateLimiter.ExactIffNothingStale | apps/traffic-controller/src/traffic-controller.service.ts:48-60 | The count equals the true sliding window's if and only if the key holds no usage that has left the window. |
| RateLimiter.TrafficController.GetIsRateLimited | apps/traffic-controller/src/traffic-controller.service.ts:20-26 | Answers whether the count has reached the limit: "not limited" implies fewer than the limit in the last 24 hours, "limited" that the 24 hours up to the last usage, itself less than 24 hours ago, held the limit or more, and conversely. |
| RateLimiter.TrafficController.LogUsage | apps/traffic-controller/src/traffic-controller.service.ts:35-55 | Appends one usage, made now, to the history and keeps the refinement; the key lives for 24 hours more; afterwards the stored count is the true window's. |
| WindowBound.EveryWindowBounded | apps/traffic-controller/src/traffic-controller.service.ts:20-61 | In every run of the gate with at most K requests approved and not yet logged, no 24 hours, wherever they end, hold more than N+K-1 usages. |
| Realization.GateRunsAreReal | apps/request-scheduler/src/request-scheduler.service.ts:39-48 | Every run of the gate within K requests in flight is the projection of a run of the services within K. |
| Realization.UsageBoundAttained | apps/traffic-controller/src/traffic-controller.service.ts:20-61 | For every N >= 1 and K >= 1 some run of the services within K logs exactly N+K-1 usages within 24 hours: the bound is sharp. |
| Traffic.UsageBounded | apps/request-scheduler/src/processors/scheduled-request-processor.ts:37-46 | The same bound for every run of the whole protocol, approvals coming from scheduler and worker, over the usages read off the steps of the run. |
| Traffic.UsagesAreSteps | apps/traffic-controller/src/traffic-controller.service.ts:35-55 | The usages that the limiter works with are the FETCH messages handled in the run, one each, at the time when they were. |
| Traffic.LimiterRefinesHistory | apps/traffic-controller/src/traffic-controller.service.ts:35-60 | In every reachable state the live key is exactly the usages of the 24 hours up to the last log, or gone 24 hours after it; it never under-counts, and "not limited" bounds the last 24 hours. |
| RetryQueue.SecondDenialNeedsUsage | apps/request-scheduler/src/processors/scheduled-request-processor.ts:37-46 | A job denied again was last denied when fewer usages had been logged. |
| RetryQueue.JobsWaitADay | apps/request-scheduler/src/processors/scheduled-request-processor.ts:37-42 | In every reachable state a deferred job is held back for 24 hours after its denial, and is due within 24 hours from now. |
| RetryQueue.RequeueEnds | apps/request-scheduler/src/processors/scheduled-request-processor.ts:28-46 | A token is denied at most 1 + (usages logged after its first denial) times; under a limit of N, T tokens are deferred at most (T-N)(T-N+1)/2 times in all, and never if T < N. |
| Congestion.DeferralsAttained | apps/request-scheduler/src/processors/scheduled-request-processor.ts:28-46 | With a limit of 1, for every T some run defers T tokens exactly T(T-1)/2 times: the bound is sharp. |
| Cache.ReadRefinesLookup | apps/cache-manager/src/cache-manager.service.ts:16-25 | A read is a map lookup, and answers null exactly for an absent path. |
| Cache.SaveRefinesUpdate | apps/cache-manager/src/cache-manager.service.ts:27-45 | A save, however late after its find, is a map update, or is rejected by the unique index when the path has been inserted meanwhile; one document per path and truthy values remain. |
| Cache.SaveKeepsPresence | apps/cache-manager/src/cache-manager.service.ts:33-37 | No save makes a path absent or changes the path of a document found earlier. |
| Cache.AnswerIsCached | apps/cache-manager/src/cache-manager.service.ts:27-45 | Whatever upstream sends, but for null, false, 0 and the empty string, is in the cache under its path afterwards as it came; no other path changes. |
| Cache.ResourceRepository.FindOne | apps/cache-manager/src/cache-manager.service.ts:17-19 | Finds a document with the path, if there is one. |
| Cache.ResourceRepository.SaveOne | apps/cache-manager/src/cache-manager.service.ts:33-37 | Overwrites the document found, or inserts one; the insert is rejected if the path is taken. |
| Cache.CacheManager.ReadCache | apps/cache-manager/src/cache-manager.service.ts:16-25 | The answer is the request with the result the cache's map holds for its path, or null. |
| Cache.CacheManager.UpdateCache | apps/cache-manager/src/cache-manager.service.ts:27-45 | Uninterrupted, an update is a map update for every result but null, false, 0 and the empty string, with which it changes nothing. |
| Guarantees.CacheIsAMap | db/localdev/mongo/init-db/mongo-init.js:7 | In every reachable state: at most one document per path, truthy values, reads are lookups. |
| Guarantees.SaveIsMapUpdate | apps/cache-manager/src/cache-manager.service.ts:27-45 | In every reachable state each pending save is a map update, except a second insert, which is dropped. |
| Guarantees.CachedForGood | apps/cache-manager/src/cache-manager.service.ts:27-45 | Once cached, a path stays cached in every continuation. |
| Planner.PlanExact | apps/query-manager/src/query-manager.service.ts:195-216 | The tokens emitted are precisely those of the first row without a result of each path: every missing path is covered, no satisfied row is. |
| Planner.PlanCovers | apps/query-manager/src/query-manager.service.ts:195-205 | As many tokens as distinct missing paths, no two with the same path. |
| Planner.TargetTokens | apps/query-manager/src/query-manager.service.ts:195-213 | The filter, the record kept by first writer and its values, as a loop, yield the plan in its order. |
| Lookup.CreationLookupConsistent | apps/query-manager/src/query-manager.service.ts:131-164 | With cache writes between the reads of a creation's lookup: it asks for the request's keys, position by position, each hit was the cached value at some moment of the lookup, each miss was absent at its start. |
| Lookup.HandlerLookupConsistent | apps/query-manager/src/query-manager.service.ts:52-63 | The same for the lookup of a result handler, which asks for the rows stored when it loaded its query, in their order. |
| Conservation.StepConserves | apps/query-manager/src/query-manager.service.ts:208-216 | Every step keeps each message in exactly as many places as it was emitted: tokens along the pipeline, RECEIVEs at cache manager and query manager. |
| Invariants.ReachableIsSafe | apps/query-manager/src/query-manager.service.ts:32-87 | Everything the invariant modules state (conservation, references, handler contents, presence, completion, plans, provenance, the limiter's refinement) holds together in every reachable state. |
| Fates.ExactlyOnePlace | apps/swapi-connector/src/swapi-connector.service.ts:24-57 | Each emitted token, unchanged, is in exactly one place of the pipeline. |
| Fates.FlowsBalance | apps/request-scheduler/src/request-scheduler.service.ts:39-48 | FETCH emitted = usages logged + traffic controller's inbox = connector's inbox + connector handled; upstream calls <= usages logged + traffic controller's inbox. |
| Guarantees.TokensNameRows | apps/query-manager/src/query-manager.service.ts:49-52 | Wherever a token is, it names a stored row with its path, owned by a stored query with its query id. |
| Guarantees.NoHandlerFails | apps/query-manager/src/query-manager.service.ts:49-52 | Neither findOneOrFail of the result handler ever fails. |
| Guarantees.ResultsCame | apps/swapi-connector/src/swapi-connector.service.ts:37-55 | A truthy result in a cache document, row, creation response or callback body is, to the letter, what upstream answered in a step of the run to a token of that same path. |
| Guarantees.MessagesCame | apps/swapi-connector/src/swapi-connector.service.ts:45-56 | The RECEIVEs emitted, and those waiting, being written or handled, or done with, are exactly the answers that upstream gave in the steps of the run, each with the token it was given to, unchanged. |
| Guarantees.PollCame | apps/query-manager/src/query-manager.service.ts:89-111 | What a poll shows was answered by upstream in a step of the run for that same path. |
| Guarantees.CompletedMeansCachedOrComing | apps/query-manager/src/query-manager.service.ts:57-73 | For a query stored as COMPLETED, under any interleaving, each path is cached or in a truthy RECEIVE still pending at the cache manager. |
| Rows.EveryRowClassified | apps/query-manager/src/query-manager.service.ts:49-73 | Every stored row lacks a result if and only if its creation missed it and has not sent its tokens yet, its token is outstanding, its token was dropped on a connector cache hit, or it is a later duplicate of a missing path; and only one of these holds. |
| Callbacks.CallbacksBounded | apps/query-manager/src/query-manager.service.ts:78-86 | A query's callback fires at most once per distinct path missing when it was created. |
| Callbacks.CallbackBodies | apps/query-manager/src/query-manager.service.ts:58-63 | Each body lists every subquery of the query exactly once, all with truthy results, and goes to the query's own URL. |
| Bodies.BodyCarriesResult | apps/query-manager/src/query-manager.service.ts:46-63 | The entry of the arriving subquery carries the result of the RECEIVE that set the POST off, which is the result its row holds from then on. |
| Bodies.HandledResultIsStored | apps/query-manager/src/query-manager.service.ts:49-73 | Once a RECEIVE has been handled, the row of its token holds its result, truthy or not, for good. |
| Bodies.BodyShowsCache | apps/query-manager/src/query-manager.service.ts:52-63 | Every other entry is what the cache answered when that handler read that position, between its load and its save of the status, and the status posted is the one stored at the load. |
| Sharpness.CallbacksAttained | apps/query-manager/src/query-manager.service.ts:195-216 | From every reachable state, and whatever upstream answers to each path but a falsy value, a new query's callback can fire exactly once per distinct missing path, even in order: the bound is sharp. |
| Sharpness.MoreThanOnceIffTwoMissing | apps/query-manager/src/query-manager.service.ts:78-86 | The callback of a new query can fire more than once if and only if two different paths are missing when it is created. |
| CallbackStatus.FirstPendingThenCompleted | apps/query-manager/src/query-manager.service.ts:58-63 | In order, a body says COMPLETED if and only if a callback of the same query was posted before it. |
| Completers.CompletedBodyNamesAnother | apps/query-manager/src/query-manager.service.ts:52-72 | Under any interleaving, if a body says COMPLETED, a handler of the same query other than the one that posts it has completed the query. |
| Notifications.CompletedIsAnnounced | apps/query-manager/src/query-manager.service.ts:66-86 | Under any interleaving, a COMPLETED query with a callback URL has been announced, or a handler that will announce it is still at work. |
| Resubmission.ResubmissionHeals | apps/query-manager/src/query-manager.service.ts:32-44 | Once none of a query's tokens is outstanding up to the cache manager, all its paths are cached; a query for them started then is never stored, emits nothing and answers COMPLETED with all results, whatever else happens meanwhile. |
| Upstream.CachedMeansNoMoreTraffic | apps/swapi-connector/src/swapi-connector.service.ts:31-56 | After a path is cached no connector handler that begins later calls upstream for it, and no creation that begins later makes a token for it. |
| Upstream.CallsBoundedByMisses | apps/swapi-connector/src/swapi-connector.service.ts:31-56 | In every continuation after a path was cached, the upstream calls for it in all are at most the connector handlers that had missed the cache for it by then. |
| Upstream.OneCallInTurn | apps/swapi-connector/src/swapi-connector.service.ts:31-56 | If each save of a path precedes the connector's next look at it, at most one call is ever made for it. |
| Upstream.ExactlyOneCallInTurn | apps/swapi-connector/src/swapi-connector.service.ts:45-56 | And exactly one, as soon as the connector has looked at a token of the path. |
| RoundTrip.PollReturnsCreation | apps/query-manager/src/query-manager.service.ts:182-233 | A stored creation answers with the request's paths position by position, distinct ids and PENDING; polling its id before any other step returns the same answer. |
| RoundTrip.PollShowsWhatIsStored | apps/query-manager/src/query-manager.service.ts:89-124 | In every reachable state a poll has the status and the URL of the stored query and, in order, the id, path and result of each of its rows; any other id answers NOT_FOUND. |
| RoundTrip.PollIsAsRequested | apps/query-manager/src/query-manager.service.ts:182-233 | In every continuation after a request: if it is stored, a poll lists the requested paths in their order and the requested URL, to which alone its callbacks are posted. |
| Replies.AnswerShowsCache | apps/query-manager/src/query-manager.service.ts:126-164 | Each answer to a creation is one to a request of the run: its keys position by position, its URL, and for each what the cache answered when the request read that position. |
| RoundTrip.CachedCreationStoresNothing | apps/query-manager/src/query-manager.service.ts:149-164 | A query all of whose paths are cached when it arrives is never stored and emits nothing, whatever else happens meanwhile, and answers COMPLETED with every result. |
| RoundTrip.AnswersClassified | apps/query-manager/src/query-manager.service.ts:154-162 | Every answer a creation ever gave is of exactly one kind: blank id, COMPLETED and complete; or the id, subqueries and callback URL of a stored query, PENDING, with a result missing. |
| RoundTrip.BlankIdIsNotFound | apps/query-manager/src/query-manager.service.ts:154-158 | The blank id of an answer from the cache is never that of a stored query: polling it answers NOT_FOUND in every reachable state. |
| Stuck.PendingAtRestWasDropped | apps/query-manager/src/query-manager.service.ts:46-73 | In order, a stored query at rest that is still PENDING had its last token retired by the connector's cache-hit branch. |
| Rest.RestIsFinal | apps/query-manager/src/query-manager.service.ts:46-73 | In every continuation, of whatever order, a query at rest stays at rest, and its status, its rows and the answer to a poll never change. |
| Rest.PendingAtRestIsStuck | apps/swapi-connector/src/swapi-connector.service.ts:45-56 | In order, a query PENDING at rest was last retired by a cache hit, and is PENDING in every continuation. |
| Stuck.CompletesUnlessDropped | apps/swapi-connector/src/swapi-connector.service.ts:37-56 | In order, a query none of whose tokens met a connector cache hit is stored COMPLETED, and polls so under its own id, once all its results have been handled. |
| Stuck.CompletedNeverReverts | apps/query-manager/src/query-manager.service.ts:66-72 | In order, a COMPLETED query stays COMPLETED. |
| Stranding.StrandsIffSomethingMissing | apps/swapi-connector/src/swapi-connector.service.ts:45-56 | Whatever else is going on, a new query can in order be left stored, at rest, PENDING for good and never posted if and only if one of its paths is not cached when it is created. |
| Stranding.CanStrand | apps/query-manager/src/query-manager.service.ts:149-164 | For a query that is stored, a run to that end in which no upstream answer is falsy. |
| Reverting.RevertsIffTwoMissing | apps/query-manager/src/query-manager.service.ts:57-72 | If upstream may answer falsily, under every discipline: a new query can go from COMPLETED back to PENDING if and only if two different paths are missing when it is created. |
| Reverting.TruthfulRevertsIff | apps/query-manager/src/query-manager.service.ts:46-72 | With truthy answers: handlers of one query interleaved, if and only if two different paths are missing; one at a time, if and only if also one of them is named by a single row; in order, never. |
| Gaps.GapIffTwoRowsMissing | apps/query-manager/src/query-manager.service.ts:195-216 | Under every discipline: a new query can come to rest COMPLETED with a row that has no result, then or later, if and only if two of its rows miss one when it is created. |
| Gaps.FinishedPollShowsResults | apps/query-manager/src/query-manager.service.ts:89-111 | In order, such a query polls as COMPLETED with every result, except the later rows of a path that was missing. |
| Drain.CanDrain | apps/request-scheduler/src/processors/scheduled-request-processor.ts:22-50 | With N >= 1, from every reachable state, and whatever upstream answers to each path, some in-order continuation answers every creation and leaves every token dropped or handled and every query at rest. |
| Drain.CanComplete | apps/query-manager/src/query-manager.service.ts:66-72 | With N >= 1, and whatever upstream answers to each path but a falsy value, every in-order run can go on until each query is COMPLETED, or had its last token dropped on a cache hit. |
| Order.WholeRunsAreInOrder | apps/query-manager/src/query-manager.service.ts:46-87 | Runs of uninterrupted handlers, the cache manager first, are runs of the protocol that are in order. |
| Atomic.CreateIsRun | apps/query-manager/src/query-manager.service.ts:32-44 | A creation run without interruption is a run of the protocol, and what it comes to. |
| Atomic.HandleIsRun | apps/query-manager/src/query-manager.service.ts:46-87 | The same for the result handler. |
| Atomic.ScheduleIsRun | apps/request-scheduler/src/request-scheduler.service.ts:20-49 | The same for the scheduler's handler. |
| Atomic.ProcessIsRun | apps/request-scheduler/src/processors/scheduled-request-processor.ts:22-50 | The same for the worker's handler of a due job. |
| Atomic.ConnectIsRun | apps/swapi-connector/src/swapi-connector.service.ts:24-57 | The same for the connector's handler. |
| Atomic.WriteIsRun | apps/cache-manager/src/cache-manager.service.ts:27-45 | The same for a cache update. |
| Services.RequestScheduler.ScheduleRequest | apps/request-scheduler/src/request-scheduler.service.ts:20-49 | Defers the request until 24 hours later or emits FETCH, as the protocol's handler does; a FETCH is emitted only while the last 24 hours have room. |
| Services.RequestScheduler.Process | apps/request-scheduler/src/processors/scheduled-request-processor.ts:22-50 | The same for a due job. |
| Services.SwapiConnector.FetchData | apps/swapi-connector/src/swapi-connector.service.ts:24-57 | Calls upstream and emits a RECEIVE with its answer, unchanged, exactly when the path is not in the cache's map; on a hit emits nothing. |
| Services.QueryManager.FetchResultsFromCache | apps/query-manager/src/query-manager.service.ts:126-145 | One cache answer per subquery, in the order of the query. |
| Services.QueryManager.ProcessNewQuery | apps/query-manager/src/query-manager.service.ts:32-44 | Does what the protocol's creation does: answers each key with what the cache's map holds; COMPLETED, storing nothing, exactly when it holds every path; otherwise stores a PENDING query with its rows and emits its plan. |
| Services.QueryManager.Refresh | apps/query-manager/src/query-manager.service.ts:60-60 | The arriving result replaces the cache's answer at its own id, and nothing else. |
| Services.QueryManager.HandleSubqueryResult | apps/query-manager/src/query-manager.service.ts:46-87 | Does what the protocol's handler does: stores the result, makes the query COMPLETED exactly if every other path is cached and the result truthy, and then posts the result in its own place and the cache's in all others; if a row is missing it fails and changes nothing. |
| Services.QueryManager.FetchQueryResults | apps/query-manager/src/query-manager.service.ts:89-124 | Lists the stored rows of the query in order under its status and URL, or answers NOT_FOUND. |
| Witnesses.CallbackFiresTwice | apps/query-manager/src/query-manager.service.ts:58-86 | An in-order run in which the callback is posted twice, the first time with status PENDING. |
| Witnesses.StatusReverts | apps/query-manager/src/query-manager.service.ts:66-72 | A run with one result of a query at a time, but not the cache manager first, in which COMPLETED goes back to PENDING. |
| Witnesses.StatusRevertsInterleaved | apps/query-manager/src/query-manager.service.ts:57-72 | A run with the cache manager first throughout, but handlers of one query interleaved, in which it does too. |
| Witnesses.CompletedWithoutResult | apps/query-manager/src/query-manager.service.ts:195-205 | An in-order run to a COMPLETED query at rest with a stored row that has no result and, in every continuation, gets none: the second row of a path named twice. |
| Witnesses.StuckPending | apps/swapi-connector/src/swapi-connector.service.ts:45-56 | An in-order run to a query at rest that stays PENDING in every continuation although its path is cached. |
| Witnesses.CountLags | apps/traffic-controller/src/traffic-controller.service.ts:48-60 | A limiter that counts two usages although the sliding window holds one. |
| Witnesses.RequeueWithoutEnd | apps/request-scheduler/src/processors/scheduled-request-processor.ts:37-42 | With a limit of 0 or less, one token is deferred any number of times. |

## Left out

- RateLimiter.TrafficController.LogUsage: reads the clock and runs MULTI at one moment; the latency between the two (`exec` is not awaited, redis.repository.ts:16) and clock skew between Node and Redis are not modelled.
- Services.RequestScheduler.Process: the swallowed exception (scheduled-request-processor.ts:47-49), which loses the job, is not modelled.
- Services.QueryManager.FetchQueryResults: rows come in creation order; Postgres promises no order.
- Planner.TargetTokens: path names that are inherited properties of an object, and integer-like names, which `Object.values` lists first, are not modelled.
- Services.SwapiConnector.FetchData: the base URL and the HTTP exchange are a parameter, the answer.
- Lost messages, RPC, database and HTTP errors, retries and redelivery, uuid collisions, several instances of a service.
- Cache expiry: no field the code writes drives it, see above.
- What is inside a JSON value, which travels as a whole; a document's identity is its position in the collection, since nothing removes one.
- The unhandled rejection that a second insert of a path raises in the cache manager; its handler counts as finished.
- How TypeORM turns a saved relation into statements; a save of rows is one step.
- What the POST to a callback URL meets with; it is recorded when it is sent.
- The answer and the SCHEDULE_FETCH messages of a creation leave in one step, as no await separates them.
- API gateway, DTO validation, logging, NestJS wiring, the unused Redis operations, mocks.
