# Stock quote distribution core, modelled in Dafny

This project models the in-memory core of a real-time stock-quote service.

- A batch fetcher pulls quotes for a watch list from an upstream API. It retries with exponential backoff and stops behind a circuit breaker.
- A cache-integration layer writes the fetched quotes into a cache, counts hits and misses, and hands updates to the socket layer.
- A WebSocket manager keeps a two-way subscription registry: clients to symbols, and symbols to clients. It broadcasts updates and queues messages for clients that are away.
- An optimised socket service negotiates per-client capabilities and chooses between delta and full updates. It batches updates per client and can compress them.
- A compression service shortens field names, rounds prices and keeps a per-symbol baseline for delta updates.
- An error-handling service runs a per-service state machine (operational, degraded, failed, recovering) with fallback strategies.
- A monitoring service holds a generic circuit breaker, a bounded metrics store, health checks and alerts.
- The `StockQuote` record has a dictionary, JSON and Redis form.

There is one module per source file, plus two shared modules:

- `Values` models Python values: a `Dict` keeps insertion order (`keys`) beside its contents (`vals`). It also defines Python's cross-type `==` on numbers, truthiness, and `round` (half-even).
- `Sockets` models what the Socket.IO server is asked to send, as an outbox of `Emission(event, room, message)`.

Code that changes state in place is a class with `modifies` clauses:

- `CompressionService`, `CircuitBreaker`, `MetricsCollector`, `MonitoringService`;
- `BatchDataFetcher`, `ErrorHandlingService`, `WebSocketManager`, `OptimizedWebSocketService`;
- `CacheStore`, `CacheIntegrationService`.

Pure code is functions and lemmas.

The source's loops are `while` loops. Each is proved against a specification function:

- the retry loop and the per-symbol batch loop (`FetchWithRetries`, `FetchAll`);
- the health-check loop (`RunChecksInOrder`);
- the broadcast, clean-up and unsubscribe loops (`DeliverUpdate`, `DropClients`, `CleanupIndexes`, `UnsubscribeIndexes`);
- the grouping loop of the bulk broadcast (`GroupByClient`);
- the per-update and per-client loops of the optimised service;
- the cache-warming loops (`RefreshEach`, `WarmCache`).

Outside influences are parameters:

- **Clock:** the time is `now: real` (seconds), and ISO text that is only copied into messages is `nowIso`.
- **Upstream API:** an oracle `fetch(position, attempt)` that may return no quote. The random jitter is `jitter(position, attempt)`, and the sleeps are returned as `waits`.
- **Socket:** an emit that raises is a room in the `failing` set. Failure is decided per room for a whole call, so within one call every emit to a room fails or none does.
- **Redis:** the cache is the `CacheStore.data` map, and a write that fails is a symbol in `failing`.
- **Health checks:** each check's outcome is an oracle `outcomes(name)`.
- **Cache batch fetch:** in the cache layer, the fetcher's batch result is a function from the requested symbols to the quotes returned.
- **Encoding:** MessagePack and gzip are an invertible `Blob` that carries the optimised dictionary. Byte sizes are supplied by the caller.

Behaviour of the source that is easy to miss, and that the model keeps:

- **Breaker-open path.** When the fetcher's breaker is open, every requested symbol fails with the breaker message, before truncation to the batch size. The counters are not touched.
- **Duplicate symbols.** A batch that names a symbol twice can report it as both successful and failed (`DuplicateInBothMaps`).
- **Stats read the breaker.** `get_performance_stats` consults the breaker, so it can arm or reset it.
- **Reconnecting clients.** Reconnecting a client resets its subscription set without touching the symbol index. This keeps the registry consistent only for a client with no subscriptions (`ConnectKeepsRegistry`, `ReconnectBreaksRegistry`).
- **Shared delta baseline.** The delta baseline is per symbol and shared by all clients.
- **Lossy compression.** Compression is invertible only when no key collides with an alias, no value is `None`, and no rounded float changes (`Restorable`, `ExactlyEncodable`).

Some members are definitions, read by the contracts and lemmas listed below rather than stated on their own:

- `Values.Get` and `Values.GetOr` are Python's `dict.get`, and `Sockets.Emit` appends one emission unless the room fails.
- `BatchFetcher.Refreshed` and `BatchFetcher.Missed` are the per-symbol bookkeeping of a fetch, and `BatchFetcher.BreakerCheckCases` unfolds the fetcher's breaker check. `BreakerOpensForTimeout`, `RecordAllDistinct` and `BatchSymbolOutcome` state what they amount to.
- `WebSockets.Members`, `AddSubscriber`, `Detach`, `WithoutClients`, `Restrict` and `EnqueueAll` are the registry and queue updates. `SubscribeKeepsRegistry`, `CleanupKeepsRegistry` and `EnqueueAllBounded` state their properties.
- `CacheIntegration.Written` is the map of successful cache writes, and `WrittenAll` states the cache the loop leaves.
- In the optimised socket service:
  - `ServedMessages`, `BulkDict`, `BulkDicts`, `Fed`, `BulkMessages` and `BulkBatch` say what one serving step sends and leaves pending.
  - `Chunk` and `SentWithFlush` say how dicts fill a batch.
  - `Step`, `Turn`, `PushAll` and `ServedOf` describe serving subscribers in turn.
  - `ToRoom`, `Extends`, `Pushed`, `BulkSent`, `ReachedSoFar`, `GotFrom`, `BulkServed`, `Progress`, `PushProgress` and `FlushedSoFar` describe what a room received and the invariants of the loops.

## Model

| member | source | states |
|---|---|---|
| Values.Put | models/stock_quote.py:25-37 | assigning a key keeps the dict well formed: an existing key keeps its position, a new key goes last |
| Values.PyEqReflexive | services/compression_service.py:155 | Python `==` on values is reflexive, so an unchanged field is never reported as a change |
| Values.RoundScaled | services/compression_service.py:280-282 | round-half-even lands within one half of the scaled value |
| Values.Trunc | services/monitoring_service.py:471 | `int()` truncates toward zero on both signs |
| Sockets.OncePerRoomCount | services/websocket_manager.py:250-254 | a send that reaches each room once has as many emissions as rooms |
| Sockets.EmitToRooms | services/websocket_manager.py:250-254 | the loop over rooms extends the outbox, reaching each non-failing room exactly once with the same event and message |
| StockQuotes.ParseDigitsOfDigits | models/stock_quote.py:32 | zero-padded decimal text of a number parses back to that number |
| StockQuotes.IsoFormat | models/stock_quote.py:32 | `isoformat()` gives 19 characters, or 26 when there are microseconds |
| StockQuotes.TripleRoundTrip | models/stock_quote.py:43 | a date or time triple printed with separators parses back to the same triple |
| StockQuotes.ParseIso | models/stock_quote.py:43 | `fromisoformat` only yields valid calendar dates and clock times |
| StockQuotes.IsoRoundTrip | models/stock_quote.py:32-43 | `fromisoformat(isoformat(t)) == t` for every valid timestamp |
| StockQuotes.QuoteFieldsDistinct | models/stock_quote.py:25-37 | the eleven dictionary keys are pairwise distinct |
| StockQuotes.ToDict | models/stock_quote.py:23-37 | the dictionary has exactly the eleven fields, in declaration order |
| StockQuotes.FromDict | models/stock_quote.py:40-57 | a missing timestamp is a `KeyError` and unparsable timestamp text an invalid-format error; success needs all seven mandatory keys and gives a valid quote; each of the four optional prices is `None` exactly when its key is absent or holds `None` |
| StockQuotes.FromDictMandatory | models/stock_quote.py:43-52 | a parsed quote's timestamp is the parse of the dict's timestamp text, and its symbol, company name, volume and three prices are the dict's values |
| StockQuotes.FromDictOptionals | models/stock_quote.py:53-56 | each optional price of a parsed quote is what `get` reads from the dict, `None` included |
| StockQuotes.MandatoryOfEntries | models/stock_quote.py:43-52 | each mandatory field is read back as the value the quote stored |
| StockQuotes.MandatoryOfToDict | models/stock_quote.py:43-52 | `to_dict` followed by reading the mandatory fields recovers the quote's fields |
| StockQuotes.OptionalsOfToDict | models/stock_quote.py:53-56 | `to_dict` followed by `get` recovers each optional price, `None` included |
| StockQuotes.FromDictToDict | models/stock_quote.py:23-57 | `from_dict(to_dict(q)) == q` |
| StockQuotes.ToJson | models/stock_quote.py:59-61 | the JSON document carries the eleven fields in order |
| StockQuotes.RedisRoundTrip | models/stock_quote.py:59-76 | `from_redis_value(to_redis_value(q)) == q` and `from_json(to_json(q)) == q` (`ToRedisValue` and `FromRedisValue` are `ToJson` and `FromJson`) |
| Codec.MappingsAreInverse | services/compression_service.py:257-307 | the alias table covers exactly the quote fields, and the reverse table is its inverse |
| Codec.OptimizeValue | services/compression_service.py:276-286 | `None` is dropped; non-floats pass through; floats outside the rounded fields are kept exactly |
| Codec.RemapKeys | services/compression_service.py:271-288 | the remapped dict's keys are the renamed keys of the kept entries |
| Codec.RemapAt | services/compression_service.py:271-288 | a kept entry whose new key is not reused by another entry lands under its new key with its new value |
| Codec.RemapShape | services/compression_service.py:309-315 | when every entry is kept and the renaming is injective, the key order is kept, renamed |
| Codec.OptimizeKeys | services/compression_service.py:251-288 | `_optimize_data_structure` (`OptimizeDataStructure`) keeps exactly the non-`None` keys, under their short names |
| Codec.RestoreKeys | services/compression_service.py:290-315 | `_restore_data_structure` (`RestoreDataStructure`) renames every key to its long name and drops none |
| Codec.OptimizePassThrough | services/compression_service.py:274 | a key with no alias keeps its value and its name |
| Codec.RestorePassThrough | services/compression_service.py:312 | a key with no long form keeps its value and its name |
| Codec.LongOfShort | services/compression_service.py:274-312 | renaming to short and back is the identity on keys that are not themselves aliases |
| Codec.RemapRenames | services/compression_service.py:271-288 | a value-preserving injective remap puts each value at its renamed position |
| Codec.RemapRoundTrip | services/compression_service.py:251-315 | renaming and renaming back restores the dict, order included |
| Codec.DictExtensional | services/compression_service.py:309-315 | two dicts with the same keys in the same order and the same values are equal |
| Codec.RestoreOptimize | services/compression_service.py:251-315 | restore after optimize is the identity on every restorable dict |
| Codec.QuoteFieldsAreNotAliases | services/compression_service.py:257-307 | no quote field name is itself a short alias |
| Codec.QuoteEntriesStable | services/compression_service.py:276-286 | every field of an exactly-encodable quote survives optimisation unchanged |
| Codec.QuoteDictRestorable | services/compression_service.py:41-47 | an exactly-encodable quote's dictionary survives optimize then restore |
| Codec.UpdateDict | services/compression_service.py:138-143 | every update message starts with symbol, type, timestamp and carries the update's symbol and timestamp |
| Codec.DeltaReconstructs | services/compression_service.py:145-156 | applying the changes to the previous dict gives values equal to the new ones for every non-timestamp field |
| Codec.NoChangesAgainstItself | services/compression_service.py:152-156 | a dict compared with itself has no changes |
| Codec.ChangesIn | services/compression_service.py:145-156 | the changes collected from the first n keys are exactly those keys, other than the timestamp, whose value differs by Python `==` from the baseline's (a missing key reads as `None`), each with its new value |
| Codec.DeltaUpdate | services/compression_service.py:137-173 | the update names the symbol and the data's timestamp (or the current time); it is a heartbeat exactly when no field changed, otherwise a delta whose changes are exactly the changed fields |
| Codec.CollectChanges | services/compression_service.py:145-156 | the comparison loop collects the changes of every key, as `ChangesIn` defines them |
| Codec.Compressed | services/compression_service.py:28-83 | packing succeeds exactly when the optimised dict fits MessagePack; its content has the optimised keys; otherwise the result is the JSON fallback |
| Codec.DecompressStockData | services/compression_service.py:85-115 | JSON bytes decode to themselves; a gzip flag that does not match the data fails |
| Codec.CompressRoundTrip | services/compression_service.py:28-115 | `decompress_stock_data(compress_stock_data(d, g), g) == d` for every restorable dict |
| Codec.BatchEnvelope | services/compression_service.py:219-224 | the batch envelope's count is the number of updates |
| Codec.DecompressBatchUpdates | services/compression_service.py:233-249 | batch decompression fails exactly when gzip decompression fails |
| Codec.EnvelopeRestorable | services/compression_service.py:219-224 | the batch envelope is always restorable |
| Codec.BatchRoundTrip | services/compression_service.py:207-249 | decompressing a compressed batch gives back the update list |
| Codec.CompressionService.constructor | services/compression_service.py:18-26 | the counters start at zero and the baseline cache is empty |
| Codec.Packing | services/compression_service.py:59-66 | after a compression, `total_compressions` grows by one exactly for a MessagePack result, which also adds both sizes; a JSON fallback changes no counter; the update counts are kept |
| Codec.Encoding | services/compression_service.py:117-205 | a delta adds one to `delta_updates`, a full update one to `full_updates`, a heartbeat nothing; the compression totals are kept |
| Codec.CompressionService.CompressStockData | services/compression_service.py:28-83 | the blob is the compressed dict; the counters and sizes grow only on the MessagePack path (`Packing`); the delta state is kept |
| Codec.CompressionService.CompressBatchUpdates | services/compression_service.py:207-231 | the blob is the compressed, gzipped batch envelope; as in `compress_stock_data`, `total_compressions` and the two size totals grow exactly on the MessagePack path (`Packing`), and the delta state and update counts are kept |
| Codec.CompressionService.CreateDeltaUpdate | services/compression_service.py:117-173 | the result is `DeltaUpdate` against the symbol's baseline: a heartbeat exactly when no field changed, otherwise a delta holding exactly the changed fields; the baseline becomes the new dict; `delta_updates` counts deltas only and the other counters are kept (`Encoding`) |
| Codec.CompressionService.CreateFullUpdate | services/compression_service.py:175-205 | a full update with the data; the baseline becomes the data; `full_updates` grows by one and the other counters are kept (`Encoding`) |
| Codec.CompressionService.GetCompressionStats | services/compression_service.py:317-337 | the counters are copied; the averages are zero before any compression, and afterwards the ratio is below 100 and the mean sizes at least the minimum sizes |
| Codec.CompressionService.ResetStats | services/compression_service.py:339-348 | all five counters are zero; the baseline cache is kept |
| Codec.CompressionService.ClearCache | services/compression_service.py:350-353 | the baseline cache is empty; the counters are kept |
| Codec.AverageAtLeast | services/compression_service.py:330-331 | a mean of counts that are each at least `least` is at least `least` |
| Codec.PositiveShare | services/compression_service.py:327-329 | a non-empty compressed size gives a compression ratio below 100% |
| Codec.FullThenSameDeltaIsHeartbeat | services/compression_service.py:159-171 | a delta against the data just cached is a heartbeat |
| ErrorHandling.Registered | services/error_handling_service.py:74-89 | a newly registered service is operational with no errors and its chosen strategy |
| ErrorHandling.AfterSuccess | services/error_handling_service.py:105-135 | a success makes the service operational, clears errors and fallback, and stamps the success time |
| ErrorHandling.AfterError | services/error_handling_service.py:137-170 | an error bumps the count; critical severity or the fifth error fails the service; from the second error it is degraded; fallback goes on in both cases |
| ErrorHandling.StartRecovery | services/error_handling_service.py:257-285 | recovery moves a failed service to recovering with a zero error count |
| ErrorHandling.ErrorsCount | services/error_handling_service.py:137-170 | `n` errors add exactly `n` to the count and keep the status consistent |
| ErrorHandling.ErrorsEscalate | services/error_handling_service.py:156-166 | from a clean state, two errors degrade the service with fallback on, and five fail it |
| ErrorHandling.AfterLastColon | services/error_handling_service.py:230 | `split(':')[-1]`: the result is a suffix of the key with no colon, and when it is shorter than the key the character just before it is a colon; a key without a colon is returned whole |
| ErrorHandling.MockDataFor | services/error_handling_service.py:216-246 | mock data exists exactly for stock-quote keys of the BSE API and for the websocket service; the quote placeholder names the symbol after the key's last colon (or `MOCK`) and is marked `mock` |
| ErrorHandling.FallbackFor | services/error_handling_service.py:172-202 | unknown services get nothing; cache-only reads the stored fallback; last-known-good serves only data younger than an hour; fail-fast, retry and no strategy give nothing |
| ErrorHandling.CacheOnlyReadsStored | services/error_handling_service.py:172-214 | under cache-only, data set with `set_fallback_data` is what `get_fallback_data` returns |
| ErrorHandling.LastKnownGoodAge | services/error_handling_service.py:192-197 | last-known-good data is served while younger than an hour, and not after |
| ErrorHandling.DegradedAmong | services/error_handling_service.py:335-343 | exactly the degraded or failed services are listed |
| ErrorHandling.ErrorHandlingService.constructor | services/error_handling_service.py:54-72 | every table starts empty |
| ErrorHandling.ErrorHandlingService.RegisterService | services/error_handling_service.py:74-89 | the service's status is reset to a fresh registration with the given strategy |
| ErrorHandling.ErrorHandlingService.AddRecoveryCallback | services/error_handling_service.py:91-103 | the callback is appended to the service's list |
| ErrorHandling.ErrorHandlingService.RecordSuccess | services/error_handling_service.py:105-135 | an unknown service is registered first; the status becomes operational; non-`None` data becomes last-known-good; callbacks fire only when leaving failed, degraded or recovering |
| ErrorHandling.ErrorHandlingService.RecordError | services/error_handling_service.py:137-170 | an unknown service is registered first; the status escalates as `AfterError` says; the new state is returned |
| ErrorHandling.ErrorHandlingService.GetFallbackData | services/error_handling_service.py:172-202 | the fallback the service's strategy gives, nothing for an unknown service |
| ErrorHandling.ErrorHandlingService.SetFallbackData | services/error_handling_service.py:204-214 | the data is stored under `service:key` and nothing else changes |
| ErrorHandling.ErrorHandlingService.AttemptRecovery | services/error_handling_service.py:257-285 | recovery starts exactly for a failed service whose last failure is at least five minutes old; otherwise nothing changes |
| ErrorHandling.ErrorHandlingService.IsServiceHealthy | services/error_handling_service.py:320-333 | healthy exactly when registered and operational |
| ErrorHandling.ErrorHandlingService.GetDegradedServices | services/error_handling_service.py:335-343 | exactly the registered services that are degraded or failed |
| ErrorHandling.ErrorHandlingService.WithErrorHandling | services/error_handling_service.py:346-377 | a result is returned and recorded as a success: the status is `AfterSuccess` of the old record (a fresh one for an unknown service), a non-`None` result becomes the last known good data, and a service that was failed, degraded or recovering fires its callbacks; an error is recorded with `AfterError`, and the fallback is returned exactly when the service is now degraded or failed and a fallback exists, otherwise the error is raised again |
| ErrorHandling.GracefulDegradationManager.constructor | services/error_handling_service.py:385-401 | the manager consults the given error handler |
| ErrorHandling.GracefulDegradationManager.HandleSystemDegradation | services/error_handling_service.py:403-481 | exactly the degraded or failed services that have a plan get an action, and that action is their plan |
| Monitoring.OpenRejects | services/monitoring_service.py:107-112 | an open breaker inside its recovery timeout rejects the call and changes nothing |
| Monitoring.OpenTriesHalfOpen | services/monitoring_service.py:107-136 | an open breaker past its timeout lets the call through; success closes it; an unexpected failure leaves it half-open |
| Monitoring.CallBookkeeping | services/monitoring_service.py:114-145 | success zeroes the failure count and closes; an expected failure counts and stamps the time and opens exactly at the threshold; other exceptions change no counters |
| Monitoring.CallPreservesInvariant | services/monitoring_service.py:92-145 | every call keeps the breaker invariant: closed exactly when below the threshold, and an open breaker has a failure time |
| Monitoring.OpenStaysOpen | services/monitoring_service.py:138-145 | further expected failures keep an open breaker open |
| Monitoring.ConsecutiveFailuresOpen | services/monitoring_service.py:138-145 | enough consecutive expected failures open a closed breaker |
| Monitoring.CircuitBreaker.constructor | services/monitoring_service.py:72-90 | a new breaker is closed with no failures |
| Monitoring.CircuitBreaker.Call | services/monitoring_service.py:92-121 | the new breaker state and the call's result are one step of `CallStep` |
| Monitoring.CircuitBreaker.GetState | services/monitoring_service.py:147-155 | the state name is "closed" or "open" exactly in those states, with the counts copied |
| Monitoring.BoundedAppend | services/monitoring_service.py:171 | a bounded deque append keeps at most `maxlen` points, dropping the oldest |
| Monitoring.PointsSince | services/monitoring_service.py:250-251 | exactly the points at or after the cutoff are kept |
| Monitoring.WindowPoints | services/monitoring_service.py:246-251 | with no window, or a zero one, every point; otherwise exactly the points at or after the cutoff |
| Monitoring.MinOf | services/monitoring_service.py:260 | the minimum is one of the values and no larger than any |
| Monitoring.MaxOf | services/monitoring_service.py:261 | the maximum is one of the values and no smaller than any |
| Monitoring.SumBounds | services/monitoring_service.py:262 | a sum of bounded values is bounded by the count times the bounds |
| Monitoring.MeanBetween | services/monitoring_service.py:260-262 | the average lies between the minimum and the maximum |
| Monitoring.MeanWithin | services/monitoring_service.py:262 | the average of values within bounds is within the same bounds |
| Monitoring.MetricsCollector.constructor | services/monitoring_service.py:163-175 | no metrics, counters or gauges |
| Monitoring.MetricsCollector.RecordCounter | services/monitoring_service.py:177-194 | the counter grows by the value and its running total is appended to the bounded history |
| Monitoring.MetricsCollector.RecordGauge | services/monitoring_service.py:196-213 | the gauge is set and the value appended to the bounded history |
| Monitoring.MetricsCollector.RecordTiming | services/monitoring_service.py:215-230 | the duration is appended to the bounded history |
| Monitoring.MetricsCollector.GetMetricSummary | services/monitoring_service.py:232-266 | an unknown metric or an empty window is an error, and a non-empty window always gives a summary: its count is the window's size, min and max are the least and greatest values in the window, the mean lies between them, and latest and the two timestamps come from the window's last and first points |
| Monitoring.MetricsCollector.GetAllMetrics | services/monitoring_service.py:268-274 | counters and gauges copied; each metric's point count is its history length, at most the bound |
| Monitoring.Worse | services/monitoring_service.py:379-382 | the overall status only ever gets worse |
| Monitoring.ActiveAlerts | services/monitoring_service.py:514-527 | every listed entry is an unresolved alert's summary, and every unresolved alert is listed |
| Monitoring.ActiveAlertsConcat | services/monitoring_service.py:514-527 | listing two runs of alerts one after the other is listing their concatenation, so the order of the alerts is kept |
| Monitoring.ActiveAlertsSingle | services/monitoring_service.py:514-527 | one alert is listed exactly when it is unresolved |
| Monitoring.ResolveShrinksActive | services/monitoring_service.py:505-510 | resolving an active alert removes exactly one active alert |
| Monitoring.OverallClassification | services/monitoring_service.py:371-399 | overall is healthy exactly when every check passed, and unhealthy exactly when one crashed or reached its third consecutive failure |
| Monitoring.RunOne | services/monitoring_service.py:359-407 | one check's run keeps it in the table |
| Monitoring.RunFirst | services/monitoring_service.py:359-407 | running a prefix of the checks keeps every listed check in the table |
| Monitoring.RunChecksInOrder | services/monitoring_service.py:359-410 | the loop over the checks yields the run of all of them in order |
| Monitoring.RunFirstKeys | services/monitoring_service.py:359-407 | running checks neither adds nor removes checks, and reports only on known checks |
| Monitoring.RunFirstUntouched | services/monitoring_service.py:359-407 | checks not yet reached are unchanged |
| Monitoring.RunFirstRan | services/monitoring_service.py:359-407 | each check already reached is updated once and reported with its own status |
| Monitoring.RunFirstOverall | services/monitoring_service.py:357-399 | the loop's running overall status is the worst status so far |
| Monitoring.RunAllChecks | services/monitoring_service.py:349-415 | after the loop every check is updated once, reported once, and overall is the worst status |
| Monitoring.MonitoringService.constructor | services/monitoring_service.py:282-304 | no checks and no alerts |
| Monitoring.MonitoringService.AddHealthCheck | services/monitoring_service.py:306-324 | the check is (re)registered with no history |
| Monitoring.MonitoringService.RunHealthChecks | services/monitoring_service.py:349-415 | every check is updated from its outcome; each report carries the check's status; overall is the classification above |
| Monitoring.MonitoringService.CreateAlert | services/monitoring_service.py:459-493 | an unresolved alert with id `component_<seconds>` is appended and the id returned |
| Monitoring.MonitoringService.ResolveAlert | services/monitoring_service.py:495-512 | the first unresolved alert with the id is resolved, if there is one; the result says whether there was |
| Monitoring.MonitoringService.GetActiveAlerts | services/monitoring_service.py:514-527 | the listing of the stored alerts, which `ActiveAlerts`, `ActiveAlertsConcat` and `ActiveAlertsSingle` show to be exactly the unresolved ones, in order |
| BatchFetcher.Without | services/batch_data_fetcher.py:117-133 | removing a symbol from the watch order drops exactly that symbol and keeps the rest distinct |
| BatchFetcher.DueAmong | services/batch_data_fetcher.py:366-391 | exactly the watched symbols never updated or past their priority's interval |
| BatchFetcher.BreakerOpensForTimeout | services/batch_data_fetcher.py:165-181 | once armed, the breaker stays open for five minutes and then resets |
| BatchFetcher.RetryDelay | services/batch_data_fetcher.py:183-201 | the delay never exceeds the cap and lies within 25% of the backoff |
| BatchFetcher.JitterBounds | services/batch_data_fetcher.py:196-198 | jitter moves the delay by at most 25% either way |
| BatchFetcher.BackoffDoubles | services/batch_data_fetcher.py:194 | each retry doubles the base delay |
| BatchFetcher.FirstSuccess | services/batch_data_fetcher.py:303-319 | the first successful attempt, with every earlier attempt empty; or none when all attempts are empty |
| BatchFetcher.WaitsAt | services/batch_data_fetcher.py:327-331 | at most `max_retries` sleeps per symbol |
| BatchFetcher.Truncated | services/batch_data_fetcher.py:292-294 | the batch is the first `max_batch_size` symbols |
| BatchFetcher.RecordAllCovers | services/batch_data_fetcher.py:298-341 | every processed symbol is successful or failed, nothing else is added, the configs keep their keys, and each failure adds one breaker failure |
| BatchFetcher.RecordAllElsewhere | services/batch_data_fetcher.py:298-341 | symbols outside the batch are untouched |
| BatchFetcher.RecordAllDistinct | services/batch_data_fetcher.py:298-341 | for a batch of distinct symbols, each symbol is successful exactly when its fetch returned a quote, with its config refreshed or missed accordingly |
| BatchFetcher.RecordAllPartition | services/batch_data_fetcher.py:298-341 | distinct symbols split into successful and failed with no overlap, covering the batch |
| BatchFetcher.DuplicateInBothMaps | services/batch_data_fetcher.py:308-334 | a symbol named twice can end up in both maps |
| BatchFetcher.Outcomes | services/batch_data_fetcher.py:298-331 | one outcome per batch position, each the retry loop's result |
| BatchFetcher.BatchSymbolOutcome | services/batch_data_fetcher.py:298-341 | a symbol succeeds exactly when some attempt up to `max_retries` returned a quote; otherwise its error is the no-data message, or "Unknown error" when no attempt ran |
| BatchFetcher.FetchWithRetries | services/batch_data_fetcher.py:303-331 | the retry loop returns the first quote, the no-data error otherwise, and the sleeps between attempts |
| BatchFetcher.RecordFetch | services/batch_data_fetcher.py:307-341 | the per-symbol bookkeeping is one step of `RecordOutcome` |
| BatchFetcher.RecordSuccessIgnoresError | services/batch_data_fetcher.py:307-319 | the error from earlier attempts does not matter once a quote arrives |
| BatchFetcher.FetchAll | services/batch_data_fetcher.py:298-341 | the batch loop's maps, configs and failure count are `RecordAll` over the batch; configs keep their keys |
| BatchFetcher.WatchListKeys | services/batch_data_fetcher.py:298-341 | a config update that keeps the keys keeps the watch order valid |
| BatchFetcher.SuccessRate | services/batch_data_fetcher.py:434-436 | the success rate is a percentage between 0 and 100 |
| BatchFetcher.RoundPercentBounds | services/batch_data_fetcher.py:442 | rounding a percentage keeps it between 0 and 100 |
| BatchFetcher.CountBatch | services/batch_data_fetcher.py:344-351 | each batch counts once, and as successful or failed when it had a success or a failure |
| BatchFetcher.BatchDataFetcher.constructor | services/batch_data_fetcher.py:53-96 | no watched symbols, a closed breaker, zero counters |
| BatchFetcher.BatchDataFetcher.AddSymbolToWatch | services/batch_data_fetcher.py:98-115 | a new symbol is added with a fresh config at the end of the order; a known one changes nothing |
| BatchFetcher.BatchDataFetcher.RemoveSymbolFromWatch | services/batch_data_fetcher.py:117-133 | the symbol leaves the table and the order; the result says whether it was watched |
| BatchFetcher.BatchDataFetcher.UpdateSymbolPriority | services/batch_data_fetcher.py:135-153 | only the priority of a watched symbol changes |
| BatchFetcher.BatchDataFetcher.AddUpdateCallback | services/batch_data_fetcher.py:155-163 | the callback is appended |
| BatchFetcher.BatchDataFetcher.IsCircuitBreakerOpen | services/batch_data_fetcher.py:165-181 | the answer and the new breaker state are `BreakerCheck` |
| BatchFetcher.BatchDataFetcher.RunBatch | services/batch_data_fetcher.py:291-364 | the result, configs, breaker count, sleeps and counters follow `RecordAll` over the truncated batch; callbacks fire only if something succeeded |
| BatchFetcher.BatchDataFetcher.FetchBatchQuotes | services/batch_data_fetcher.py:272-364 | with the breaker open, every requested symbol fails with the breaker message and nothing else changes; otherwise as `RunBatch` |
| BatchFetcher.BatchDataFetcher.GetSymbolsNeedingUpdate | services/batch_data_fetcher.py:366-391 | exactly the watched symbols that are due |
| BatchFetcher.BatchDataFetcher.GetPerformanceStats | services/batch_data_fetcher.py:427-447 | the counters are copied, the rate is between 0 and 100, the failures are read before the breaker check, and that check may arm or reset the breaker |
| WebSockets.SubscribeKeepsRegistry | services/websocket_manager.py:78-110 | subscribing keeps the two indexes mirror images, with the client on every requested symbol and other clients untouched |
| WebSockets.UnsubscribeKeepsRegistry | services/websocket_manager.py:112-128 | unsubscribing keeps the indexes mirrored and removes the client from every given symbol |
| WebSockets.CleanupKeepsRegistry | services/websocket_manager.py:213-231 | clean-up keeps the indexes mirrored and removes the client from both |
| WebSockets.CleanupRemovesEverywhere | services/websocket_manager.py:213-231 | clean-up equals dropping the client's entry and removing it from every symbol |
| WebSockets.ConnectKeepsRegistry | services/websocket_manager.py:33 | resetting the subscriptions of a client without subscriptions keeps the indexes mirrored |
| WebSockets.ReconnectBreaksRegistry | services/websocket_manager.py:33 | a reconnecting client with a subscription leaves the symbol index pointing at it |
| WebSockets.Enqueue | services/websocket_manager.py:187-197 | a queue grows by one up to 100 messages, then stays at 100 |
| WebSockets.EnqueueKeepsNewest | services/websocket_manager.py:193-197 | the queue keeps the newest messages, ending with the one just queued |
| WebSockets.EnqueueAllBounded | services/websocket_manager.py:193-195 | queuing for many clients keeps every queue within 100 |
| WebSockets.SumOfRemove | services/websocket_manager.py:237-239 | a sum over a set splits off one element |
| WebSockets.SumOfZero | services/websocket_manager.py:237 | a sum of counts is zero exactly when every count is |
| WebSockets.SumOfBound | services/websocket_manager.py:239 | a sum of bounded counts is at most the bound times the count |
| WebSockets.Total | services/websocket_manager.py:237-239 | the loop's total is the sum over the set |
| WebSockets.SubscribeIndexes | services/websocket_manager.py:91-101 | the subscription loop computes `Subscribe` |
| WebSockets.UnsubscribeIndexes | services/websocket_manager.py:112-128 | the unsubscription loop computes `Unsubscribe` |
| WebSockets.CleanupIndexes | services/websocket_manager.py:219-228 | the clean-up loop computes `Cleanup` |
| WebSockets.DeliverUpdate | services/websocket_manager.py:148-161 | each connected, non-failing subscriber gets one update; each away subscriber gets it queued; the noted clients are the away and failing ones |
| WebSockets.DropClients | services/websocket_manager.py:163-166 | the noted clients that are not connected are cleaned up, and the indexes stay mirrored |
| WebSockets.SubscriptionsIffActiveSymbols | services/websocket_manager.py:233-240 | the total of subscriptions is zero exactly when no symbol is active |
| WebSockets.QueuedMessagesBound | services/websocket_manager.py:233-240 | the queued messages number at most 100 per queue |
| WebSockets.WebSocketManager.constructor | services/websocket_manager.py:16-24 | every table empty and nothing sent |
| WebSockets.WebSocketManager.QueueMessageForClient | services/websocket_manager.py:187-197 | the client's queue gets the message, keeping at most 100 |
| WebSockets.WebSocketManager.SendToClient | services/websocket_manager.py:170-185 | a connected client is sent the message; others have it queued |
| WebSockets.WebSocketManager.SendQueuedMessages | services/websocket_manager.py:199-211 | the queue is sent in order and deleted, even when the emits fail |
| WebSockets.WebSocketManager.CleanupClient | services/websocket_manager.py:213-231 | the client is disconnected and removed from both indexes; its queue is kept |
| WebSockets.WebSocketManager.HandleConnect | services/websocket_manager.py:30-43 | the client is connected with an empty subscription set, its queue is flushed, and the greeting is sent; the registry stays mirrored when the client had no subscriptions |
| WebSockets.WebSocketManager.HandleDisconnect | services/websocket_manager.py:45-48 | the client is cleaned up |
| WebSockets.WebSocketManager.HandlePing | services/websocket_manager.py:62-64 | a pong is sent to the client |
| WebSockets.WebSocketManager.HandleClientSubscription | services/websocket_manager.py:78-110 | an unknown client changes nothing; a connected one is subscribed and sent a confirmation |
| WebSockets.WebSocketManager.UnsubscribeClientFromSymbols | services/websocket_manager.py:112-128 | the client is removed from the given symbols |
| WebSockets.WebSocketManager.BroadcastStockUpdate | services/websocket_manager.py:130-168 | an unknown symbol changes nothing; otherwise each connected, non-failing subscriber gets the update once, away subscribers have it queued and are cleaned up, and failing connected ones are kept |
| WebSockets.WebSocketManager.BroadcastSystemMessage | services/websocket_manager.py:242-254 | each connected, non-failing client gets the message once |
| WebSockets.WebSocketManager.GetConnectionStats | services/websocket_manager.py:233-240 | the counts of clients, subscriptions, active symbols and queued messages |
| OptimizedSockets.NegotiateFields | services/optimized_websocket_service.py:79-95 | each announced capability is kept as sent, and absent ones take their defaults |
| OptimizedSockets.EmptyNegotiationEnablesNothing | services/optimized_websocket_service.py:84-90 | a client that announces nothing gets no compression, delta or batching |
| OptimizedSockets.SinglePayload | services/optimized_websocket_service.py:164-198 | compressed exactly when compression is chosen, and either form carries the update dict |
| OptimizedSockets.BatchPayload | services/optimized_websocket_service.py:200-239 | the count is the batch size; compressed exactly when compression is chosen; either form carries the whole batch in order |
| OptimizedSockets.UpdatesFor | services/optimized_websocket_service.py:254-262 | a client's group holds only updates for symbols it follows |
| OptimizedSockets.UpdatesForComplete | services/optimized_websocket_service.py:254-262 | and holds every such update |
| OptimizedSockets.RecipientsNonEmpty | services/optimized_websocket_service.py:254-262 | a client is a recipient exactly when its group is non-empty |
| OptimizedSockets.GroupByClient | services/optimized_websocket_service.py:254-262 | the grouping loop builds exactly each recipient's group, with a distinct client order |
| OptimizedSockets.GroupOne | services/optimized_websocket_service.py:256-262 | one update extends the groups of exactly its subscribers |
| OptimizedSockets.Processed | services/optimized_websocket_service.py:296-299 | the updates processed are a prefix of those given |
| OptimizedSockets.BaselinesKeys | services/optimized_websocket_service.py:280-299 | the baseline cache gains exactly the processed symbols, and the last processed update's data is its symbol's baseline |
| OptimizedSockets.StockDict | services/optimized_websocket_service.py:141-145 | the dict built for the update is well formed and names the symbol; which update it is, `Encode` states through `CreateDeltaUpdate` and `CreateFullUpdate` |
| OptimizedSockets.FlushMessages | services/optimized_websocket_service.py:200-239 | a flush sends one message, to the client only, exactly when the batch is non-empty and the client's emits do not fail |
| OptimizedSockets.SingleCounts | services/optimized_websocket_service.py:164-198 | a single send changes the counters only when `ShouldCompress` holds, and counts a compression exactly when it did and the result was MessagePack; the update counts are kept |
| OptimizedSockets.FlushCounts | services/optimized_websocket_service.py:200-239 | a flush changes the counters only for a non-empty compressed batch, and counts a compression exactly when the envelope packed; the update counts are kept |
| OptimizedSockets.ServedCounts | services/optimized_websocket_service.py:147-162 | serving a client counts at most one compression, none when its batch stays below the limit, and never changes the update counts |
| OptimizedSockets.ServedBatch | services/optimized_websocket_service.py:153-162 | a batching client's batch either gains the update and stays below the limit, or was sent and is empty; another client's batch is unchanged |
| OptimizedSockets.SingleMessages | services/optimized_websocket_service.py:296-299 | one message per update dict, all to the client, and none when its emits fail |
| OptimizedSockets.SingleMessagesAt | services/optimized_websocket_service.py:164-198 | the i-th message is the `optimized_update` of the i-th dict, compressed exactly when compression is on for the client and the message exceeds the threshold |
| OptimizedSockets.ChunkKeepsAll | services/optimized_websocket_service.py:153-162 | feeding dicts into a batch loses nothing and reorders nothing: the batches sent, then what is left, are the old batch followed by the dicts; every batch sent reached the limit, and what is left is below it |
| OptimizedSockets.FlushSendsAll | services/optimized_websocket_service.py:280-295 | with auto-flush every update reaches the client in order, and no batch sent is empty |
| OptimizedSockets.BatchMessages | services/optimized_websocket_service.py:200-239 | one message per batch, all to the client, and none when its emits fail |
| OptimizedSockets.BatchMessagesAt | services/optimized_websocket_service.py:200-239 | the i-th message is the `batch_update` carrying the i-th batch |
| OptimizedSockets.FedAllPending | services/optimized_websocket_service.py:282-291 | batching dicts one at a time leaves pending what `Chunk` leaves, and no other client's batch changes |
| OptimizedSockets.FedAllBatching | services/optimized_websocket_service.py:282-291 | batching dicts one at a time sends exactly the batches `Chunk` sends, in order |
| OptimizedSockets.FedAllSingle | services/optimized_websocket_service.py:296-299 | sending dicts one at a time to a client that does not batch sends `SingleMessages` of them and changes no batch |
| OptimizedSockets.BatchedAll | services/optimized_websocket_service.py:280-291 | at the end of the batching loop, the outbox and the batches are what `Chunk` gives for the update dicts, and the baselines are those of all the updates |
| OptimizedSockets.SentAll | services/optimized_websocket_service.py:296-299 | at the end of the sending loop, the outbox holds `SingleMessages` of the update dicts, no batch changed, and the baselines are those of the processed updates |
| OptimizedSockets.FlushServed | services/optimized_websocket_service.py:293-295 | sending with auto-flush is sending the full batches, then flushing what is left |
| OptimizedSockets.FlushedAfter | services/optimized_websocket_service.py:280-295 | batching then flushing what is left sends the batches `SentWithFlush` describes |
| OptimizedSockets.Flushed | services/optimized_websocket_service.py:293-295 | a bulk send with auto-flush leaves a batching client's batch empty and any other client's batch untouched, whatever the updates and the configuration |
| OptimizedSockets.BulkSentBy | services/optimized_websocket_service.py:274-299 | a bulk send against any baselines is one `BulkSent` allows |
| OptimizedSockets.BroadcastAll | services/optimized_websocket_service.py:264-272 | once every connected recipient is served: the outbox grows only toward recipients, other clients get nothing and keep their batch, and each recipient got a bulk send of its own updates and its flushed batch |
| OptimizedSockets.StepOwn | services/optimized_websocket_service.py:132-151 | one subscriber's turn adds exactly its messages to the outbox, all to that subscriber, and changes no other batch |
| OptimizedSockets.TurnPushed | services/optimized_websocket_service.py:132-151 | a turn against the baseline before the call, or against the data, is one `Pushed` allows |
| OptimizedSockets.ServedKeys | services/optimized_websocket_service.py:121-130 | the subscribers served are exactly those in the iteration order |
| OptimizedSockets.ReachedAll | services/optimized_websocket_service.py:121-130 | after serving subscribers in turn, each one's room received what it was sent and its batch is what it was left with; nobody else's room or batch changed |
| OptimizedSockets.GotAll | services/optimized_websocket_service.py:121-130 | after serving subscribers in turn, each got what `Pushed` allows, and the baseline is the old one or the data |
| OptimizedSockets.PushedAll | services/optimized_websocket_service.py:121-130 | once every target was served, each got what `Pushed` allows |
| OptimizedSockets.PushedAllFrom | services/optimized_websocket_service.py:118-130 | serving the targets in any distinct order: the outbox grows only toward targets, non-targets get nothing and keep their batch, each target gets what `Pushed` allows, and the baseline moves to the data exactly when there was a target |
| OptimizedSockets.FlushedAll | services/optimized_websocket_service.py:241-244 | once every client with a batch was flushed: the same clients have batches, all empty, and each room received exactly `FlushMessages` of its old batch |
| OptimizedSockets.ExtendsTrans | services/optimized_websocket_service.py:246-272 | outbox growth toward a set of clients composes |
| OptimizedSockets.CountEnabled | services/optimized_websocket_service.py:311-316 | the count is the number of clients whose flag is truthy: at most the number of clients, all of them exactly when every flag is set, none exactly when none is |
| OptimizedSockets.CountEnabledStep | services/optimized_websocket_service.py:311-316 | adding a client adds one to the count exactly when its flag is set, as `sum(1 for ...)` counts |
| OptimizedSockets.OptimizedWebSocketService.constructor | services/optimized_websocket_service.py:21-40 | no capabilities, the default batch configuration, no pending batches |
| OptimizedSockets.OptimizedWebSocketService.NegotiateCapabilities | services/optimized_websocket_service.py:79-95 | the client's capabilities are the negotiated ones |
| OptimizedSockets.OptimizedWebSocketService.HandleClientCapabilities | services/optimized_websocket_service.py:46-69 | capabilities stored and the server's capabilities sent back |
| OptimizedSockets.OptimizedWebSocketService.HandleCompressionStatsRequest | services/optimized_websocket_service.py:97-101 | the compressor's stats are sent |
| OptimizedSockets.OptimizedWebSocketService.SendSingleUpdate | services/optimized_websocket_service.py:164-198 | one update is sent to the client, compressed exactly when compression is on and the message exceeds the threshold; the compressor's counters are `SingleCounts`: a compression is counted, with its sizes, exactly when it ran and produced MessagePack, and the delta and full counts are kept |
| OptimizedSockets.OptimizedWebSocketService.FlushBatch | services/optimized_websocket_service.py:200-239 | a non-empty pending batch is sent whole and emptied; an empty one changes nothing; the compressor's counters are `FlushCounts`: the batch envelope's compression is counted exactly when the batch was non-empty and compressed, even if the send then fails |
| OptimizedSockets.OptimizedWebSocketService.AddToBatch | services/optimized_websocket_service.py:153-162 | the update joins the client's batch, which is flushed when it reaches the size limit; batches stay below it; the compressor's counters change only by that flush (`FlushCounts`) |
| OptimizedSockets.OptimizedWebSocketService.Encode | services/optimized_websocket_service.py:141-145 | the dict is `StockDict` against the old baseline, the baseline becomes the data, and the counters are `Encoding` of the update: `delta_updates` grows exactly for a delta, `full_updates` exactly for a full update, and the compression totals are kept |
| OptimizedSockets.OptimizedWebSocketService.Deliver | services/optimized_websocket_service.py:147-151 | a batching client has the dict added to its batch (`ServedBatch`, `ServedMessages`), any other client is sent it; no other batch and no baseline changes; the compressor's counters are `ServedCounts` |
| OptimizedSockets.OptimizedWebSocketService.SendUpdateToClient | services/optimized_websocket_service.py:132-151 | the symbol's baseline becomes the data and a full update is counted unless the client takes deltas; the update dict is `StockDict` (delta or full); a batching client has it added to its batch (`ServedBatch`, flushed with `ServedMessages` on reaching the limit), any other client is sent it as one `optimized_update`; no other batch changes; the compressor's counters are `ServedCounts` after `Encoding` of the update, so `delta_updates`, `full_updates` and the compression totals are all stated |
| OptimizedSockets.OptimizedWebSocketService.SendOptimizedStockUpdate | services/optimized_websocket_service.py:108-130 | only connected subscribers receive anything, and nobody else's batch changes; each of them gets what `Pushed` allows: the update built against the baseline before the call or against the data itself (the baseline is shared, and the first subscriber served moves it), batched or sent as `SendUpdateToClient` does; the baseline moves only when there was a subscriber |
| OptimizedSockets.OptimizedWebSocketService.PushToSubscribers | services/optimized_websocket_service.py:121-130 | the loop serves a distinct order of exactly the connected subscribers, each against the shared baseline the earlier ones left (`PushProgress`) |
| OptimizedSockets.OptimizedWebSocketService.PushNext | services/optimized_websocket_service.py:123-130 | serving one more subscriber keeps `PushProgress` for the order extended by it |
| OptimizedSockets.OptimizedWebSocketService.SendBulkUpdatesToClient | services/optimized_websocket_service.py:274-299 | the messages are `BulkMessages` of the update dicts built in order: for a batching client every update is batched, the full batches sent on the way and the rest flushed when asked; any other client is sent each update on its own; the batch left is `BulkBatch`; the baselines move for every update processed |
| OptimizedSockets.OptimizedWebSocketService.BatchAll | services/optimized_websocket_service.py:280-295 | every update dict is batched in order, the full batches are sent, and with auto-flush the rest is sent too (`SentWithFlush`) and the batch left empty; other batches are unchanged; the baselines are those of all the updates |
| OptimizedSockets.OptimizedWebSocketService.BatchEach | services/optimized_websocket_service.py:280-291 | every update is batched in order: the batches that reach the limit are sent as `BatchPayload`s, the rest is pending (`Chunk`), and each update becomes its symbol's baseline |
| OptimizedSockets.OptimizedWebSocketService.BatchNext | services/optimized_websocket_service.py:282-291 | batching the i-th update keeps the loop's `Progress` for i + 1 updates |
| OptimizedSockets.OptimizedWebSocketService.BatchOne | services/optimized_websocket_service.py:282-291 | the update dict joins the client's batch as `Fed` says (sent when it reaches the limit), and becomes its symbol's baseline |
| OptimizedSockets.OptimizedWebSocketService.SendEach | services/optimized_websocket_service.py:296-299 | a non-batching client is sent `SingleMessages` of the update dicts, the i-th carrying the i-th update; batches are untouched; the baselines move for the updates processed |
| OptimizedSockets.OptimizedWebSocketService.SendNext | services/optimized_websocket_service.py:298-299 | sending the i-th update keeps the loop's `Progress` for i + 1 updates |
| OptimizedSockets.OptimizedWebSocketService.FlushAllBatches | services/optimized_websocket_service.py:241-244 | every pending batch is emptied, the outbox grows only toward clients with a batch, and each client's room receives exactly `FlushMessages` of its old batch: one `BatchPayload` message when it was non-empty and its emits do not fail |
| OptimizedSockets.OptimizedWebSocketService.FlushEach | services/optimized_websocket_service.py:243-244 | the loop flushes every client that had a batch (`FlushedSoFar` for all of them) |
| OptimizedSockets.OptimizedWebSocketService.FlushNext | services/optimized_websocket_service.py:243-244 | flushing one more client empties its batch, sends it its `FlushMessages`, and keeps `FlushedSoFar` |
| OptimizedSockets.OptimizedWebSocketService.BroadcastOptimizedUpdates | services/optimized_websocket_service.py:246-272 | only connected recipients receive anything, and nobody else's batch changes; each recipient's room receives a bulk send of exactly its own updates with auto-flush (`BulkSent`), and its batch ends as `Flushed` leaves it |
| OptimizedSockets.OptimizedWebSocketService.BroadcastGroups | services/optimized_websocket_service.py:265-272 | the loop serves exactly the connected clients in the order, each with a bulk send of its own group (`ReachedSoFar`, `BulkServed`) |
| OptimizedSockets.OptimizedWebSocketService.BroadcastNext | services/optimized_websocket_service.py:266-272 | serving one more client records what its room received and the batch it was left with, keeping `ReachedSoFar` and `BulkServed` |
| OptimizedSockets.OptimizedWebSocketService.GetOptimizationStats | services/optimized_websocket_service.py:301-320 | the compressor's stats; the connection manager's four counts; the number of clients, and for each capability the `CountEnabled` of clients with it set; each pending batch's length; the batch configuration |
| OptimizedSockets.OptimizedWebSocketService.UpdateBatchConfig | services/optimized_websocket_service.py:322-325 | each given setting replaces the old one and the rest are kept |
| OptimizedSockets.OptimizedWebSocketService.CleanupClientData | services/optimized_websocket_service.py:327-331 | the client's capabilities and pending batch are dropped |
| CacheIntegration.WrittenAll | services/cache_integration_service.py:87-101 | after the loop the cache is the old cache overwritten with the successful writes |
| CacheIntegration.SuccessesCount | services/cache_integration_service.py:87-98 | the loop's success count is the number of distinct symbols whose write succeeded |
| CacheIntegration.CacheStore.RefreshStockData | services/cache_integration_service.py:90-95 | a write succeeds exactly when it does not fail, and only then is the cache updated |
| CacheIntegration.CacheStore.InvalidateStockData | services/cache_integration_service.py:235-236 | the symbol leaves the cache |
| CacheIntegration.WrittenTwice | services/cache_integration_service.py:169-176 | writing a fetch's quotes again after `_handle_batch_updates` wrote them leaves the same cache |
| CacheIntegration.CacheStore.InvalidateEach | services/cache_integration_service.py:234-236 | every given symbol's entry is removed and nothing else |
| CacheIntegration.CacheStore.RefreshListed | services/cache_integration_service.py:241-248 | one result per given symbol, true exactly when it was fetched and its write succeeded; the cache gains exactly the successful writes |
| CacheIntegration.CacheStore.RefreshEach | services/cache_integration_service.py:78-101 | every quote is written; the count is the number of successful writes |
| CacheIntegration.CacheStore.WarmCache | services/cache_integration_service.py:172-176 | one result per fetched symbol, true exactly when its write succeeded |
| CacheIntegration.Listed | services/cache_integration_service.py:168 | the essential set listed without duplicates |
| CacheIntegration.HitRatePercent | services/cache_integration_service.py:297-319 | the hit rate is between 0 and 100, 0 with no hits and 100 with no misses |
| CacheIntegration.RoundPercent | services/cache_integration_service.py:297-319 | rounding to two places keeps the rate within 0 and 100, and keeps 0 and 100 exact |
| CacheIntegration.BroadcastQuote | services/cache_integration_service.py:116-120 | a symbol without subscribers changes nothing; otherwise the quote goes to each connected, non-failing subscriber once, each subscriber that is not connected has it queued (`EnqueueAll`) and is dropped from both indexes (`Restrict`, `WithoutClients`), and the connected set is kept |
| CacheIntegration.CacheIntegrationService.constructor | services/cache_integration_service.py:31-76 | zero counters, no essential stocks, and the batch callback registered with the fetcher |
| CacheIntegration.CacheIntegrationService.HandleBatchUpdates | services/cache_integration_service.py:78-101 | the successful writes reach the cache and are counted as processed |
| CacheIntegration.CacheIntegrationService.HandleCacheUpdates | services/cache_integration_service.py:103-125 | with a socket manager, the quote's dictionary is broadcast and counted, and the manager's outbox, queues, both indexes and connected set are as `BroadcastStockUpdate` leaves them; without one, nothing is sent |
| CacheIntegration.CacheIntegrationService.AddEssentialStock | services/cache_integration_service.py:127-140 | the stock becomes essential and is watched by the fetcher |
| CacheIntegration.CacheIntegrationService.RemoveEssentialStock | services/cache_integration_service.py:142-152 | the stock stops being essential and watched |
| CacheIntegration.CacheIntegrationService.WarmCacheForEssentials | services/cache_integration_service.py:154-182 | with no essentials or nothing fetched, nothing changes; otherwise the fetch's registered `_handle_batch_updates` writes the quotes and adds the successful writes to `updates_processed`, then one result per fetched symbol and the successful writes reach the cache; the other counters are kept |
| CacheIntegration.CacheIntegrationService.GetStockData | services/cache_integration_service.py:184-220 | a hit returns the cached quote; a miss returns nothing or fetches, caches and returns; exactly one of hits and misses grows; a fetch runs the registered `_handle_batch_updates`, so the successful writes reach the cache and are added to `updates_processed` |
| CacheIntegration.CacheIntegrationService.InvalidateAndRefresh | services/cache_integration_service.py:222-253 | one result per requested symbol, true exactly when it was fetched and written; a requested symbol is cached exactly when its result is true; other cache entries are untouched; the fetch runs the registered `_handle_batch_updates`, which adds the successful writes to `updates_processed`. The fetch is required to return only requested symbols, as `fetch_batch_quotes` does (services/batch_data_fetcher.py:298-308) |
| CacheIntegration.CacheIntegrationService.StartPeriodicCacheWarming | services/cache_integration_service.py:255-285 | starting succeeds only when not already running; afterwards it is running |
| CacheIntegration.CacheIntegrationService.Stop | services/cache_integration_service.py:287-295 | it is no longer running |
| CacheIntegration.CacheIntegrationService.GetPerformanceStats | services/cache_integration_service.py:297-319 | the counters copied, and the hit rate is `HitRatePercent` of hits and misses: between 0 and 100, 0 with no hits, 100 with hits and no misses |

## Left out

- Threads, sleeps and endless loops are not modelled: `schedule_periodic_updates`, the cache-warming loop, `start_monitoring`, `stop_monitoring` and the monitoring loop. The operations they call are modelled, and sleeps are returned as values.
- `_run_check_with_timeout` runs a check on a thread with a timeout. Each check's outcome (passed, failed or raised) is an oracle parameter instead.
- `check_thresholds` and `get_system_status` are not modelled. They only combine values the model already has: metric summaries compared with thresholds (feeding `create_alert`), health-check results, breaker states, active alerts and the running flag. They sit outside the modelled core.
- `add_circuit_breaker` and `get_circuit_breaker` only store and look up breakers by name, so they are not modelled. The breaker itself is `CircuitBreaker`.
- `get_symbol_stats`, `get_service_status`, `get_all_service_status` and `get_cache_status` only format fields the model already exposes. `get_cache_status` also asks Redis for server information, which is outside the model.
- `_trigger_recovery_callbacks` calls foreign callbacks. The callbacks that would fire are returned as `fired`.
- Update callbacks in the fetcher are names, returned as `notified`, and are not called by `BatchFetcher`. The one callback whose effect is modelled is this service's own `_handle_batch_updates`, which its constructor registers: `GetStockData`, `WarmCacheForEssentials` and `InvalidateAndRefresh` run it (as `HandleBatchUpdates`) after every fetch that returned quotes. Handlers that other objects registered on the same fetcher are not run.
- CacheIntegration.CacheIntegrationService.GetStockData: a symbol's cache write fails or succeeds the same way for the callback's write and the caller's second write in one call, because both use one `failing` set. The same holds for `WarmCacheForEssentials` and `InvalidateAndRefresh`.
- Socket.IO handler registration, the request-id lookup, decorators and logging are not modelled.
- `cache/redis_manager.py` is not part of this model. The cache is a map, with expiry times, pub-sub and connection handling left out.
- MessagePack, gzip, JSON text and base64 are an abstract invertible encoding. Whether a value fits MessagePack is a predicate, and byte sizes are parameters.
- Floats are exact reals, and `round` is round-half-even on the real value rather than on the binary double.
- Timestamps come in as parameters, as `datetime.now()` and `time.time()` are not modelled.
- Each socket class records emissions in its own outbox. The two outboxes are not merged into one global order.
- OptimizedSockets.OptimizedWebSocketService.FlushAllBatches: states that every batch is emptied and the outbox only grows toward those clients, but not the order in which the clients are flushed.
- OptimizedSockets.OptimizedWebSocketService.BroadcastOptimizedUpdates: does not state the new delta baselines. It also does not say which baselines each recipient's update dicts were built against, because that depends on the order the clients are served in. `BulkSent` says only that there were some.
- OptimizedSockets.OptimizedWebSocketService.UpdateBatchConfig: the settings are typed fields. `dict.update` also stores keys the service never reads, and values of any type; neither can be represented, so only the four known settings are replaced.
- StockQuotes.FromDict: rejects values of the wrong type, where Python would build a quote holding them.
- CacheIntegration.CacheIntegrationService.WarmCacheForEssentials: the batch fetch is a function parameter, so the fetcher's own bookkeeping during warming is not repeated here. That bookkeeping is modelled in `BatchFetcher.BatchDataFetcher.FetchBatchQuotes`.
- Monitoring.MonitoringService.CreateAlert: the level-to-log-level table only affects logging.
- OptimizedSockets.OptimizedWebSocketService.SendOptimizedStockUpdate: the order in which the subscriber set is iterated is not fixed. Each subscriber's update is therefore stated as built against either the baseline before the call or the data itself (`Pushed`).
- SendEach, SendBulkUpdatesToClient, SendQueuedMessages, HandleConnect: an emit fails per room for a whole call (the `failing` set), so every emit to one room in one call fails or none does. A queue delivered in part, or a bulk send that fails after its k-th update, is not modelled. SendEach's message count and the "first update only" baselines of a failing client follow from this. The `connection_established` emit of HandleConnect and the `pong` of HandlePing are unguarded in the source, so a failing emit raises into the Socket.IO handler. The model drops it like any failing emit; each is its handler's last statement, so no modelled state differs.
- StockQuotes.ParseIso / FromDict: `datetime.fromisoformat` also accepts a date alone, other separators, `HH:MM` times, 3-digit fractions and `+HH:MM` offsets. The model parses only the two shapes `isoformat` writes, so on those other inputs `FromDict` returns `InvalidIsoFormat` where the source builds a quote.
- `_fetch_single_quote` (services/batch_data_fetcher.py:216-267) is an upstream oracle. Its trip through the monitoring service's `bse_api` breaker, its timings and success/error counters, and its `record_success`/`record_error` calls to the error handler are not modelled here. Those services are modelled on their own, in `Monitoring` and `ErrorHandling`.
- ErrorHandling.GracefulDegradationManager.HandleSystemDegradation: returns a `map`, so the insertion order of the source's result dict, which follows `get_degraded_services`, is not kept.
